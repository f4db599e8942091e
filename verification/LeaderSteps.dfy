/** Winning an election, and appending to the leader's own log. */
module LeaderSteps {
  import opened Logs
  import opened Cluster
  import opened Invariants
  import opened Consequences
  import opened Frames
  import opened SendSteps

  // ---------------------------------------------------------------- who can win

  /** Two majorities of one term share a voter, who voted once. */
  lemma FreshTerm(s: State, c: Id, voters: set<Id>)
    requires ReignsOk(s) && VotesOk(s) && CanBecomeLeader(s, c, voters)
    ensures s.nodes[c].term !in s.reigns
  {
    var t := s.nodes[c].term;
    if t in s.reigns {
      assert ReignOk(s, t);
      var r := s.reigns[t];
      var q := QuorumsMeet(s.Ids(), r.voters, voters);
      assert VoterOk(s, q, r.leader, t);
      OneChoice(s, q, r.leader, c, t);
    }
  }

  lemma OneChoice(s: State, q: Id, c: Id, d: Id, t: nat)
    requires VotesOk(s) && VotedFor(s, q, c, t) && VotedFor(s, q, d, t)
    ensures c == d
  {
    var w :| w in s.votes && w.voter == q && w.request.candidate == c && w.request.term == t;
    var x :| x in s.votes && x.voter == q && x.request.candidate == d && x.request.term == t;
    assert OneVote(w, x);
  }

  /** The winner's log position covers everything an earlier term may have committed. */
  lemma WinnerCovers(s: State, c: Id, voters: set<Id>, t: nat, k: nat)
    requires VotesOk(s) && CanBecomeLeader(s, c, voters)
    requires t in s.reigns && t < s.nodes[c].term
    requires s.reigns[t].base < k && Choosable(s, t, k)
    ensures LastTerm(s.nodes[c].log) > t || (LastTerm(s.nodes[c].log) == t && |s.nodes[c].log| >= k)
  {
    var n := s.nodes[c];
    var a :| MayAck(s, a, t, k);
    var q := QuorumsMeet(s.Ids(), a, voters);
    var w :| w in s.votes && w.voter == q && w.request.candidate == c && w.request.term == n.term;
    assert VoteOk(s, w) && BallotOk(s, w.request);
    assert Vouches(s, w, t, k);
  }

  /** The winner's log is a prefix of the log of the leader that wrote its last entry. */
  lemma WinnerLog(s: State, c: Id, voters: set<Id>)
    requires ReignsOk(s) && VotesOk(s) && Complete(s) && CanBecomeLeader(s, c, voters)
    requires NodeOk(s, c, s.nodes[c]) && s.nodes[c].term !in s.reigns
    requires s.nodes[c].log != []
    ensures var log := s.nodes[c].log;
            LastTerm(log) in s.reigns && LastTerm(log) < s.nodes[c].term && log <= s.reigns[LastTerm(log)].log
  {
    hide VotesOk;
    var n := s.nodes[c];
    var last := LastTerm(n.log);
    if n.snap < |n.log| {
      assert StoredOk(s, n, |n.log|);
      SnapshotUnderTail(s, c, voters);
      AgreeJoin(n.log, s.reigns[last].log, n.snap, |n.log|);
    } else {
      assert n.log[..n.commit] == n.log;
      var u: nat, k: nat :| Commits(s, n.log, n.term, u, k);
      assert ReignOk(s, u) && EntryOk(s, u, |n.log|);
      AgreeTerm(n.log, s.reigns[u].log, |n.log|, |n.log|);
      AgreeTrans(n.log, s.reigns[u].log, s.reigns[last].log, |n.log|);
    }
  }

  /** A tail above a snapshot belongs to a leader that carries the snapshot, once its holder
      wins: a left-over tail cannot win. */
  lemma SnapshotUnderTail(s: State, c: Id, voters: set<Id>)
    requires ReignsOk(s) && VotesOk(s) && Complete(s) && CanBecomeLeader(s, c, voters)
    requires NodeOk(s, c, s.nodes[c]) && s.nodes[c].term !in s.reigns
    requires s.nodes[c].snap < |s.nodes[c].log| && LastTerm(s.nodes[c].log) in s.reigns
    requires |s.nodes[c].log| <= |s.reigns[LastTerm(s.nodes[c].log)].log|
    ensures Agree(s.nodes[c].log, s.reigns[LastTerm(s.nodes[c].log)].log, s.nodes[c].snap)
  {
    hide VotesOk;
    var n := s.nodes[c];
    var last := LastTerm(n.log);
    if n.snap > 0 {
      var log := n.log[..n.commit];
      var u: nat, k: nat :| Commits(s, log, n.term, u, k);
      ChosenIsChoosable(s, u, k);
      WinnerCovers(s, c, voters, u, k);
      assert Commits(s, log, u, u, k);
      CommittedInReign(s, log, u, last);
      PrefixAgree(log, s.reigns[last].log, n.snap);
      assert log[..n.snap] == n.log[..n.snap];
    }
  }

  // ---------------------------------------------------------------- the step

  lemma ElectedTerm(ids: set<Id>, c: Id, n: Node)
    ensures Elected(ids, c, n).term == n.term
  {}

  lemma BecomeLeaderExtends(s: State, c: Id, voters: set<Id>)
    requires c in s.nodes && s.nodes[c].term !in s.reigns
    ensures Extends(s, DoBecomeLeader(s, c, voters)) && KeepsReigns(s, DoBecomeLeader(s, c, voters))
  {
    hide Elected;
    var s2 := DoBecomeLeader(s, c, voters);
    assert s2.acks == s.acks && s2.nodes[c].term == s.nodes[c].term by {
      ElectedTerm(s.Ids(), c, s.nodes[c]);
    }
  }

  lemma BecomeLeaderKeeps(s: State, c: Id, voters: set<Id>)
    requires Inv(s) && CanBecomeLeader(s, c, voters)
    ensures Inv(DoBecomeLeader(s, c, voters))
  {
    hide ReignOk, VotesOk, AcksOk, Complete, Extends, PairOk, NodeOk;
    hide AppendOk, ReplyOk, SnapshotOk, SnapshotPairOk, InstalledOk;
    var s2 := DoBecomeLeader(s, c, voters);
    FreshTerm(s, c, voters);
    BecomeLeaderExtends(s, c, voters);
    NewReign(s, c, voters);
    NewReignComplete(s, c, voters);
    BecomeLeaderNodes(s, c, voters);
    BecomeLeaderVotes(s, c, voters);
    BecomeLeaderAcks(s, c, voters);
    MessagesQuiet(s, s2);
    BecomeLeaderPairs(s, c, voters);
  }

  lemma NewReign(s: State, c: Id, voters: set<Id>)
    requires ReignsOk(s) && NodesOk(s) && VotesOk(s) && Complete(s)
    requires CanBecomeLeader(s, c, voters) && s.nodes[c].term !in s.reigns
    ensures ReignsOk(DoBecomeLeader(s, c, voters))
  {
    hide VotesOk, NodesOk, Complete, Extends, ReignOk;
    var s2 := DoBecomeLeader(s, c, voters);
    BecomeLeaderExtends(s, c, voters);
    forall t | t in s2.reigns
      ensures ReignOk(s2, t)
    {
      if t != s.nodes[c].term {
        ReignKept(s, s2, t);
      } else {
        NewReignOk(s, c, voters);
      }
    }
  }

  lemma NewReignOk(s: State, c: Id, voters: set<Id>)
    requires ReignsOk(s) && NodesOk(s) && VotesOk(s) && Complete(s)
    requires CanBecomeLeader(s, c, voters) && s.nodes[c].term !in s.reigns
    ensures ReignOk(DoBecomeLeader(s, c, voters), s.nodes[c].term)
  {
    hide Complete;
    var s2, n, t := DoBecomeLeader(s, c, voters), s.nodes[c], s.nodes[c].term;
    assert NodeOk(s, c, n);
    var v := WinnerTerm(s, c, voters);
    forall q | q in voters
      ensures VoterOk(s2, q, c, t)
    {
      var w :| w in s.votes && w.voter == q && w.request.candidate == c && w.request.term == t;
      assert VoteOk(s, w);
      assert w in s2.votes;
    }
    if n.log != [] {
      WinnerLog(s, c, voters);
      NewReignEntries(s, s2, n.log, LastTerm(n.log), t);
    }
  }

  lemma WinnerTerm(s: State, c: Id, voters: set<Id>) returns (v: VoteRequest)
    requires VotesOk(s) && CanBecomeLeader(s, c, voters)
    ensures v in s.voteRequests && 1 <= s.nodes[c].term
  {
    var q :| q in voters;
    var w :| w in s.votes && w.voter == q && w.request.candidate == c && w.request.term == s.nodes[c].term;
    assert VoteOk(s, w) && BallotOk(s, w.request);
    v := w.request;
  }

  lemma NewReignEntries(s: State, s2: State, log: seq<Entry>, u: nat, t: nat)
    requires ReignsOk(s) && u in s.reigns && log <= s.reigns[u].log && u < t && t !in s.reigns
    requires KeepsReigns(s, s2) && t in s2.reigns && s2.reigns[t].log == log && s2.reigns[t].base == |log|
    ensures Sorted(log)
    ensures forall k {:trigger EntryOk(s2, t, k)} :: 1 <= k <= |log| ==> EntryOk(s2, t, k)
  {
    assert ReignOk(s, u);
    assert forall j :: 0 <= j <= |log| ==> TermAt(log, j) == TermAt(s.reigns[u].log, j);
    forall k | 1 <= k <= |log|
      ensures EntryOk(s2, t, k)
    {
      assert EntryOk(s, u, k);
      PrefixAgree(log, s.reigns[u].log, k);
      AgreeTrans(log, s.reigns[u].log, s.reigns[TermAt(log, k)].log, k);
    }
  }

  lemma NewReignComplete(s: State, c: Id, voters: set<Id>)
    requires ReignsOk(s) && NodesOk(s) && VotesOk(s) && Complete(s)
    requires CanBecomeLeader(s, c, voters) && s.nodes[c].term !in s.reigns
    ensures Complete(DoBecomeLeader(s, c, voters))
  {
    hide VotesOk, NodesOk, ReignsOk, Extends;
    var s2, t := DoBecomeLeader(s, c, voters), s.nodes[c].term;
    BecomeLeaderExtends(s, c, voters);
    forall u: nat, v: nat, k: nat | u in s2.reigns && v in s2.reigns
      ensures Carries(s2, u, v, k)
    {
      if v != t && Choosable(s2, v, k) {
        ChoosableEarlier(s, s2, v, k);
        if u != t {
          assert Carries(s, u, v, k);
        } else if v < t && s.reigns[v].base < k <= |s.reigns[v].log| {
          WinnerCarries(s, c, voters, v, k);
        }
      }
    }
  }

  /** Leader completeness at the moment of election. */
  lemma WinnerCarries(s: State, c: Id, voters: set<Id>, t: nat, k: nat)
    requires ReignsOk(s) && NodesOk(s) && VotesOk(s) && Complete(s)
    requires CanBecomeLeader(s, c, voters) && s.nodes[c].term !in s.reigns
    requires t in s.reigns && t < s.nodes[c].term && s.reigns[t].base < k <= |s.reigns[t].log|
    requires Choosable(s, t, k)
    ensures Agree(s.nodes[c].log, s.reigns[t].log, k)
  {
    var n := s.nodes[c];
    var last := LastTerm(n.log);
    assert NodeOk(s, c, n) && ReignOk(s, t) && EntryOk(s, t, k);
    WinnerCovers(s, c, voters, t, k);
    WinnerLog(s, c, voters);
    PrefixAgree(n.log, s.reigns[last].log, |n.log|);
    if last > t {
      assert Carries(s, last, t, k);
      assert ReignOk(s, last);
      AgreeTerm(s.reigns[last].log, s.reigns[t].log, k, k);
      AgreeTerm(n.log, s.reigns[last].log, |n.log|, |n.log|);
      assert k < |n.log|;
    }
    AgreeLower(n.log, s.reigns[last].log, |n.log|, k);
    AgreeTrans(n.log, s.reigns[last].log, s.reigns[t].log, k);
  }

  lemma MayLead(s: State, c: Id, voters: set<Id>)
    requires CanBecomeLeader(s, c, voters)
    ensures c in s.nodes && s.nodes[c].role == Candidate
  {}

  lemma BecomeLeaderNodes(s: State, c: Id, voters: set<Id>)
    requires NodesOk(s) && CanBecomeLeader(s, c, voters) && s.nodes[c].term !in s.reigns
    ensures NodesOk(DoBecomeLeader(s, c, voters))
  {
    hide Extends, CanBecomeLeader, IsCommitted;
    MayLead(s, c, voters);
    var s2, n := DoBecomeLeader(s, c, voters), s.nodes[c];
    BecomeLeaderExtends(s, c, voters);
    LeadersInReigns(s);
    assert NodeOk(s, c, n);
    CommittedStays(s, s2, n.log[..n.commit], n.term, n.term);
    forall k | n.snap < k <= |n.log|
      ensures StoredOk(s2, s2.nodes[c], k)
    {
      assert StoredOk(s, n, k);
    }
    NodesKept(s, s2, c);
  }

  lemma BecomeLeaderVotes(s: State, c: Id, voters: set<Id>)
    requires VotesOk(s) && AcksOk(s) && CanBecomeLeader(s, c, voters) && s.nodes[c].term !in s.reigns
    ensures VotesOk(DoBecomeLeader(s, c, voters))
  {
    hide Extends;
    var s2 := DoBecomeLeader(s, c, voters);
    BecomeLeaderExtends(s, c, voters);
    forall v | v in s2.voteRequests
      ensures BallotOk(s2, v)
    {
      assert BallotOk(s, v);
    }
    forall w | w in s2.votes
      ensures VoteOk(s2, w)
    {
      assert VoteOk(s, w);
    }
    forall w, t, k | w in s2.votes && t in s2.reigns
      ensures Vouches(s2, w, t, k)
    {
      if t in s.reigns {
        VouchesKept(s, s2, w, t, k);
      } else {
        assert AckOk(s, w.voter, t);
      }
    }
  }

  lemma BecomeLeaderAcks(s: State, c: Id, voters: set<Id>)
    requires AcksOk(s) && CanBecomeLeader(s, c, voters) && s.nodes[c].term !in s.reigns
    ensures AcksOk(DoBecomeLeader(s, c, voters))
  {
    hide Extends;
    var s2 := DoBecomeLeader(s, c, voters);
    BecomeLeaderExtends(s, c, voters);
    forall q, t
      ensures AckOk(s2, q, t)
    {
      assert AckOk(s, q, t);
    }
    forall q, t, k | q in s2.nodes && t in s2.reigns
      ensures Holds(s2, q, t, k)
    {
      if t in s.reigns {
        HoldsKept(s, s2, q, t, k);
      } else {
        assert AckOk(s, q, t);
      }
    }
  }

  lemma BecomeLeaderPairs(s: State, c: Id, voters: set<Id>)
    requires NodesOk(s) && MessagesOk(s) && PairsOk(s)
    requires CanBecomeLeader(s, c, voters) && s.nodes[c].term !in s.reigns
    requires ReignsOk(DoBecomeLeader(s, c, voters)) && Complete(DoBecomeLeader(s, c, voters))
    ensures PairsOk(DoBecomeLeader(s, c, voters))
  {
    hide MessagesOk, ReignsOk, Complete, PairOk, NodeOk, Extends;
    var s2 := DoBecomeLeader(s, c, voters);
    BecomeLeaderExtends(s, c, voters);
    PairsOfOthers(s, s2, c);
    forall p | IsPeer(s2, c, p)
      ensures PairOk(s2, c, p)
    {
      NewLeaderPair(s, c, voters, p);
    }
  }

  lemma NewLeaderPair(s: State, c: Id, voters: set<Id>, p: Id)
    requires NodesOk(s) && MessagesOk(s) && CanBecomeLeader(s, c, voters) && s.nodes[c].term !in s.reigns
    requires ReignsOk(DoBecomeLeader(s, c, voters)) && Complete(DoBecomeLeader(s, c, voters))
    requires IsPeer(s, c, p)
    ensures PairOk(DoBecomeLeader(s, c, voters), c, p)
  {
    hide MessagesOk, ReignsOk, Complete, Extends, SentOk, WaitingOk;
    var s2, t := DoBecomeLeader(s, c, voters), s.nodes[c].term;
    assert NodeOk(s, p, s.nodes[p]) && NodeOk(s, c, s.nodes[c]);
    BecomeLeaderExtends(s, c, voters);
    if s.nodes[p].term == t {
      EarlierCommit(s, s2, p, t);
    }
    assert ProgressOk(s2, c, p);
    NewLeaderSent(s, c, voters, p);
  }

  /** Before a term has a leader, whatever its members committed is in the new leader's log. */
  lemma EarlierCommit(s: State, s2: State, p: Id, t: nat)
    requires p in s.nodes && NodeOk(s, p, s.nodes[p]) && s.nodes[p].term == t && t !in s.reigns
    requires Extends(s, s2) && ReignsOk(s2) && Complete(s2) && t in s2.reigns
    ensures s.nodes[p].commit <= s2.reigns[t].base
  {
    hide ReignsOk, Complete;
    var n := s.nodes[p];
    if n.commit > 0 {
      var u: nat, k: nat :| Commits(s, n.log[..n.commit], t, u, k);
      ChosenStays(s, s2, u, k);
      assert Commits(s2, n.log[..n.commit], u, u, k);
      CommittedInReign(s2, n.log[..n.commit], u, t);
    }
  }

  lemma NewLeaderSent(s: State, c: Id, voters: set<Id>, p: Id)
    requires NodesOk(s) && MessagesOk(s) && CanBecomeLeader(s, c, voters) && s.nodes[c].term !in s.reigns
    requires IsPeer(s, c, p)
    ensures SentOk(DoBecomeLeader(s, c, voters), c, p) && WaitingOk(DoBecomeLeader(s, c, voters), c, p)
  {
    var s2, t := DoBecomeLeader(s, c, voters), s.nodes[c].term;
    assert NodeOk(s, c, s.nodes[c]);
    forall a | a in s2.appends
      ensures a.term != t
    {
      assert AppendOk(s, a);
    }
    forall y | y in s2.replies
      ensures y.request.term != t
    {
      assert ReplyOk(s, y);
    }
    forall r | r in s2.snapshots
      ensures r.term != t
    {
      assert SnapshotOk(s, r);
    }
    assert CommitsUpTo(s2, p, t, s2.nodes[c].commit);
  }

  // ---------------------------------------------------------------- appending a client entry

  lemma ProposeExtends(s: State, l: Id, e: Command)
    requires CanPropose(s, l) && NodeOk(s, l, s.nodes[l]) && AckOk(s, l, s.nodes[l].term)
    ensures Extends(s, DoPropose(s, l, e))
  {
    var s2, n := DoPropose(s, l, e), s.nodes[l];
    forall q, t
      ensures AckGrows(s, s2, q, t)
    {
      if q == l && t == n.term {
        assert Ack(s, q, t) <= |n.log|;
      }
    }
  }

  lemma ProposeKeeps(s: State, l: Id, e: Command)
    requires Inv(s) && CanPropose(s, l)
    ensures Inv(DoPropose(s, l, e))
  {
    hide ReignsOk, VotesOk, AcksOk, Complete, Extends, MessagesOk, PairsOk, NodeOk;
    var s2 := DoPropose(s, l, e);
    ProposeReady(s, l);
    ProposeExtends(s, l, e);
    ProposeReigns(s, l, e);
    ProposeComplete(s, l, e);
    ProposeNodes(s, l, e);
    ProposeVotes(s, l, e);
    ProposeAcks(s, l, e);
    ProposeMessages(s, l, e);
    ProposePairs(s, l, e);
  }

  lemma ProposeReady(s: State, l: Id)
    requires NodesOk(s) && AcksOk(s) && CanPropose(s, l)
    ensures NodeOk(s, l, s.nodes[l]) && AckOk(s, l, s.nodes[l].term)
  {}

  lemma ProposeReigns(s: State, l: Id, e: Command)
    requires ReignsOk(s) && CanPropose(s, l) && NodeOk(s, l, s.nodes[l])
    ensures ReignsOk(DoPropose(s, l, e))
  {
    var s2, n := DoPropose(s, l, e), s.nodes[l];
    forall t | t in s2.reigns
      ensures ReignOk(s2, t)
    {
      assert ReignOk(s, t);
      var r2 := s2.reigns[t];
      forall q | q in r2.voters
        ensures VoterOk(s2, q, r2.leader, t)
      {
        assert VoterOk(s, q, r2.leader, t);
      }
      forall k | 1 <= k <= |r2.log|
        ensures EntryOk(s2, t, k)
      {
        ProposeEntry(s, l, e, t, k);
      }
      ProposeSorted(s, l, e, t);
    }
  }

  lemma ProposeEntry(s: State, l: Id, e: Command, t: nat, k: nat)
    requires ReignsOk(s) && CanPropose(s, l) && NodeOk(s, l, s.nodes[l]) && t in s.reigns
    requires 1 <= k <= |DoPropose(s, l, e).reigns[t].log|
    ensures EntryOk(DoPropose(s, l, e), t, k)
  {
    var s2 := DoPropose(s, l, e);
    assert ReignOk(s, t);
    if k <= |s.reigns[t].log| {
      assert EntryOk(s, t, k);
      var u := TermAt(s.reigns[t].log, k);
      AgreeGrow(s.reigns[t].log, s.reigns[u].log, s2.reigns[u].log, k);
      assert s2.reigns[t].log[..k] == s.reigns[t].log[..k];
    }
  }

  lemma ProposeSorted(s: State, l: Id, e: Command, t: nat)
    requires ReignsOk(s) && CanPropose(s, l) && NodeOk(s, l, s.nodes[l]) && t in s.reigns
    ensures Sorted(DoPropose(s, l, e).reigns[t].log)
  {
    var s2 := DoPropose(s, l, e);
    assert ReignOk(s, t);
    var log, log2 := s.reigns[t].log, s2.reigns[t].log;
    forall j, k | 1 <= j <= k <= |log2|
      ensures TermAt(log2, j) <= TermAt(log2, k)
    {
      if j <= |log| {
        assert EntryOk(s, t, j);
        assert k <= |log| ==> TermAt(log, j) <= TermAt(log, k);
      }
    }
  }

  lemma ProposeComplete(s: State, l: Id, e: Command)
    requires ReignsOk(s) && AcksOk(s) && Complete(s) && CanPropose(s, l) && NodeOk(s, l, s.nodes[l])
    requires Extends(s, DoPropose(s, l, e))
    ensures Complete(DoPropose(s, l, e))
  {
    hide Extends;
    var s2, t := DoPropose(s, l, e), s.nodes[l].term;
    forall u: nat, v: nat, k: nat | u in s2.reigns && v in s2.reigns
      ensures Carries(s2, u, v, k)
    {
      assert Carries(s, u, v, k);
      if v < u && s2.reigns[v].base < k <= |s2.reigns[v].log| && Choosable(s2, v, k) {
        ChoosableEarlier(s, s2, v, k);
        if k <= |s.reigns[v].log| {
          AgreeGrow(s.reigns[u].log, s.reigns[v].log, s2.reigns[v].log, k);
          assert s2.reigns[u].log[..k] == s.reigns[u].log[..k];
        } else {
          DeposedProposal(s, l, e, u);
          assert false;
        }
      }
    }
  }

  /** What a leader appends after a later term was won can no longer be committed by it. */
  lemma DeposedProposal(s: State, l: Id, e: Command, u: nat)
    requires ReignsOk(s) && AcksOk(s) && CanPropose(s, l) && NodeOk(s, l, s.nodes[l])
    requires u in s.reigns && s.nodes[l].term < u
    ensures !Choosable(DoPropose(s, l, e), s.nodes[l].term, |s.nodes[l].log| + 1)
  {
    var s2, t, k := DoPropose(s, l, e), s.nodes[l].term, |s.nodes[l].log| + 1;
    if Choosable(s2, t, k) {
      var a :| MayAck(s2, a, t, k);
      assert ReignOk(s, u);
      var q := QuorumsMeet(s.Ids(), a, s.reigns[u].voters);
      assert VoterOk(s, q, s.reigns[u].leader, u);
      AckWithin(s, q, t);
    }
  }

  lemma AckWithin(s: State, q: Id, t: nat)
    requires AcksOk(s)
    ensures AckOk(s, q, t)
  {}

  lemma ProposeNodes(s: State, l: Id, e: Command)
    requires ReignsOk(s) && NodesOk(s) && CanPropose(s, l) && Extends(s, DoPropose(s, l, e))
    ensures NodesOk(DoPropose(s, l, e))
  {
    hide ReignsOk, Extends, NodeOk;
    var s2 := DoPropose(s, l, e);
    LeadersInReigns(s);
    forall q | q in s.nodes && q != l && s.nodes[q].role == Leader
      ensures s2.reigns[s.nodes[q].term].log == s.reigns[s.nodes[q].term].log
    {
      if s.nodes[q].term == s.nodes[l].term {
        OneLeader(s, q, l);
      }
    }
    ProposedNode(s, l, e);
    NodesKept(s, s2, l);
  }

  lemma ProposedNode(s: State, l: Id, e: Command)
    requires ReignsOk(s) && NodesOk(s) && CanPropose(s, l) && Extends(s, DoPropose(s, l, e))
    ensures NodeOk(DoPropose(s, l, e), l, DoPropose(s, l, e).nodes[l])
  {
    hide Extends;
    var s2, n := DoPropose(s, l, e), s.nodes[l];
    var n2 := s2.nodes[l];
    assert NodeOk(s, l, n);
    forall k | n2.snap < k <= |n2.log|
      ensures StoredOk(s2, n2, k)
    {
      if k <= |n.log| {
        assert StoredOk(s, n, k);
        var u := TermAt(n.log, k);
        assert n2.log[n.snap..k] == n.log[n.snap..k];
        assert s2.reigns[u].log[n.snap..k] == s.reigns[u].log[n.snap..k];
      }
    }
    CommittedStays(s, s2, n.log[..n.commit], n.term, n.term);
    assert n2.log[..n.commit] == n.log[..n.commit];
    assert n2.log[..n.applied] == n.log[..n.applied];
    assert n2.log[..n.snap] == n.log[..n.snap];
  }

  lemma ProposeVotes(s: State, l: Id, e: Command)
    requires VotesOk(s) && CanPropose(s, l) && Extends(s, DoPropose(s, l, e))
    ensures VotesOk(DoPropose(s, l, e))
  {
    hide Extends;
    var s2 := DoPropose(s, l, e);
    forall v | v in s2.voteRequests
      ensures BallotOk(s2, v)
    {
      assert BallotOk(s, v);
    }
    forall w | w in s2.votes
      ensures VoteOk(s2, w)
    {
      assert VoteOk(s, w);
    }
    forall w, t, k | w in s2.votes && t in s2.reigns
      ensures Vouches(s2, w, t, k)
    {
      assert VoteOk(s, w);
      VouchesKept(s, s2, w, t, k);
    }
  }

  lemma ProposeAcks(s: State, l: Id, e: Command)
    requires ReignsOk(s) && AcksOk(s) && CanPropose(s, l) && NodeOk(s, l, s.nodes[l])
    requires Extends(s, DoPropose(s, l, e))
    ensures AcksOk(DoPropose(s, l, e))
  {
    hide Extends;
    var s2, n := DoPropose(s, l, e), s.nodes[l];
    forall q, t
      ensures AckOk(s2, q, t)
    {
      assert AckOk(s, q, t);
    }
    forall q, t, k | q in s2.nodes && t in s2.reigns
      ensures Holds(s2, q, t, k)
    {
      if q != l {
        HoldsKept(s, s2, q, t, k);
      } else {
        ProposedHolds(s, l, e, t, k);
      }
    }
  }

  lemma ProposedHolds(s: State, l: Id, e: Command, t: nat, k: nat)
    requires ReignsOk(s) && AcksOk(s) && CanPropose(s, l) && NodeOk(s, l, s.nodes[l])
    requires Extends(s, DoPropose(s, l, e)) && t in s.reigns
    ensures Holds(DoPropose(s, l, e), l, t, k)
  {
    hide Extends;
    var s2, n := DoPropose(s, l, e), s.nodes[l];
    var log2 := s2.nodes[l].log;
    assert ReignOk(s, t) && AckOk(s, l, t);
    if s2.reigns[t].base < k <= Ack(s2, l, t) && Choosable(s2, t, k) {
      ChoosableEarlier(s, s2, t, k);
      if t == n.term {
        forall j | k <= j <= |log2|
          ensures TermAt(log2, j) >= t
        {
          assert j <= |n.log| ==> EntryOk(s, t, j);
        }
      } else {
        assert Holds(s, l, t, k);
        AgreeGrow(s.reigns[t].log, n.log, log2, k);
        forall j | k <= j <= |log2|
          ensures TermAt(log2, j) >= t
        {
          assert j <= |n.log| ==> TermAt(log2, j) == TermAt(n.log, j);
        }
      }
    }
  }

  /** A follower of the term does not hold the new entry yet. */
  lemma ProposeAgree(s: State, l: Id, e: Command, p: Id, k: nat)
    requires ReignsOk(s) && CanPropose(s, l) && NodeOk(s, l, s.nodes[l])
    requires p in s.nodes && p != l && NodeOk(s, p, s.nodes[p])
    requires Agree(s.nodes[p].log, DoPropose(s, l, e).reigns[s.nodes[l].term].log, k)
    ensures Agree(s.nodes[p].log, s.reigns[s.nodes[l].term].log, k)
  {
    var s2, t, m := DoPropose(s, l, e), s.nodes[l].term, s.nodes[p];
    var log, log2 := s.reigns[t].log, s2.reigns[t].log;
    if k <= |log| {
      assert log2[..k] == log[..k];
    } else {
      AgreeTerm(m.log, log2, k, k);
      assert m.snap < k ==> StoredOk(s, m, k);
      OwnTermEntry(s, m, k);
      assert false;
    }
  }

  lemma BoundedPropose(s: State, l: Id, e: Command, p: Id, t: nat, x: nat)
    requires ReignsOk(s) && NodesOk(s) && CanPropose(s, l)
    requires t in s.reigns && p in s.nodes && p != s.reigns[t].leader && Bounded(s, p, t, x)
    ensures Bounded(DoPropose(s, l, e), p, t, x)
  {
    var s2, m := DoPropose(s, l, e), s.nodes[p];
    assert NodeOk(s, l, s.nodes[l]) && NodeOk(s, p, m);
    var y := Max(x, m.snap) + 1;
    if m.term == t && p != l && Agree(m.log, s2.reigns[t].log, y) {
      if t == s.nodes[l].term {
        ProposeAgree(s, l, e, p, y);
      }
    }
  }

  lemma CappedPropose(s: State, l: Id, e: Command, p: Id, t: nat, x: nat)
    requires ReignsOk(s) && NodesOk(s) && CanPropose(s, l)
    requires t in s.reigns && p in s.nodes && p != s.reigns[t].leader && Capped(s, p, t, x)
    ensures Capped(DoPropose(s, l, e), p, t, x)
  {
    var s2 := DoPropose(s, l, e);
    if CommitsUpTo(s, p, t, x) {
      assert CommitsUpTo(s2, p, t, x);
    } else {
      StuckPropose(s, l, e, p, t);
    }
  }

  lemma StuckPropose(s: State, l: Id, e: Command, p: Id, t: nat)
    requires ReignsOk(s) && NodesOk(s) && CanPropose(s, l)
    requires t in s.reigns && p in s.nodes && p != s.reigns[t].leader && Stuck(s, p, t)
    ensures Stuck(DoPropose(s, l, e), p, t)
  {
    var s2 := DoPropose(s, l, e);
    assert NodeOk(s, l, s.nodes[l]) && NodeOk(s, p, s.nodes[p]);
    forall a | a in s2.appends && a.to == p && a.term == t
      ensures !Agree(s2.nodes[p].log, s2.reigns[t].log, a.prev)
    {
      if t == s.nodes[l].term && Agree(s2.nodes[p].log, s2.reigns[t].log, a.prev) {
        ProposeAgree(s, l, e, p, a.prev);
      }
    }
  }

  lemma ProposeMessages(s: State, l: Id, e: Command)
    requires ReignsOk(s) && NodesOk(s) && MessagesOk(s) && CanPropose(s, l) && Extends(s, DoPropose(s, l, e))
    ensures MessagesOk(DoPropose(s, l, e))
  {
    hide ReignsOk, NodesOk, Extends;
    var s2 := DoPropose(s, l, e);
    forall r | r in s2.appends
      ensures AppendOk(s2, r)
    {
      assert AppendOk(s, r);
      BoundedPropose(s, l, e, r.to, r.term, r.prev);
      AppendKept(s, s2, r);
    }
    forall y | y in s2.replies
      ensures ReplyOk(s2, y)
    {
      ProposeReply(s, l, e, y);
    }
    forall r | r in s2.snapshots
      ensures SnapshotOk(s2, r)
    {
      ProposeSnapshot(s, l, e, r);
    }
    forall r1, r2 | r1 in s2.snapshots && r2 in s2.snapshots
      ensures SnapshotPairOk(s2, r1, r2)
    {
      assert SnapshotPairOk(s, r1, r2);
    }
    forall r | r in s2.installed
      ensures InstalledOk(s2, r)
    {
      assert InstalledOk(s, r);
    }
  }

  lemma ProposeReply(s: State, l: Id, e: Command, y: AppendReply)
    requires ReignsOk(s) && NodesOk(s) && MessagesOk(s) && y in s.replies
    requires CanPropose(s, l) && Extends(s, DoPropose(s, l, e))
    ensures ReplyOk(DoPropose(s, l, e), y)
  {
    hide ReignsOk, NodesOk, Extends;
    var s2 := DoPropose(s, l, e);
    var p, t := y.request.to, y.request.term;
    assert ReplyOk(s, y) && AppendOk(s, y.request);
    BoundedPropose(s, l, e, p, t, if y.success then y.match_ else Max(y.match_, 1) - 1);
    if y.success && s.nodes[p].term == t {
      FollowerIsNotLeader(s, l, p, t);
      AgreeGrow(s.nodes[p].log, s.reigns[t].log, s2.reigns[t].log, y.match_);
    }
  }

  lemma FollowerIsNotLeader(s: State, l: Id, p: Id, t: nat)
    requires NodesOk(s) && CanPropose(s, l) && t in s.reigns && p != s.reigns[t].leader
    requires p in s.nodes && s.nodes[p].term == t
    ensures p != l
  {
    assert NodeOk(s, l, s.nodes[l]);
  }

  lemma ProposeSnapshot(s: State, l: Id, e: Command, r: SnapshotRequest)
    requires ReignsOk(s) && NodesOk(s) && SnapshotOk(s, r) && CanPropose(s, l) && Extends(s, DoPropose(s, l, e))
    ensures SnapshotOk(DoPropose(s, l, e), r)
  {
    hide ReignsOk, NodesOk, Extends;
    var s2 := DoPropose(s, l, e);
    BoundedPropose(s, l, e, r.to, r.term, r.Index());
    CommittedStays(s, s2, r.history, r.term, r.term);
    if s2.nodes[r.to].term <= r.term && s2.nodes[r.to].snap < r.Index() {
      CappedPropose(s, l, e, r.to, r.term, r.Index());
    }
  }

  lemma ProposePairs(s: State, l: Id, e: Command)
    requires ReignsOk(s) && NodesOk(s) && PairsOk(s) && CanPropose(s, l) && Extends(s, DoPropose(s, l, e))
    ensures PairsOk(DoPropose(s, l, e))
  {
    hide ReignsOk, NodesOk, Extends, ProgressOk, SentOk, WaitingOk;
    var s2 := DoPropose(s, l, e);
    forall x, p | IsLeader(s2, x) && IsPeer(s2, x, p)
      ensures PairOk(s2, x, p)
    {
      assert PairOk(s, x, p);
      LeaderOfReign(s, x);
      ProposeProgress(s, l, e, x, p);
      ProposeSent(s, l, e, x, p);
      ProposeWaiting(s, l, e, x, p);
    }
  }

  lemma LeaderOfReign(s: State, x: Id)
    requires NodesOk(s) && IsLeader(s, x)
    ensures s.nodes[x].term in s.reigns && s.reigns[s.nodes[x].term].leader == x
  {
    assert NodeOk(s, x, s.nodes[x]);
  }

  lemma ProposeProgress(s: State, l: Id, e: Command, x: Id, p: Id)
    requires ReignsOk(s) && NodesOk(s) && CanPropose(s, l) && Extends(s, DoPropose(s, l, e))
    requires PairOk(s, x, p) && x != p && s.reigns[s.nodes[x].term].leader == x
    ensures ProgressOk(DoPropose(s, l, e), x, p)
  {
    hide ReignsOk, NodesOk, Extends, SentOk, WaitingOk;
    var s2, n, t := DoPropose(s, l, e), s.nodes[x], s.nodes[x].term;
    var m := s.nodes[p];
    BoundedPropose(s, l, e, p, t, Max(NextIndex(n, p) - 1, n.snap));
    AckNotLost(s, s2, p, t);
    if m.term == t {
      FollowerIsNotLeader(s, l, p, t);
      AgreeGrow(m.log, s.reigns[t].log, s2.reigns[t].log, Matched(n, p));
    }
  }

  lemma AckNotLost(s: State, s2: State, p: Id, t: nat)
    requires Extends(s, s2)
    ensures Ack(s, p, t) <= Ack(s2, p, t)
  {
    assert AckGrows(s, s2, p, t);
  }

  lemma ProposeSent(s: State, l: Id, e: Command, x: Id, p: Id)
    requires ReignsOk(s) && NodesOk(s) && CanPropose(s, l) && Extends(s, DoPropose(s, l, e))
    requires PairOk(s, x, p) && x != p && s.reigns[s.nodes[x].term].leader == x
    ensures SentOk(DoPropose(s, l, e), x, p)
  {
    hide ReignsOk, NodesOk, Extends, ProgressOk, WaitingOk;
    var s2, n, t := DoPropose(s, l, e), s.nodes[x], s.nodes[x].term;
    assert CommitsUpTo(s2, p, t, n.commit);
    forall a | a in s2.appends && a.to == p && a.term == t
      ensures PassedOk(s2, x, p, a)
    {
      assert PassedOk(s, x, p, a);
      ProposePassed(s, l, e, x, p, a);
    }
    forall y | y in s2.replies && y.request.to == p && y.request.term == t && y.success
      ensures ConfirmedOk(s2, x, p, y)
    {
      assert ConfirmedOk(s, x, p, y);
      AckNotLost(s, s2, p, t);
    }
    forall r | r in s2.snapshots && r.to == p && r.term == t
      ensures ShippedOk(s2, x, p, r)
    {
      assert ShippedOk(s, x, p, r);
      if CommitsUpTo(s, p, t, n.snap) {
        assert CommitsUpTo(s2, p, t, n.snap);
      }
    }
    if NextIndex(n, p) <= n.snap && s2.nodes[p].term <= t && s2.nodes[p].snap < n.snap {
      CappedPropose(s, l, e, p, t, n.snap);
    }
  }

  lemma ProposePassed(s: State, l: Id, e: Command, x: Id, p: Id, a: AppendRequest)
    requires ReignsOk(s) && NodesOk(s) && CanPropose(s, l) && Extends(s, DoPropose(s, l, e))
    requires x in s.nodes && p in s.nodes && s.nodes[x].term in s.reigns && PassedOk(s, x, p, a)
    requires x != p && s.reigns[s.nodes[x].term].leader == x
    ensures PassedOk(DoPropose(s, l, e), x, p, a)
  {
    hide ReignsOk, Extends;
    var s2, n, t := DoPropose(s, l, e), s.nodes[x], s.nodes[x].term;
    var m := s.nodes[p];
    if m.term == t {
      FollowerIsNotLeader(s, l, p, t);
    }
    if m.term == t && a.prev < NextIndex(n, p) - 1 && Agree(m.log, s2.reigns[t].log, a.prev) {
      assert NodeOk(s, l, s.nodes[l]) && NodeOk(s, p, m);
      if t == s.nodes[l].term {
        ProposeAgree(s, l, e, p, a.prev);
      }
      AgreeGrow(m.log, s.reigns[t].log, s2.reigns[t].log, NextIndex(n, p) - 1);
    }
  }

  lemma ProposeWaiting(s: State, l: Id, e: Command, x: Id, p: Id)
    requires ReignsOk(s) && NodesOk(s) && CanPropose(s, l) && Extends(s, DoPropose(s, l, e))
    requires PairOk(s, x, p) && x != p && s.reigns[s.nodes[x].term].leader == x
    ensures WaitingOk(DoPropose(s, l, e), x, p)
  {
    hide ReignsOk, NodesOk, Extends, ProgressOk, SentOk;
    var s2, n, t := DoPropose(s, l, e), s.nodes[x], s.nodes[x].term;
    if p in n.out && n.out[p].AppendRpc? {
      forall y | y in s2.replies && y.request == n.out[p].append && !y.success
        ensures RejectionOk(s2, x, p, y)
      {
        assert RejectionOk(s, x, p, y);
        if s.nodes[p].term == t && Stuck(s, p, t) {
          StuckPropose(s, l, e, p, t);
          FollowerIsNotLeader(s, l, p, t);
        }
      }
    }
  }
}
