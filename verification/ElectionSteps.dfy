/** Terms and votes: starting an election, hearing of a newer term, granting a vote. */
module ElectionSteps {
  import opened Logs
  import opened Cluster
  import opened Invariants
  import opened Consequences
  import opened Frames
  import opened LocalSteps

  // ---------------------------------------------------------------- a node enters a later term

  /** `p` moves to a later term and does not lead it; only votes may have been added. */
  ghost predicate TermStep(s: State, s2: State, p: Id) {
    && p in s.nodes && p in s2.nodes && s2.nodes == s.nodes[p := s2.nodes[p]]
    && s2.nodes[p] == s.nodes[p].(role := s2.nodes[p].role, term := s2.nodes[p].term, vote := s2.nodes[p].vote)
    && s2.nodes[p].term > s.nodes[p].term && s2.nodes[p].role != Leader
    && (s2.nodes[p].role == Candidate ==> s2.nodes[p].vote == Some(p))
    && s2.reigns == s.reigns && s2.acks == s.acks
    && s.voteRequests <= s2.voteRequests && s.votes <= s2.votes
    && s2.appends == s.appends && s2.replies == s.replies
    && s2.snapshots == s.snapshots && s2.installed == s.installed && s2.calls == s.calls
  }

  lemma TermStepExtends(s: State, s2: State, p: Id)
    requires TermStep(s, s2, p)
    ensures Extends(s, s2) && SameLogs(s, s2)
  {
    ExtendsByNode(s, s2, p);
  }

  lemma TermStepKeeps(s: State, s2: State, p: Id)
    requires Inv(s) && TermStep(s, s2, p) && VotesOk(s2)
    ensures Inv(s2)
  {
    hide VotesOk, AcksOk, Complete, MessagesOk, PairsOk, NodeOk, Extends;
    TermStepExtends(s, s2, p);
    ReignsKept(s, s2);
    AcksKept(s, s2);
    CompleteKept(s, s2);
    TermStepNodes(s, s2, p);
    TermStepMessages(s, s2, p);
    TermStepPairs(s, s2, p);
  }

  lemma TermStepNodes(s: State, s2: State, p: Id)
    requires NodesOk(s) && TermStep(s, s2, p)
    ensures NodesOk(s2)
  {
    hide Extends;
    TermStepExtends(s, s2, p);
    LeadersInReigns(s);
    var n, n2 := s.nodes[p], s2.nodes[p];
    assert NodeOk(s, p, n);
    CommittedStays(s, s2, n.log[..n.commit], n.term, n2.term);
    forall k | n2.snap < k <= |n2.log|
      ensures StoredOk(s2, n2, k)
    {
      assert StoredOk(s, n, k);
    }
    NodesKept(s, s2, p);
  }

  /** A log without entries of term `t` leaves that leader's log where the term begins. */
  lemma BoundedLater(s: State, s2: State, p: Id, q: Id, t: nat, x: nat)
    requires ReignsOk(s) && NodesOk(s) && TermStep(s, s2, p) && q in s.nodes && t in s.reigns
    requires Bounded(s, q, t, x)
    ensures Bounded(s2, q, t, x)
  {
    var n, n2, log := s.nodes[q], s2.nodes[q], s.reigns[t].log;
    var y := Max(x, n.snap) + 1;
    if q == p && n2.term == t && Agree(n2.log, log, y) {
      assert NodeOk(s, p, n) && ReignOk(s, t) && EntryOk(s, t, y);
      AgreeTerm(n.log, log, y, y);
      assert n.snap < y ==> StoredOk(s, n, y);
      OwnTermEntry(s, n, y);
      assert false;
    }
  }

  lemma TermStepMessages(s: State, s2: State, p: Id)
    requires ReignsOk(s) && NodesOk(s) && Complete(s) && MessagesOk(s) && TermStep(s, s2, p)
    ensures MessagesOk(s2)
  {
    hide ReignsOk, NodesOk, Complete, Extends, IsCommitted, Capped, Bounded;
    TermStepExtends(s, s2, p);
    forall r | r in s2.appends
      ensures AppendOk(s2, r)
    {
      assert AppendOk(s, r);
      BoundedLater(s, s2, p, r.to, r.term, r.prev);
      AppendKept(s, s2, r);
    }
    forall y | y in s2.replies
      ensures ReplyOk(s2, y)
    {
      assert ReplyOk(s, y);
      BoundedLater(s, s2, p, y.request.to, y.request.term, if y.success then y.match_ else Max(y.match_, 1) - 1);
    }
    forall r | r in s2.snapshots
      ensures SnapshotOk(s2, r)
    {
      TermStepSnapshot(s, s2, p, r);
    }
    forall r1, r2 | r1 in s2.snapshots && r2 in s2.snapshots
      ensures SnapshotPairOk(s2, r1, r2)
    {
      assert SnapshotPairOk(s, r1, r2);
    }
    forall r | r in s2.installed
      ensures InstalledOk(s2, r)
    {
      assert InstalledOk(s, r);
    }
  }

  lemma CappedLater(s: State, s2: State, p: Id, q: Id, t: nat, x: nat)
    requires ReignsOk(s) && NodesOk(s) && Complete(s) && TermStep(s, s2, p)
    requires q in s.nodes && t in s.reigns && Capped(s, q, t, x) && s2.nodes[q].term <= t
    requires s.nodes[q].term < t ==> s.reigns[t].base <= x
    ensures Capped(s2, q, t, x)
  {
    assert NodeOk(s, q, s.nodes[q]);
    if CommitsUpTo(s, q, t, x) {
      assert CommitsUpTo(s2, q, t, x);
    } else {
      assert Stuck(s2, q, t);
    }
    if s.nodes[q].term < t {
      CommitBelowBase(s, q, t);
    }
  }

  lemma TermStepSnapshot(s: State, s2: State, p: Id, r: SnapshotRequest)
    requires ReignsOk(s) && NodesOk(s) && Complete(s) && SnapshotOk(s, r) && TermStep(s, s2, p)
    ensures SnapshotOk(s2, r)
  {
    hide ReignsOk, NodesOk, Complete, Extends;
    TermStepExtends(s, s2, p);
    BoundedLater(s, s2, p, r.to, r.term, r.Index());
    CommittedStays(s, s2, r.history, r.term, r.term);
    if s2.nodes[r.to].term <= r.term && s2.nodes[r.to].snap < r.Index() {
      CappedLater(s, s2, p, r.to, r.term, r.Index());
    }
  }

  lemma TermStepPairs(s: State, s2: State, p: Id)
    requires ReignsOk(s) && NodesOk(s) && Complete(s) && MessagesOk(s) && PairsOk(s) && TermStep(s, s2, p)
    ensures PairsOk(s2)
  {
    hide ReignsOk, NodesOk, Complete, MessagesOk, ProgressOk, SentOk, WaitingOk;
    forall l, q | IsLeader(s2, l) && IsPeer(s2, l, q)
      ensures PairOk(s2, l, q)
    {
      assert PairOk(s, l, q);
      TermStepProgress(s, s2, p, l, q);
      TermStepSent(s, s2, p, l, q);
      TermStepWaiting(s, s2, p, l, q);
    }
  }

  lemma TermStepProgress(s: State, s2: State, p: Id, l: Id, q: Id)
    requires ReignsOk(s) && NodesOk(s) && Complete(s) && TermStep(s, s2, p)
    requires l != p && PairOk(s, l, q)
    ensures ProgressOk(s2, l, q)
  {
    hide ReignsOk, NodesOk, Complete, SentOk, WaitingOk;
    var n, t := s.nodes[l], s.nodes[l].term;
    BoundedLater(s, s2, p, q, t, Max(NextIndex(n, q) - 1, n.snap));
    NodeIsOk(s, l);
    if s.nodes[q].term < t {
      NodeIsOk(s, q);
      CommitBelowBase(s, q, t);
    }
  }

  lemma TermStepSent(s: State, s2: State, p: Id, l: Id, q: Id)
    requires ReignsOk(s) && NodesOk(s) && Complete(s) && MessagesOk(s) && TermStep(s, s2, p)
    requires l != p && PairOk(s, l, q)
    ensures SentOk(s2, l, q)
  {
    hide ReignsOk, NodesOk, Complete, WaitingOk;
    var n, t := s.nodes[l], s.nodes[l].term;
    assert CommitsUpTo(s2, q, t, n.commit);
    forall a | a in s2.appends && a.to == q && a.term == t
      ensures PassedOk(s2, l, q, a)
    {
      assert PassedOk(s, l, q, a);
      assert AppendOk(s, a);
    }
    forall y | y in s2.replies && y.request.to == q && y.request.term == t && y.success
      ensures ConfirmedOk(s2, l, q, y)
    {
      assert ConfirmedOk(s, l, q, y);
    }
    forall r | r in s2.snapshots && r.to == q && r.term == t
      ensures ShippedOk(s2, l, q, r)
    {
      assert ShippedOk(s, l, q, r);
      if CommitsUpTo(s, q, t, n.snap) {
        assert CommitsUpTo(s2, q, t, n.snap);
      }
    }
    if NextIndex(n, q) <= n.snap && s2.nodes[q].term <= t && s2.nodes[q].snap < n.snap {
      CappedLater(s, s2, p, q, t, n.snap);
    }
  }

  lemma TermStepWaiting(s: State, s2: State, p: Id, l: Id, q: Id)
    requires MessagesOk(s) && TermStep(s, s2, p) && l != p && PairOk(s, l, q)
    ensures WaitingOk(s2, l, q)
  {
    hide MessagesOk, ProgressOk, SentOk;
    var n, t := s.nodes[l], s.nodes[l].term;
    if q in n.out && n.out[q].AppendRpc? {
      forall y | y in s2.replies && y.request == n.out[q].append && !y.success
        ensures RejectionOk(s2, l, q, y)
      {
        assert RejectionOk(s, l, q, y);
        RepliesReached(s, y);
        if Stuck(s, q, t) && s2.nodes[q].term == t {
          assert Stuck(s2, q, t);
        }
      }
    }
  }

  lemma RepliesReached(s: State, y: AppendReply)
    requires MessagesOk(s) && y in s.replies
    ensures y.request.to in s.nodes && s.nodes[y.request.to].term >= y.request.term
  {
    assert ReplyOk(s, y);
  }

  // ---------------------------------------------------------------- votes

  /** Whoever holds what it acknowledged only votes for candidates that cover it. */
  lemma HolderVouches(s: State, s2: State, w: Vote, t: nat, k: nat)
    requires AcksOk(s) && Extends(s, s2) && s2.acks == s.acks && s2.reigns == s.reigns
    requires w.voter in s.nodes && t in s.reigns && UpToDate(w.request, s.nodes[w.voter].log)
    ensures Vouches(s2, w, t, k)
  {
    if s.reigns[t].base < k <= Ack(s, w.voter, t) && Choosable(s2, t, k) {
      ChoosableEarlier(s, s2, t, k);
      assert Holds(s, w.voter, t, k);
      var log := s.nodes[w.voter].log;
      assert TermAt(log, |log|) >= t;
    }
  }

  lemma ObserveTermKeeps(s: State, p: Id, t: nat)
    requires Inv(s) && CanObserveTerm(s, p, t)
    ensures Inv(DoObserveTerm(s, p, t))
  {
    hide ReignsOk, AcksOk, Complete, MessagesOk, PairsOk, NodesOk, VotesOk;
    var s2 := DoObserveTerm(s, p, t);
    assert TermStep(s, s2, p);
    ObserveTermVotes(s, p, t);
    TermStepKeeps(s, s2, p);
  }

  lemma ObserveTermVotes(s: State, p: Id, t: nat)
    requires VotesOk(s) && CanObserveTerm(s, p, t)
    ensures VotesOk(DoObserveTerm(s, p, t))
  {
    hide Extends;
    var s2 := DoObserveTerm(s, p, t);
    TermStepExtends(s, s2, p);
    forall v | v in s2.voteRequests
      ensures BallotOk(s2, v)
    {
      assert BallotOk(s, v);
    }
    forall w | w in s2.votes
      ensures VoteOk(s2, w)
    {
      assert VoteOk(s, w);
    }
    forall w, u, k | w in s2.votes && u in s2.reigns
      ensures Vouches(s2, w, u, k)
    {
      VouchesKept(s, s2, w, u, k);
    }
  }

  lemma BecomeCandidateKeeps(s: State, c: Id)
    requires Inv(s) && CanBecomeCandidate(s, c)
    ensures Inv(DoBecomeCandidate(s, c))
  {
    hide ReignsOk, AcksOk, Complete, MessagesOk, PairsOk, NodesOk, VotesOk;
    var s2 := DoBecomeCandidate(s, c);
    assert TermStep(s, s2, c);
    BecomeCandidateVotes(s, c);
    TermStepKeeps(s, s2, c);
  }

  lemma BecomeCandidateVotes(s: State, c: Id)
    requires VotesOk(s) && AcksOk(s) && CanBecomeCandidate(s, c)
    ensures VotesOk(DoBecomeCandidate(s, c))
  {
    hide AcksOk, Extends, BallotOk, OneBallot, VoteOk, OneVote, Vouches;
    var s2, v := DoBecomeCandidate(s, c), Candidacy(s.nodes[c], c);
    TermStepExtends(s, s2, c);
    NewBallot(s, c);
    forall w, u, k | w in s2.votes && u in s2.reigns
      ensures Vouches(s2, w, u, k)
    {
      if w in s.votes {
        VouchesKept(s, s2, w, u, k);
      } else {
        HolderVouches(s, s2, w, u, k);
      }
    }
  }

  lemma NewBallot(s: State, c: Id)
    requires VotesOk(s) && CanBecomeCandidate(s, c)
    ensures var s2 := DoBecomeCandidate(s, c);
            && (forall v {:trigger BallotOk(s2, v)} :: v in s2.voteRequests ==> BallotOk(s2, v))
            && (forall v, w {:trigger OneBallot(v, w)} :: v in s2.voteRequests && w in s2.voteRequests ==> OneBallot(v, w))
            && (forall w {:trigger VoteOk(s2, w)} :: w in s2.votes ==> VoteOk(s2, w))
            && (forall v, w {:trigger OneVote(v, w)} :: v in s2.votes && w in s2.votes ==> OneVote(v, w))
  {
    var s2, v := DoBecomeCandidate(s, c), Candidacy(s.nodes[c], c);
    forall x | x in s2.voteRequests
      ensures BallotOk(s2, x)
    {
      assert x != v ==> BallotOk(s, x);
    }
    forall x, y | x in s2.voteRequests && y in s2.voteRequests
      ensures OneBallot(x, y)
    {
      assert x != v ==> BallotOk(s, x);
      assert y != v ==> BallotOk(s, y);
      assert x != v && y != v ==> OneBallot(x, y);
    }
    forall w | w in s2.votes
      ensures VoteOk(s2, w)
    {
      assert w != Vote(v, c) ==> VoteOk(s, w);
    }
    forall x, y | x in s2.votes && y in s2.votes
      ensures OneVote(x, y)
    {
      assert x != Vote(v, c) ==> VoteOk(s, x);
      assert y != Vote(v, c) ==> VoteOk(s, y);
      assert x != Vote(v, c) && y != Vote(v, c) ==> OneVote(x, y);
    }
  }

  lemma GrantVoteKeeps(s: State, p: Id, v: VoteRequest)
    requires Inv(s) && CanGrantVote(s, p, v)
    ensures Inv(DoGrantVote(s, p, v))
  {
    hide AcksOk, Complete, VotesOk, Extends, PairOk, NodeOk;
    hide AppendOk, ReplyOk, SnapshotOk, SnapshotPairOk, InstalledOk;
    var s2 := DoGrantVote(s, p, v);
    ExtendsByNode(s, s2, p);
    ReignsKept(s, s2);
    AcksKept(s, s2);
    CompleteKept(s, s2);
    GrantVoteVotes(s, p, v);
    GrantVoteNodes(s, p, v);
    MessagesQuiet(s, s2);
    GrantVotePairs(s, p, v);
  }

  lemma GrantVoteNodes(s: State, p: Id, v: VoteRequest)
    requires NodesOk(s) && CanGrantVote(s, p, v)
    ensures NodesOk(DoGrantVote(s, p, v))
  {
    hide Extends;
    var s2 := DoGrantVote(s, p, v);
    ExtendsByNode(s, s2, p);
    LeadersInReigns(s);
    assert NodeOk(s, p, s.nodes[p]);
    NodeKept(s, s2, p, s.nodes[p]);
    forall k | s2.nodes[p].snap < k <= |s2.nodes[p].log|
      ensures StoredOk(s2, s2.nodes[p], k)
    {
      assert StoredOk(s2, s.nodes[p], k);
    }
    NodesKept(s, s2, p);
  }

  lemma GrantVoteVotes(s: State, p: Id, v: VoteRequest)
    requires VotesOk(s) && AcksOk(s) && CanGrantVote(s, p, v)
    ensures VotesOk(DoGrantVote(s, p, v))
  {
    hide AcksOk, Extends;
    var s2 := DoGrantVote(s, p, v);
    ExtendsByNode(s, s2, p);
    forall x | x in s2.voteRequests
      ensures BallotOk(s2, x)
    {
      assert BallotOk(s, x);
    }
    forall w | w in s2.votes
      ensures VoteOk(s2, w)
    {
      assert BallotOk(s, v);
      assert w != Vote(v, p) ==> VoteOk(s, w);
    }
    forall x, y | x in s2.votes && y in s2.votes
      ensures OneVote(x, y)
    {
      assert VoteOk(s2, x) && VoteOk(s2, y);
      assert x in s.votes && y in s.votes ==> OneVote(x, y);
    }
    forall w, u, k | w in s2.votes && u in s2.reigns
      ensures Vouches(s2, w, u, k)
    {
      if w in s.votes {
        VouchesKept(s, s2, w, u, k);
      } else {
        HolderVouches(s, s2, w, u, k);
      }
    }
  }

  lemma GrantVotePairs(s: State, p: Id, v: VoteRequest)
    requires NodesOk(s) && PairsOk(s) && CanGrantVote(s, p, v)
    ensures PairsOk(DoGrantVote(s, p, v))
  {
    hide NodeOk, PairOk, Extends;
    var s2 := DoGrantVote(s, p, v);
    ExtendsByNode(s, s2, p);
    PairsOfOthers(s, s2, p);
    forall q | IsLeader(s2, p) && IsPeer(s2, p, q)
      ensures PairOk(s2, p, q)
    {
      SameViewPair(s, s2, p, q);
    }
  }
}
