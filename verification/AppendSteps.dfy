/** A follower stores a batch and follows the leader's commit index. */
module AppendSteps {
  import opened Logs
  import opened Cluster
  import opened Invariants
  import opened Consequences
  import opened Frames
  import opened FollowerFrame

  // ---------------------------------------------------------------- merging towards a leader's log

  /** Above `from`, equal terms mean equal logs. */
  ghost predicate TermsDecide(log: seq<Entry>, leader: seq<Entry>, from: nat) {
    forall i: nat {:trigger TermAt(log, i)} ::
      from < i <= |log| && i <= |leader| && TermAt(log, i) == TermAt(leader, i) ==> Agree(log, leader, i)
  }

  /** Storing a batch of the leader's log: nothing happens if all of it is there already,
      otherwise the log becomes the leader's log through the end of the batch. */
  lemma {:induction false} MergeLeader(log: seq<Entry>, leader: seq<Entry>, prev: nat, batch: seq<Entry>)
    requires prev + |batch| <= |leader| && batch == leader[prev..prev + |batch|]
    requires Agree(log, leader, prev) && TermsDecide(log, leader, prev)
    ensures Merge(log, prev, batch) ==
            if Agree(log, leader, prev + |batch|) then log else leader[..prev + |batch|]
    decreases |batch|
  {
    if batch != [] {
      if prev < |log| && log[prev].term == batch[0].term {
        assert TermAt(log, prev + 1) == TermAt(leader, prev + 1);
        assert batch[1..] == leader[prev + 1..prev + 1 + |batch[1..]|];
        MergeLeader(log, leader, prev + 1, batch[1..]);
      } else {
        if Agree(log, leader, prev + |batch|) {
          AgreeTerm(log, leader, prev + |batch|, prev + 1);
          assert false;
        }
        assert leader[..prev] + leader[prev..prev + |batch|] == leader[..prev + |batch|];
      }
    }
  }

  /** Dropping the conflicting suffix leaves a prefix of the leader's log that reaches as far as
      the two logs agree. */
  lemma {:induction false} CutLeader(log: seq<Entry>, leader: seq<Entry>, prev: nat, batch: seq<Entry>)
    requires prev + |batch| <= |leader| && batch == leader[prev..prev + |batch|]
    requires Agree(log, leader, prev) && TermsDecide(log, leader, prev)
    ensures var c := Cut(log, prev, batch);
            c == log || (c <= leader && !Agree(log, leader, |c| + 1))
    decreases |batch|
  {
    if batch != [] {
      if prev < |log| && log[prev].term == batch[0].term {
        assert TermAt(log, prev + 1) == TermAt(leader, prev + 1);
        assert batch[1..] == leader[prev + 1..prev + 1 + |batch[1..]|];
        CutLeader(log, leader, prev + 1, batch[1..]);
      } else {
        assert |log[..prev]| == prev;
        if Agree(log, leader, prev + 1) {
          AgreeTerm(log, leader, prev + 1, prev + 1);
          assert false;
        }
      }
    }
  }

  lemma ImprovesToPrefix(log: seq<Entry>, leader: seq<Entry>, k: nat, snap: nat)
    requires k <= |leader| && !Agree(log, leader, k + 1)
    ensures Improves(log, leader[..k], leader, snap)
  {
    var log2 := leader[..k];
    forall x: nat | Agree(log, leader, x)
      ensures Agree(log2, leader, x)
    {
      if x > k {
        AgreeLower(log, leader, x, k + 1);
      }
    }
    forall j: nat | 1 <= j <= |log2|
      ensures Agree(log2, leader, j)
    {
      PrefixAgree(log2, leader, j);
    }
  }

  // ---------------------------------------------------------------- accepted requests

  lemma TermsDecideNode(s: State, p: Id)
    requires ReignsOk(s) && Complete(s) && p in s.nodes && NodeOk(s, p, s.nodes[p])
    requires s.nodes[p].term in s.reigns
    ensures TermsDecide(s.nodes[p].log, s.reigns[s.nodes[p].term].log, s.nodes[p].snap)
  {
    var n, leader := s.nodes[p], s.reigns[s.nodes[p].term].log;
    CommitAgrees(s, p);
    AgreeLower(n.log, leader, n.commit, n.snap);
    forall i: nat | n.snap < i <= |n.log| && i <= |leader| && TermAt(n.log, i) == TermAt(leader, i)
      ensures Agree(n.log, leader, i)
    {
      assert StoredOk(s, n, i);
      MatchAgrees(s, n, n.term, i);
    }
  }

  /** The consistency check is enough: a matching position means matching logs below it. */
  lemma AcceptAgrees(s: State, p: Id, r: AppendRequest)
    requires ReignsOk(s) && Complete(s) && NodesOk(s) && AppendOk(s, r) && CanAccept(s, p, r)
    ensures Agree(s.nodes[p].log, s.reigns[r.term].log, r.prev)
    ensures TermsDecide(s.nodes[p].log, s.reigns[r.term].log, r.prev)
  {
    var n := s.nodes[p];
    assert NodeOk(s, p, n);
    CommitAgrees(s, p);
    AgreeLower(n.log, s.reigns[r.term].log, n.commit, n.snap);
    assert n.snap < r.prev ==> StoredOk(s, n, r.prev);
    MatchAgrees(s, n, n.term, r.prev);
    TermsDecideNode(s, p);
  }

  lemma AcceptedLog(s: State, p: Id, r: AppendRequest)
    requires ReignsOk(s) && Complete(s) && NodesOk(s) && AppendOk(s, r) && CanAccept(s, p, r)
    ensures var n, leader := s.nodes[p], s.reigns[r.term].log;
            Accepted(n, r).log == (if Agree(n.log, leader, r.End()) then n.log else leader[..r.End()])
    ensures Agree(Accepted(s.nodes[p], r).log, s.reigns[r.term].log, r.End())
    ensures Improves(s.nodes[p].log, Accepted(s.nodes[p], r).log, s.reigns[r.term].log, s.nodes[p].snap)
  {
    hide ReignsOk, Complete, NodesOk;
    var n, leader := s.nodes[p], s.reigns[r.term].log;
    AcceptAgrees(s, p, r);
    MergeLeader(n.log, leader, r.prev, r.entries);
    if !Agree(n.log, leader, r.End()) {
      DisagreeAbove(n.log, leader, r.End(), r.End() + 1);
      ImprovesToPrefix(n.log, leader, r.End(), n.snap);
    }
  }

  /** Commit cap soundness: capping the leader's commit index by the follower's own last index
      never reaches past the part of the log that agrees with that leader. */
  lemma CommitCapSound(s: State, p: Id, r: AppendRequest)
    requires ReignsOk(s) && Complete(s) && NodesOk(s) && AppendOk(s, r) && CanAccept(s, p, r)
    ensures Agree(Accepted(s.nodes[p], r).log, s.reigns[r.term].log, Accepted(s.nodes[p], r).commit)
    ensures s.nodes[p].commit <= Accepted(s.nodes[p], r).commit <= Max(s.nodes[p].commit, r.commit)
  {
    hide ReignsOk, Complete;
    var n, n2, leader := s.nodes[p], Accepted(s.nodes[p], r), s.reigns[r.term].log;
    assert NodeOk(s, p, n);
    CommitAgrees(s, p);
    AcceptAgrees(s, p, r);
    AcceptedLog(s, p, r);
    assert Agree(n2.log, leader, n.commit);
    if r.commit > n.commit {
      if n2.log <= leader {
        PrefixAgree(n2.log, leader, n2.commit);
      } else if r.entries != [] {
        AgreeLower(n.log, leader, r.End(), r.prev + 1);
      } else {
        AgreeLower(n.log, leader, r.prev, n2.commit);
      }
    }
  }

  lemma AcceptedNode(s: State, s2: State, p: Id, r: AppendRequest)
    requires ReignsOk(s) && Complete(s) && NodesOk(s) && AppendOk(s, r) && CanAccept(s, p, r)
    requires Extends(s, s2) && s2.reigns == s.reigns
    ensures NodeOk(s2, p, Accepted(s.nodes[p], r))
  {
    hide Extends, ReignsOk, Complete;
    var n, n2, leader := s.nodes[p], Accepted(s.nodes[p], r), s.reigns[r.term].log;
    assert NodeOk(s, p, n);
    CommitAgrees(s, p);
    AcceptedLog(s, p, r);
    CommitCapSound(s, p, r);
    AcceptedCommit(s, s2, p, r);
    assert Agree(n2.log, leader, n.commit);
    assert n2.log[..n.applied] == n2.log[..n.commit][..n.applied];
    assert n.log[..n.applied] == n.log[..n.commit][..n.applied];
    assert n2.log[..n.snap] == n2.log[..n.commit][..n.snap];
    assert n.log[..n.snap] == n.log[..n.commit][..n.snap];
    forall k | n2.snap < k <= |n2.log|
      ensures StoredOk(s2, n2, k)
    {
      AcceptedStored(s, s2, p, r, k);
    }
  }

  lemma AcceptedCommit(s: State, s2: State, p: Id, r: AppendRequest)
    requires ReignsOk(s) && Complete(s) && NodesOk(s) && AppendOk(s, r) && CanAccept(s, p, r)
    requires Extends(s, s2)
    ensures var n2 := Accepted(s.nodes[p], r);
            n2.commit <= |n2.log| && IsCommitted(s2, n2.log[..n2.commit], n2.term)
  {
    hide Extends, ReignsOk, Complete;
    var n, n2, leader := s.nodes[p], Accepted(s.nodes[p], r), s.reigns[r.term].log;
    assert NodeOk(s, p, n);
    CommitAgrees(s, p);
    CommitCapSound(s, p, r);
    if r.commit > n.commit {
      CommittedPrefix(s, leader[..r.commit], r.term, n2.commit);
      assert leader[..r.commit][..n2.commit] == n2.log[..n2.commit];
    } else {
      assert n2.log[..n2.commit] == n.log[..n.commit];
    }
    CommittedStays(s, s2, n2.log[..n2.commit], n2.term, n2.term);
  }

  lemma AcceptedStored(s: State, s2: State, p: Id, r: AppendRequest, k: nat)
    requires ReignsOk(s) && Complete(s) && NodesOk(s) && AppendOk(s, r) && CanAccept(s, p, r)
    requires s2.reigns == s.reigns
    requires s.nodes[p].snap < k <= |Accepted(s.nodes[p], r).log|
    ensures StoredOk(s2, Accepted(s.nodes[p], r), k)
  {
    hide Complete;
    var n, leader := s.nodes[p], s.reigns[r.term].log;
    assert NodeOk(s, p, n);
    AcceptedLog(s, p, r);
    if Agree(n.log, leader, r.End()) {
      assert StoredOk(s, n, k);
    } else {
      LeaderStored(s, s2, Accepted(n, r), k);
    }
  }

  /** A stretch taken from the leader of the term is stored properly. */
  lemma LeaderStored(s: State, s2: State, n: Node, k: nat)
    requires ReignsOk(s) && s2.reigns == s.reigns && n.term in s.reigns
    requires n.log <= s.reigns[n.term].log && n.snap < k <= |n.log|
    ensures StoredOk(s2, n, k)
  {
    var leader := s.reigns[n.term].log;
    assert ReignOk(s, n.term) && EntryOk(s, n.term, k);
    AgreeStretch(leader, s.reigns[TermAt(leader, k)].log, n.snap, k);
  }

  // ---------------------------------------------------------------- the step

  lemma AcceptStep(s: State, p: Id, r: AppendRequest)
    requires ReignsOk(s) && Complete(s) && NodesOk(s) && AppendOk(s, r) && CanAccept(s, p, r)
    ensures FollowerStep(s, DoAccept(s, p, r), p) && AnswersOwn(s, DoAccept(s, p, r), p)
  {
    hide ReignsOk, Complete, NodesOk, Improves;
    var s2, n := DoAccept(s, p, r), s.nodes[p];
    AcceptedLog(s, p, r);
    AcceptAcks(s, p, r);
  }

  lemma AcceptAcks(s: State, p: Id, r: AppendRequest)
    requires CanAccept(s, p, r) && r.term in s.reigns
    requires Agree(Accepted(s.nodes[p], r).log, s.reigns[r.term].log, r.End())
    ensures AcksOwn(s, DoAccept(s, p, r), p)
  {}

  lemma AcceptKeeps(s: State, p: Id, r: AppendRequest)
    requires Inv(s) && CanAccept(s, p, r)
    ensures Inv(DoAccept(s, p, r))
  {
    hide ReignsOk, VotesOk, AcksOk, Complete, Extends, PairsOk, NodeOk, FollowerStep, AnswersOwn;
    hide AppendOk, ReplyOk, SnapshotOk, SnapshotPairOk, InstalledOk;
    var s2 := DoAccept(s, p, r);
    assert AppendOk(s, r);
    AcceptStep(s, p, r);
    FollowerExtends(s, s2, p);
    AcceptedNode(s, s2, p, r);
    FollowerCore(s, s2, p);
    LeadersInReigns(s);
    NodesKept(s, s2, p);
    AcceptCaps(s, p, r);
    FollowerMessages(s, s2, p);
    AcceptReply(s, p, r);
    AcceptPairs(s, p, r);
  }

  /** A request that can be accepted shows the follower is not stuck. */
  lemma AcceptUnstuck(s: State, p: Id, r: AppendRequest)
    requires ReignsOk(s) && Complete(s) && NodesOk(s) && AppendOk(s, r) && CanAccept(s, p, r)
    ensures !Stuck(s, p, r.term)
  {
    hide ReignsOk, Complete, NodesOk;
    AcceptAgrees(s, p, r);
  }

  lemma AcceptCapped(s: State, s2: State, p: Id, r: AppendRequest, x: nat)
    requires ReignsOk(s) && Complete(s) && NodesOk(s) && AppendOk(s, r) && CanAccept(s, p, r)
    requires Capped(s, p, r.term, x) && s2.appends == s.appends && s2.reigns == s.reigns
    requires p in s2.nodes && s2.nodes[p].term == r.term
    requires s2.nodes[p].commit <= Max(s.nodes[p].commit, r.commit)
    ensures Capped(s2, p, r.term, x)
  {
    hide ReignsOk, Complete, NodesOk;
    AcceptUnstuck(s, p, r);
    assert CommitsUpTo(s2, p, r.term, x);
  }

  lemma AcceptCaps(s: State, p: Id, r: AppendRequest)
    requires ReignsOk(s) && Complete(s) && NodesOk(s) && MessagesOk(s) && CanAccept(s, p, r)
    requires AppendOk(s, r)
    ensures CapsKept(s, DoAccept(s, p, r), p)
  {
    hide ReignsOk, Complete, NodesOk;
    var s2 := DoAccept(s, p, r);
    CommitCapSound(s, p, r);
    forall x | x in s.snapshots && x.to == p && x.term == r.term && s2.nodes[p].snap < x.Index()
      ensures Capped(s2, p, r.term, x.Index())
    {
      assert SnapshotOk(s, x);
      AcceptCapped(s, s2, p, r, x.Index());
    }
  }

  lemma AcceptReply(s: State, p: Id, r: AppendRequest)
    requires ReignsOk(s) && Complete(s) && NodesOk(s) && AppendOk(s, r) && CanAccept(s, p, r)
    ensures ReplyOk(DoAccept(s, p, r), AppendReply(r, true, r.End()))
  {
    hide ReignsOk, Complete, NodesOk, FollowerStep;
    var s2 := DoAccept(s, p, r);
    AcceptStep(s, p, r);
    AcceptedLog(s, p, r);
    BoundedFollower(s, s2, p, p, r.term, r.prev);
    BoundedWeaken(s2, p, r.term, r.prev, r.End());
  }

  lemma AcceptPairs(s: State, p: Id, r: AppendRequest)
    requires ReignsOk(s) && Complete(s) && NodesOk(s) && AppendOk(s, r) && PairsOk(s) && CanAccept(s, p, r)
    ensures PairsOk(DoAccept(s, p, r))
  {
    hide ReignsOk, Complete, NodesOk, FollowerStep, AnswersOwn, AppendOk, PairOk;
    var s2 := DoAccept(s, p, r);
    AcceptStep(s, p, r);
    forall l, q | IsLeader(s2, l) && IsPeer(s2, l, q)
      ensures PairOk(s2, l, q)
    {
      assert PairOk(s, l, q);
      if q == p && s.nodes[l].term == s.nodes[p].term {
        AcceptPair(s, p, r, l);
      } else {
        FollowerOtherPair(s, s2, p, l, q);
      }
    }
  }

  lemma AcceptPair(s: State, p: Id, r: AppendRequest, l: Id)
    requires ReignsOk(s) && Complete(s) && NodesOk(s) && AppendOk(s, r) && CanAccept(s, p, r)
    requires l != p && PairOk(s, l, p) && s.nodes[l].term == r.term
    ensures PairOk(DoAccept(s, p, r), l, p)
  {
    hide ReignsOk, Complete, NodesOk, FollowerStep, AnswersOwn, AppendOk;
    hide WaitingOk, ProgressOk, PassedOk, ShippedOk, ConfirmedOk;
    var s2, n, t := DoAccept(s, p, r), s.nodes[l], r.term;
    AcceptStep(s, p, r);
    CommitCapSound(s, p, r);
    AcceptConfirms(s, p, r, l);
    FollowerProgress(s, s2, p, l);
    if NextIndex(n, p) <= n.snap && s.nodes[p].snap < n.snap {
      AcceptCapped(s, s2, p, r, n.snap);
    }
    FollowerSent(s, s2, p, l);
    AcceptWaiting(s, p, r, l);
  }

  /** After accepting, the follower agrees with its leader through the position the leader would
      send from next, and the acknowledgement is accounted for. */
  lemma AcceptConfirms(s: State, p: Id, r: AppendRequest, l: Id)
    requires ReignsOk(s) && Complete(s) && NodesOk(s) && AppendOk(s, r) && CanAccept(s, p, r)
    requires l != p && PairOk(s, l, p) && s.nodes[l].term == r.term
    ensures Agree(DoAccept(s, p, r).nodes[p].log, s.reigns[r.term].log, NextIndex(s.nodes[l], p) - 1)
    ensures ConfirmedOk(DoAccept(s, p, r), l, p, AppendReply(r, true, r.End()))
  {
    hide ReignsOk, Complete, WaitingOk, ProgressOk, Merge, IsCommitted, NodeOk, Bounded, ConfirmedOk, Improves;
    var n, m, leader := s.nodes[l], s.nodes[p], s.reigns[r.term].log;
    var next := NextIndex(n, p);
    assert NodeOk(s, p, m);
    AcceptAgrees(s, p, r);
    AcceptedLog(s, p, r);
    assert PassedOk(s, l, p, r);
    if r.prev >= next - 1 {
      AgreeLower(m.log, leader, r.prev, next - 1);
    }
    AcceptReaches(m.log, Accepted(m, r).log, leader, r.End(), next - 1);
    AcceptIsAcked(s, p, r, l);
  }

  lemma AcceptReaches(log: seq<Entry>, log2: seq<Entry>, leader: seq<Entry>, end: nat, k: nat)
    requires Agree(log2, leader, end) && log2 == (if Agree(log, leader, end) then log else leader[..end])
    requires Agree(log, leader, k)
    ensures Agree(log2, leader, k)
  {
    if !Agree(log, leader, end) {
      if end < k {
        AgreeLower(log, leader, k, end);
      }
      AgreeLower(log2, leader, end, k);
    }
  }

  /** An accepted call is recorded, unless the follower's snapshot covers it and so it is committed. */
  lemma AcceptIsAcked(s: State, p: Id, r: AppendRequest, l: Id)
    requires p in s.nodes && NodeOk(s, p, s.nodes[p]) && CanAccept(s, p, r) && AppendOk(s, r)
    requires l != p && PairOk(s, l, p) && s.nodes[l].term == r.term
    ensures ConfirmedOk(DoAccept(s, p, r), l, p, AppendReply(r, true, r.End()))
  {
    hide SentOk, WaitingOk, IsCommitted, Merge, Bounded, StoredOk, Replay;
  }

  lemma AcceptWaiting(s: State, p: Id, r: AppendRequest, l: Id)
    requires ReignsOk(s) && Complete(s) && NodesOk(s) && AppendOk(s, r) && CanAccept(s, p, r)
    requires l != p && PairOk(s, l, p) && s.nodes[l].term == r.term
    ensures WaitingOk(DoAccept(s, p, r), l, p)
  {
    hide ReignsOk, Complete, NodesOk, AppendOk, ProgressOk, SentOk;
    var s2, n := DoAccept(s, p, r), s.nodes[l];
    AcceptUnstuck(s, p, r);
    if p in n.out && n.out[p].AppendRpc? {
      forall y | y in s2.replies && y.request == n.out[p].append && !y.success
        ensures RejectionOk(s2, l, p, y)
      {
        assert RejectionOk(s, l, p, y);
      }
    }
  }

  // ---------------------------------------------------------------- the cut on its own

  lemma CutLog(s: State, p: Id, r: AppendRequest)
    requires ReignsOk(s) && Complete(s) && NodesOk(s) && AppendOk(s, r) && CanAccept(s, p, r)
    ensures var n, leader := s.nodes[p], s.reigns[r.term].log;
            var c := Cut(n.log, r.prev, r.entries);
            c == n.log || (c <= leader && !Agree(n.log, leader, |c| + 1))
    ensures var n := s.nodes[p];
            Improves(n.log, Cut(n.log, r.prev, r.entries), s.reigns[r.term].log, n.snap)
  {
    hide ReignsOk, Complete, NodesOk;
    var n, leader := s.nodes[p], s.reigns[r.term].log;
    AcceptAgrees(s, p, r);
    CutLeader(n.log, leader, r.prev, r.entries);
    var c := Cut(n.log, r.prev, r.entries);
    if c != n.log {
      assert leader[..|c|] == c;
      ImprovesToPrefix(n.log, leader, |c|, n.snap);
    }
  }

  lemma CutStep(s: State, p: Id, r: AppendRequest)
    requires ReignsOk(s) && Complete(s) && NodesOk(s) && AppendOk(s, r) && CanAccept(s, p, r)
    ensures FollowerStep(s, DoCut(s, p, r), p) && AnswersOwn(s, DoCut(s, p, r), p)
  {
    hide ReignsOk, Complete, NodesOk, Improves;
    CutLog(s, p, r);
  }

  lemma CutNode(s: State, s2: State, p: Id, r: AppendRequest)
    requires ReignsOk(s) && Complete(s) && NodesOk(s) && AppendOk(s, r) && CanAccept(s, p, r)
    requires Extends(s, s2) && s2.reigns == s.reigns
    ensures NodeOk(s2, p, DoCut(s, p, r).nodes[p])
  {
    hide Extends, ReignsOk, Complete;
    var n, n2, leader := s.nodes[p], DoCut(s, p, r).nodes[p], s.reigns[r.term].log;
    assert NodeOk(s, p, n);
    CommitAgrees(s, p);
    CutLog(s, p, r);
    assert Agree(n2.log, leader, n.commit);
    assert n2.log[..n.commit] == n.log[..n.commit];
    CommittedStays(s, s2, n.log[..n.commit], n.term, n.term);
    assert n2.log[..n.applied] == n2.log[..n.commit][..n.applied];
    assert n.log[..n.applied] == n.log[..n.commit][..n.applied];
    assert n2.log[..n.snap] == n2.log[..n.commit][..n.snap];
    assert n.log[..n.snap] == n.log[..n.commit][..n.snap];
    forall k | n2.snap < k <= |n2.log|
      ensures StoredOk(s2, n2, k)
    {
      if n2.log == n.log {
        assert StoredOk(s, n, k);
      } else {
        LeaderStored(s, s2, n2, k);
      }
    }
  }

  lemma CutKeeps(s: State, p: Id, r: AppendRequest)
    requires Inv(s) && CanAccept(s, p, r)
    ensures Inv(DoCut(s, p, r))
  {
    hide ReignsOk, VotesOk, AcksOk, Complete, Extends, PairsOk, NodeOk, FollowerStep, AnswersOwn;
    hide AppendOk, ReplyOk, SnapshotOk, SnapshotPairOk, InstalledOk;
    var s2 := DoCut(s, p, r);
    assert AppendOk(s, r);
    CutStep(s, p, r);
    FollowerExtends(s, s2, p);
    CutNode(s, s2, p, r);
    FollowerCore(s, s2, p);
    LeadersInReigns(s);
    NodesKept(s, s2, p);
    CutCaps(s, p, r);
    FollowerMessages(s, s2, p);
    CutPairs(s, p, r);
  }

  lemma CutCaps(s: State, p: Id, r: AppendRequest)
    requires ReignsOk(s) && Complete(s) && NodesOk(s) && MessagesOk(s) && CanAccept(s, p, r)
    requires AppendOk(s, r)
    ensures CapsKept(s, DoCut(s, p, r), p)
  {
    hide ReignsOk, Complete, NodesOk;
    var s2 := DoCut(s, p, r);
    forall x | x in s.snapshots && x.to == p && x.term == r.term && s2.nodes[p].snap < x.Index()
      ensures Capped(s2, p, r.term, x.Index())
    {
      assert SnapshotOk(s, x);
      AcceptCapped(s, s2, p, r, x.Index());
    }
  }

  lemma CutPairs(s: State, p: Id, r: AppendRequest)
    requires ReignsOk(s) && Complete(s) && NodesOk(s) && AppendOk(s, r) && PairsOk(s) && CanAccept(s, p, r)
    ensures PairsOk(DoCut(s, p, r))
  {
    hide ReignsOk, Complete, NodesOk, FollowerStep, AnswersOwn, AppendOk, PairOk;
    var s2 := DoCut(s, p, r);
    CutStep(s, p, r);
    forall l, q | IsLeader(s2, l) && IsPeer(s2, l, q)
      ensures PairOk(s2, l, q)
    {
      assert PairOk(s, l, q);
      if q == p && s.nodes[l].term == s.nodes[p].term {
        CutPair(s, p, r, l);
      } else {
        FollowerOtherPair(s, s2, p, l, q);
      }
    }
  }

  lemma CutPair(s: State, p: Id, r: AppendRequest, l: Id)
    requires ReignsOk(s) && Complete(s) && NodesOk(s) && AppendOk(s, r) && CanAccept(s, p, r)
    requires l != p && PairOk(s, l, p) && s.nodes[l].term == r.term
    ensures PairOk(DoCut(s, p, r), l, p)
  {
    hide ReignsOk, Complete, NodesOk, AnswersOwn, AppendOk;
    hide WaitingOk, ProgressOk, PassedOk, ShippedOk, ConfirmedOk;
    var s2, n, t := DoCut(s, p, r), s.nodes[l], r.term;
    CutStep(s, p, r);
    CutConfirms(s, p, r, l);
    FollowerProgress(s, s2, p, l);
    if NextIndex(n, p) <= n.snap && s.nodes[p].snap < n.snap {
      AcceptCapped(s, s2, p, r, n.snap);
    }
    FollowerSent(s, s2, p, l);
    CutWaiting(s, p, r, l);
  }

  lemma CutConfirms(s: State, p: Id, r: AppendRequest, l: Id)
    requires ReignsOk(s) && Complete(s) && NodesOk(s) && AppendOk(s, r) && CanAccept(s, p, r)
    requires l != p && PairOk(s, l, p) && s.nodes[l].term == r.term
    ensures Agree(DoCut(s, p, r).nodes[p].log, s.reigns[r.term].log, NextIndex(s.nodes[l], p) - 1)
  {
    hide ReignsOk, Complete, NodesOk, WaitingOk;
    var n, m, leader := s.nodes[l], s.nodes[p], s.reigns[r.term].log;
    var next := NextIndex(n, p);
    AcceptAgrees(s, p, r);
    CutLog(s, p, r);
    assert PassedOk(s, l, p, r);
    if r.prev >= next - 1 {
      AgreeLower(m.log, leader, r.prev, next - 1);
    }
    assert Agree(DoCut(s, p, r).nodes[p].log, leader, next - 1);
  }

  lemma CutWaiting(s: State, p: Id, r: AppendRequest, l: Id)
    requires ReignsOk(s) && Complete(s) && NodesOk(s) && AppendOk(s, r) && CanAccept(s, p, r)
    requires l != p && PairOk(s, l, p) && s.nodes[l].term == r.term
    ensures WaitingOk(DoCut(s, p, r), l, p)
  {
    hide ReignsOk, Complete, NodesOk, AppendOk, ProgressOk, SentOk;
    var s2, n := DoCut(s, p, r), s.nodes[l];
    AcceptUnstuck(s, p, r);
    if p in n.out && n.out[p].AppendRpc? {
      forall y | y in s2.replies && y.request == n.out[p].append && !y.success
        ensures RejectionOk(s2, l, p, y)
      {
        assert RejectionOk(s, l, p, y);
      }
    }
  }
}
