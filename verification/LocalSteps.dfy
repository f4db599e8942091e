/** Steps that change one node's own bookkeeping: no message is sent, no log or term changes. */
module LocalSteps {
  import opened Logs
  import opened Cluster
  import opened Invariants
  import opened Consequences
  import opened Frames

  lemma UpdateIsQuiet(s: State, x: Id, n: Node)
    requires x in s.nodes && QuietNode(s.nodes[x], n) && n.vote == s.nodes[x].vote
    requires n.role == s.nodes[x].role || n.role == Follower
    ensures SameCore(s, Update(s, x, n)) && Quiet(s, Update(s, x, n))
  {
    hide SameCore, Quiet;
    QuietByNode(s, Update(s, x, n), x);
  }

  /** The node still satisfies its own invariant after forgetting or moving positions. */
  lemma NodeStays(s: State, s2: State, x: Id, n: Node)
    requires x in s.nodes && NodeOk(s, x, s.nodes[x]) && Extends(s, s2)
    requires n.term == s.nodes[x].term && n.log == s.nodes[x].log && n.vote == s.nodes[x].vote
    requires n.role == Follower || (n.role == s.nodes[x].role && s2.reigns == s.reigns)
    requires s.nodes[x].snap <= n.snap <= n.applied <= n.commit <= |n.log| && n.disk == n.applied
    requires n.kv == Replay(n.log[..n.applied]) && n.image == Replay(n.log[..n.snap])
    requires IsCommitted(s2, n.log[..n.commit], n.term)
    ensures NodeOk(s2, x, n)
  {
    assert AckGrows(s, s2, x, n.term);
    var m := s.nodes[x];
    forall k | n.snap < k <= |n.log|
      ensures StoredOk(s2, n, k)
    {
      StoredAbove(s, s2, m, n, k);
    }
  }

  lemma StoredAbove(s: State, s2: State, m: Node, n: Node, k: nat)
    requires m.snap <= n.snap < k <= |n.log| && n.log == m.log && n.term == m.term
    requires StoredOk(s, m, k) && Extends(s, s2)
    ensures StoredOk(s2, n, k)
  {
    var u := TermAt(n.log, k);
    assert n.log[n.snap..k] == m.log[m.snap..k][n.snap - m.snap..];
    assert s.reigns[u].log[n.snap..k] == s.reigns[u].log[m.snap..k][n.snap - m.snap..];
    assert s2.reigns[u].log[n.snap..k] == s.reigns[u].log[n.snap..k];
  }

  lemma StepDownKeeps(s: State, p: Id)
    requires Inv(s) && CanStepDown(s, p)
    ensures Inv(DoStepDown(s, p))
  {
    hide ReignOk, VotesOk, AcksOk, Complete, MessagesOk, NodeOk, PairOk;
    var s2 := DoStepDown(s, p);
    UpdateIsQuiet(s, p, s2.nodes[p]);
    assert NodeOk(s, p, s.nodes[p]);
    ReplacedNode(s, s2, p, s2.nodes[p]);
    QuietStep(s, s2, p);
  }

  /** Stepping down and forgetting calls leave the durable part of a node alone. */
  lemma ReplacedNode(s: State, s2: State, p: Id, n: Node)
    requires p in s.nodes && NodeOk(s, p, s.nodes[p]) && Extends(s, s2) && s2.reigns == s.reigns
    requires n == s.nodes[p].(role := n.role, out := n.out) && (n.role == s.nodes[p].role || n.role == Follower)
    ensures NodeOk(s2, p, n)
  {
    hide IsCommitted;
    CommittedStays(s, s2, n.log[..n.commit], n.term, n.term);
    NodeStays(s, s2, p, n);
  }

  lemma RestartKeeps(s: State, p: Id)
    requires Inv(s) && p in s.nodes
    ensures Inv(DoRestart(s, p))
  {
    var s2 := DoRestart(s, p);
    assert NodeOk(s, p, s.nodes[p]);
    UpdateIsQuiet(s, p, s2.nodes[p]);
    RestartedNode(s, s2, p);
    QuietStep(s, s2, p);
  }

  lemma RestartedNode(s: State, s2: State, p: Id)
    requires p in s.nodes && NodeOk(s, p, s.nodes[p]) && Extends(s, s2)
    ensures NodeOk(s2, p, Restarted(s.nodes[p]))
  {
    hide IsCommitted;
    var n := s.nodes[p];
    CommittedStays(s, s2, n.log[..n.commit], n.term, n.term);
    CommittedPrefix(s2, n.log[..n.commit], n.term, n.applied);
    assert n.log[..n.commit][..n.applied] == n.log[..n.applied];
    NodeStays(s, s2, p, Restarted(n));
  }

  lemma ApplyNextKeeps(s: State, p: Id)
    requires Inv(s) && CanApply(s, p)
    ensures Inv(DoApply(s, p))
  {
    hide ReignOk, VotesOk, AcksOk, Complete, MessagesOk, NodeOk, PairOk;
    var s2 := DoApply(s, p);
    assert NodeOk(s, p, s.nodes[p]);
    UpdateIsQuiet(s, p, s2.nodes[p]);
    AppliedNode(s, s2, p);
    forall q | IsLeader(s2, p) && IsPeer(s2, p, q)
      ensures PairOk(s2, p, q)
    {
      SameViewPair(s, s2, p, q);
    }
    QuietStep(s, s2, p);
  }

  lemma AppliedNode(s: State, s2: State, p: Id)
    requires p in s.nodes && NodeOk(s, p, s.nodes[p]) && CanApply(s, p)
    requires Extends(s, s2) && s2.reigns == s.reigns
    ensures NodeOk(s2, p, DoApply(s, p).nodes[p])
  {
    hide IsCommitted, Replay;
    var n := s.nodes[p];
    CommittedStays(s, s2, n.log[..n.commit], n.term, n.term);
    ReplayNext(n.log, n.applied);
    NodeStays(s, s2, p, DoApply(s, p).nodes[p]);
  }

  /** The skip-compacted branch is never taken. */
  lemma SkipCompactedNever(s: State, p: Id)
    requires Inv(s)
    ensures !CanSkip(s, p)
  {
    if p in s.nodes {
      assert NodeOk(s, p, s.nodes[p]);
    }
  }

  /** A leader whose own view of its peers is unchanged keeps its pairs. */
  lemma SameViewPair(s: State, s2: State, l: Id, p: Id)
    requires PairsOk(s) && IsLeader(s, l) && IsPeer(s, l, p)
    requires Extends(s, s2) && s2.reigns == s.reigns && s2.acks == s.acks && s2.nodes[p] == s.nodes[p]
    requires Silent(s, s2, p, s.nodes[l].term)
    requires var n, n2 := s.nodes[l], s2.nodes[l];
             n2.term == n.term && n2.next == n.next && n2.matched == n.matched && n2.out == n.out
             && n2.snap == n.snap && n2.commit == n.commit
    ensures PairOk(s2, l, p)
  {
    assert PairOk(s, l, p);
    ProgressView(s, s2, l, p);
    SentView(s, s2, l, p);
    WaitingView(s, s2, l, p);
  }

  lemma ProgressView(s: State, s2: State, l: Id, p: Id)
    requires l in s.nodes && p in s.nodes && s.nodes[l].term in s.reigns && ProgressOk(s, l, p)
    requires Extends(s, s2) && s2.reigns == s.reigns && s2.acks == s.acks && s2.nodes[p] == s.nodes[p]
    requires var n, n2 := s.nodes[l], s2.nodes[l];
             n2.term == n.term && NextIndex(n2, p) == NextIndex(n, p) && Matched(n2, p) == Matched(n, p)
             && n.snap <= n2.snap && n.commit <= n2.commit
    ensures ProgressOk(s2, l, p)
  {
    hide Bounded, Agree;
    var n, n2 := s.nodes[l], s2.nodes[l];
    var next := NextIndex(n, p);
    BoundedSame(s, s2, p, n.term, Max(next - 1, n.snap));
    BoundedWeaken(s2, p, n.term, Max(next - 1, n.snap), Max(next - 1, n2.snap));
  }

  lemma BoundedSame(s: State, s2: State, p: Id, t: nat, x: nat)
    requires p in s.nodes && p in s2.nodes && s2.nodes[p] == s.nodes[p] && t in s.reigns && s2.reigns == s.reigns
    requires Bounded(s, p, t, x)
    ensures Bounded(s2, p, t, x)
  {}

  /** What a leader sent stays fine while its commit index grows, nothing is sent, and the
      position it would send from is unchanged. */
  lemma SentView(s: State, s2: State, l: Id, p: Id)
    requires l in s.nodes && p in s.nodes && s.nodes[l].term in s.reigns && SentOk(s, l, p)
    requires Extends(s, s2) && s2.reigns == s.reigns && s2.acks == s.acks && s2.nodes[p] == s.nodes[p]
    requires Silent(s, s2, p, s.nodes[l].term)
    requires var n, n2 := s.nodes[l], s2.nodes[l];
             n2.term == n.term && NextIndex(n2, p) == NextIndex(n, p) && Matched(n2, p) == Matched(n, p)
             && n.snap == n2.snap && n.commit <= n2.commit
    ensures SentOk(s2, l, p)
  {
    var n, n2, t := s.nodes[l], s2.nodes[l], s.nodes[l].term;
    assert CommitsUpTo(s2, p, t, n2.commit);
    forall a | a in s2.appends && a.to == p && a.term == t
      ensures PassedOk(s2, l, p, a)
    {
      assert PassedOk(s, l, p, a);
    }
    forall y | y in s2.replies && y.request.to == p && y.request.term == t && y.success
      ensures ConfirmedOk(s2, l, p, y)
    {
      assert ConfirmedOk(s, l, p, y);
    }
    forall r | r in s2.snapshots && r.to == p && r.term == t
      ensures ShippedOk(s2, l, p, r)
    {
      assert ShippedOk(s, l, p, r);
      if CommitsUpTo(s, p, t, n.snap) {
        assert CommitsUpTo(s2, p, t, n2.snap);
      }
    }
    if NextIndex(n2, p) <= n2.snap && s2.nodes[p].term <= t && s2.nodes[p].snap < n2.snap {
      CappedSame(s, s2, p, t, n.snap);
    }
  }

  lemma CappedSame(s: State, s2: State, p: Id, t: nat, x: nat)
    requires p in s.nodes && t in s.reigns && Capped(s, p, t, x)
    requires Extends(s, s2) && s2.reigns == s.reigns && NoAppend(s, s2, p, t) && s2.nodes[p] == s.nodes[p]
    ensures Capped(s2, p, t, x)
  {
    if CommitsUpTo(s, p, t, x) {
      assert CommitsUpTo(s2, p, t, x);
    } else {
      assert Stuck(s2, p, t);
    }
  }

  lemma WaitingView(s: State, s2: State, l: Id, p: Id)
    requires l in s.nodes && p in s.nodes && s.nodes[l].term in s.reigns && WaitingOk(s, l, p)
    requires Extends(s, s2) && s2.reigns == s.reigns && s2.nodes[p] == s.nodes[p]
    requires Silent(s, s2, p, s.nodes[l].term)
    requires var n, n2 := s.nodes[l], s2.nodes[l];
             n2.term == n.term && NextIndex(n2, p) == NextIndex(n, p) && n.snap <= n2.snap
             && (p in n2.out ==> p in n.out && n2.out[p] == n.out[p])
    ensures WaitingOk(s2, l, p)
  {
    var n, n2, t := s.nodes[l], s2.nodes[l], s.nodes[l].term;
    if p in n2.out && n2.out[p].AppendRpc? {
      forall y | y in s2.replies && y.request == n2.out[p].append && !y.success
        ensures RejectionOk(s2, l, p, y)
      {
        assert RejectionOk(s, l, p, y);
        if Stuck(s, p, t) {
          assert Stuck(s2, p, t);
        }
      }
    }
  }

  lemma GiveUpKeeps(s: State, l: Id, p: Id)
    requires Inv(s) && l in s.nodes
    ensures Inv(DoGiveUp(s, l, p))
  {
    hide ReignOk, VotesOk, AcksOk, Complete, MessagesOk, NodeOk, PairOk;
    var s2 := DoGiveUp(s, l, p);
    var n := s.nodes[l];
    assert NodeOk(s, l, n);
    UpdateIsQuiet(s, l, s2.nodes[l]);
    ReplacedNode(s, s2, l, s2.nodes[l]);
    forall q | IsLeader(s2, l) && IsPeer(s2, l, q)
      ensures PairOk(s2, l, q)
    {
      OtherPeer(s, s2, l, q);
    }
    QuietStep(s, s2, l);
  }

  /** A leader that only touched another peer's row, or dropped a call, keeps this pair. */
  lemma OtherPeer(s: State, s2: State, l: Id, p: Id)
    requires PairsOk(s) && IsLeader(s, l) && IsPeer(s, l, p)
    requires Extends(s, s2) && s2.reigns == s.reigns && s2.acks == s.acks && s2.nodes[p] == s.nodes[p]
    requires Silent(s, s2, p, s.nodes[l].term)
    requires var n, n2 := s.nodes[l], s2.nodes[l];
             n2.term == n.term && NextIndex(n2, p) == NextIndex(n, p) && Matched(n2, p) == Matched(n, p)
             && (p in n2.out ==> p in n.out && n2.out[p] == n.out[p])
             && n2.snap == n.snap && n.commit <= n2.commit
    ensures PairOk(s2, l, p)
  {
    assert PairOk(s, l, p);
    ProgressView(s, s2, l, p);
    SentView(s, s2, l, p);
    WaitingView(s, s2, l, p);
  }

  // ---------------------------------------------------------------- compaction

  lemma CompactKeeps(s: State, x: Id)
    requires Inv(s) && CanCompact(s, x)
    ensures Inv(DoCompact(s, x))
  {
    hide ReignOk, VotesOk, AcksOk, Complete, MessagesOk, NodeOk, PairOk;
    var s2 := DoCompact(s, x);
    assert NodeOk(s, x, s.nodes[x]);
    UpdateIsQuiet(s, x, s2.nodes[x]);
    CompactedNode(s, s2, x);
    forall p | IsLeader(s2, x) && IsPeer(s2, x, p)
      ensures PairOk(s2, x, p)
    {
      CompactPair(s, s2, x, p);
    }
    QuietStep(s, s2, x);
  }

  lemma CompactPair(s: State, s2: State, l: Id, p: Id)
    requires PairsOk(s) && IsLeader(s, l) && IsPeer(s, l, p)
    requires CanCompact(s, l) && s2 == DoCompact(s, l) && Extends(s, s2)
    ensures PairOk(s2, l, p)
  {
    assert PairOk(s, l, p);
    ProgressView(s, s2, l, p);
    CompactSent(s, s2, l, p);
    WaitingView(s, s2, l, p);
  }

  lemma CompactedNode(s: State, s2: State, x: Id)
    requires x in s.nodes && NodeOk(s, x, s.nodes[x]) && CanCompact(s, x)
    requires Extends(s, s2) && s2.reigns == s.reigns
    ensures NodeOk(s2, x, DoCompact(s, x).nodes[x])
  {
    var n := s.nodes[x];
    CommittedStays(s, s2, n.log[..n.commit], n.term, n.term);
    NodeStays(s, s2, x, DoCompact(s, x).nodes[x]);
  }

  lemma CompactSent(s: State, s2: State, l: Id, p: Id)
    requires l in s.nodes && p in s.nodes && p != l && s.nodes[l].term in s.reigns
    requires SentOk(s, l, p) && ProgressOk(s, l, p)
    requires CanCompact(s, l) && s2 == DoCompact(s, l)
    ensures SentOk(s2, l, p)
  {
    var n, n2, t := s.nodes[l], s2.nodes[l], s.nodes[l].term;
    assert CommitsUpTo(s2, p, t, n2.commit);
    forall a | a in s2.appends && a.to == p && a.term == t
      ensures PassedOk(s2, l, p, a)
    {
      assert PassedOk(s, l, p, a);
    }
    forall y | y in s2.replies && y.request.to == p && y.request.term == t && y.success
      ensures ConfirmedOk(s2, l, p, y)
    {
      assert ConfirmedOk(s, l, p, y);
    }
    forall r | r in s2.snapshots && r.to == p && r.term == t
      ensures ShippedOk(s2, l, p, r)
    {
      assert ShippedOk(s, l, p, r);
    }
  }

  // ---------------------------------------------------------------- the leader's commit index

  /** The replicas a leader counts for an entry of its own term did acknowledge it. */
  lemma CountedIsChosen(s: State, l: Id, k: nat)
    requires Inv(s) && CanAdvanceCommit(s, l, k)
    ensures s.nodes[l].term in s.reigns && Chosen(s, s.nodes[l].term, k)
  {
    var n, t := s.nodes[l], s.nodes[l].term;
    assert NodeOk(s, l, n);
    assert ReignOk(s, t) && EntryOk(s, t, k);
    var q := Replicas(s.Ids(), l, n, k);
    assert AckedBy(s, q, t, k) by {
      forall p | p in q
        ensures Ack(s, p, t) >= k
      {
        if p == l {
          LeaderAcks(s, l);
        } else {
          assert PairOk(s, l, p);
          assert AckedUpTo(s, p, t, Matched(n, p), n.commit);
        }
      }
    }
  }

  lemma LeaderAcks(s: State, l: Id)
    requires Inv(s) && IsLeader(s, l) && s.nodes[l].term in s.reigns
    requires |s.nodes[l].log| > s.reigns[s.nodes[l].term].base
    ensures Ack(s, l, s.nodes[l].term) >= |s.nodes[l].log|
  {
    assert NodeOk(s, l, s.nodes[l]);
  }

  lemma AdvancedNode(s: State, s2: State, l: Id, k: nat)
    requires l in s.nodes && NodeOk(s, l, s.nodes[l]) && CanAdvanceCommit(s, l, k)
    requires Chosen(s, s.nodes[l].term, k) && Extends(s, s2) && s2.reigns == s.reigns
    ensures NodeOk(s2, l, DoAdvanceCommit(s, l, k).nodes[l])
  {
    var n, t := s.nodes[l], s.nodes[l].term;
    assert Commits(s, n.log[..k], t, t, k);
    CommittedStays(s, s2, n.log[..k], t, t);
    NodeStays(s, s2, l, DoAdvanceCommit(s, l, k).nodes[l]);
  }

  lemma AdvanceCommitKeeps(s: State, l: Id, k: nat)
    requires Inv(s) && CanAdvanceCommit(s, l, k)
    ensures Inv(DoAdvanceCommit(s, l, k))
  {
    hide ReignOk, VotesOk, AcksOk, Complete, MessagesOk, NodeOk, PairOk;
    var s2 := DoAdvanceCommit(s, l, k);
    assert NodeOk(s, l, s.nodes[l]);
    CountedIsChosen(s, l, k);
    UpdateIsQuiet(s, l, s2.nodes[l]);
    AdvancedNode(s, s2, l, k);
    forall p | IsLeader(s2, l) && IsPeer(s2, l, p)
      ensures PairOk(s2, l, p)
    {
      OtherPeer(s, s2, l, p);
    }
    QuietStep(s, s2, l);
  }
}
