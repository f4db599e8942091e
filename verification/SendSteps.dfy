/** Steps that put a message on the wire without changing any log: the leader sends an append or
    a snapshot, a follower rejects an append. */
module SendSteps {
  import opened Logs
  import opened Cluster
  import opened Invariants
  import opened Consequences
  import opened Frames
  import opened LocalSteps
  import opened ReplySteps

  lemma OneLeader(s: State, l: Id, l2: Id)
    requires NodesOk(s) && IsLeader(s, l) && IsLeader(s, l2) && s.nodes[l].term == s.nodes[l2].term
    ensures l == l2
  {
    assert NodeOk(s, l, s.nodes[l]) && NodeOk(s, l2, s.nodes[l2]);
  }

  /** A leader changed only the call in flight to `p`; whatever was sent went to `p` in its term. */
  ghost predicate CallStep(s: State, s2: State, l: Id, p: Id) {
    && IsLeader(s, l) && IsPeer(s, l, p) && SameCore(s, s2) && Quiet(s, s2)
    && s2.nodes[l] == s.nodes[l].(out := s2.nodes[l].out)
    && (forall q :: q != p && q in s2.nodes[l].out ==>
          q in s.nodes[l].out && s2.nodes[l].out[q] == s.nodes[l].out[q])
    && (forall q :: q in s.nodes && q != l ==> s2.nodes[q] == s.nodes[q])
    && s2.replies == s.replies && s2.installed == s.installed
    && (forall q, t :: q in s.nodes && (q != p || t != s.nodes[l].term) ==> Silent(s, s2, q, t))
  }

  /** Everything but the new message and the pair it belongs to. */
  lemma CallStepKeeps(s: State, s2: State, l: Id, p: Id)
    requires Inv(s) && CallStep(s, s2, l, p)
    ensures ReignsOk(s2) && VotesOk(s2) && AcksOk(s2) && Complete(s2) && NodesOk(s2)
    ensures forall x, q {:trigger PairOk(s2, x, q)} ::
              IsLeader(s2, x) && IsPeer(s2, x, q) && !(x == l && q == p) ==> PairOk(s2, x, q)
  {
    hide ReignsOk, VotesOk, AcksOk, Complete, MessagesOk, ReignOk;
    assert NodeOk(s, l, s.nodes[l]);
    CoreKept(s, s2);
    LeadersInReigns(s);
    RowNode(s, s2, l);
    NodesKept(s, s2, l);
    CallStepPairs(s, s2, l, p);
  }

  lemma CallStepPairs(s: State, s2: State, l: Id, p: Id)
    requires NodesOk(s) && PairsOk(s) && CallStep(s, s2, l, p)
    ensures forall x, q {:trigger PairOk(s2, x, q)} ::
              IsLeader(s2, x) && IsPeer(s2, x, q) && !(x == l && q == p) ==> PairOk(s2, x, q)
  {
    hide PairOk, NodeOk;
    forall x, q | x != l && IsLeader(s, x) && IsPeer(s, x, q)
      ensures Silent(s, s2, q, s.nodes[x].term)
    {
      if s.nodes[x].term == s.nodes[l].term {
        OneLeader(s, x, l);
      }
    }
    PairsOfOthers(s, s2, l);
    forall q | IsPeer(s2, l, q) && q != p
      ensures PairOk(s2, l, q)
    {
      OtherPeer(s, s2, l, q);
    }
  }

  // ---------------------------------------------------------------- appends

  lemma SendAppendKeeps(s: State, l: Id, p: Id)
    requires Inv(s) && CanSendAppend(s, l, p)
    ensures Inv(DoSendAppend(s, l, p))
  {
    hide ReignsOk, VotesOk, AcksOk, Complete, AppendOk, ReplyOk, SnapshotOk, SnapshotPairOk, InstalledOk, NodeOk;
    var s2 := DoSendAppend(s, l, p);
    SendAppendCall(s, l, p);
    CallStepKeeps(s, s2, l, p);
    NewAppend(s, l, p);
    SendAppendMessages(s, l, p);
    NewAppendPair(s, l, p);
  }

  lemma SendAppendCall(s: State, l: Id, p: Id)
    requires CanSendAppend(s, l, p)
    ensures CallStep(s, DoSendAppend(s, l, p), l, p)
  {
    hide CallStep;
    var n, a := s.nodes[l], AppendFor(s, l, p);
    AppendCall(s, l, p, a, n.(out := n.out[p := AppendRpc(a)]));
  }

  lemma CallExtends(s: State, s2: State, l: Id, p: Id)
    requires CallStep(s, s2, l, p)
    ensures Extends(s, s2) && KeepsReigns(s, s2) && p in s.nodes && p in s2.nodes && QuietNode(s.nodes[p], s2.nodes[p])
  {
    hide Silent;
  }

  lemma BatchFacts(log: seq<Entry>, prev: nat)
    requires prev <= |log|
    ensures var batch := Batch(log, prev);
            && prev + |batch| <= |log| && batch == log[prev..prev + |batch|] && (batch == [] ==> prev == |log|)
  {}

  lemma AppendCall(s: State, l: Id, p: Id, a: AppendRequest, n: Node)
    requires IsLeader(s, l) && IsPeer(s, l, p) && a.to == p && a.term == s.nodes[l].term
    requires n == s.nodes[l].(out := s.nodes[l].out[p := AppendRpc(a)])
    ensures CallStep(s, Update(s, l, n).(appends := s.appends + {a}, calls := s.calls + 1), l, p)
  {
    hide SameCore, Quiet;
    var s2 := Update(s, l, n).(appends := s.appends + {a}, calls := s.calls + 1);
    QuietByNode(s, s2, l);
  }

  lemma NewAppend(s: State, l: Id, p: Id)
    requires Inv(s) && CanSendAppend(s, l, p)
    ensures AppendOk(DoSendAppend(s, l, p), AppendFor(s, l, p))
  {
    hide ReignsOk, VotesOk, AcksOk, Complete, MessagesOk, SentOk, WaitingOk, IsCommitted, CallStep, Extends, KeepsReigns, Bounded, Batch;
    var s2, a, n := DoSendAppend(s, l, p), AppendFor(s, l, p), s.nodes[l];
    assert NodeOk(s, l, n) && PairOk(s, l, p);
    BatchFacts(n.log, a.prev);
    SendAppendCall(s, l, p);
    CallExtends(s, s2, l, p);
    CommittedStays(s, s2, n.log[..n.commit], n.term, n.term);
    BoundedQuiet(s, s2, p, n.term, a.prev);
  }

  lemma SendAppendMessages(s: State, l: Id, p: Id)
    requires NodesOk(s) && MessagesOk(s) && PairsOk(s) && CanSendAppend(s, l, p)
    requires AppendOk(DoSendAppend(s, l, p), AppendFor(s, l, p))
    ensures MessagesOk(DoSendAppend(s, l, p))
  {
    hide AppendOk, ReplyOk, SnapshotOk, SnapshotPairOk, InstalledOk, NodeOk, ProgressOk, WaitingOk, Batch, Extends;
    var s2 := DoSendAppend(s, l, p);
    assert PairOk(s, l, p);
    SendAppendCall(s, l, p);
    forall r | r in s.snapshots && r.to in s.nodes
      ensures Undisturbed(s, s2, r)
    {
      if r.to == p && r.term == s.nodes[l].term {
        assert ShippedOk(s, l, p, r);
      } else {
        assert Silent(s, s2, r.to, r.term);
      }
    }
    MessagesQuiet(s, s2);
  }

  lemma NewAppendPair(s: State, l: Id, p: Id)
    requires NodesOk(s) && MessagesOk(s) && PairsOk(s) && CanSendAppend(s, l, p)
    ensures PairOk(DoSendAppend(s, l, p), l, p)
  {
    hide MessagesOk, NodesOk;
    var s2 := DoSendAppend(s, l, p);
    assert PairOk(s, l, p);
    SendAppendCall(s, l, p);
    ProgressView(s, s2, l, p);
    NewAppendSent(s, l, p);
    NewAppendWaiting(s, l, p);
  }

  lemma NewAppendSent(s: State, l: Id, p: Id)
    requires CanSendAppend(s, l, p) && s.nodes[l].term in s.reigns && SentOk(s, l, p)
    ensures SentOk(DoSendAppend(s, l, p), l, p)
  {
    var s2, a, n, t := DoSendAppend(s, l, p), AppendFor(s, l, p), s.nodes[l], s.nodes[l].term;
    assert CommitsUpTo(s2, p, t, n.commit);
    forall b | b in s2.appends && b.to == p && b.term == t
      ensures PassedOk(s2, l, p, b)
    {
      if b != a {
        assert PassedOk(s, l, p, b);
      }
    }
    forall y | y in s2.replies && y.request.to == p && y.request.term == t && y.success
      ensures ConfirmedOk(s2, l, p, y)
    {
      assert ConfirmedOk(s, l, p, y);
    }
    forall r | r in s2.snapshots && r.to == p && r.term == t
      ensures ShippedOk(s2, l, p, r)
    {
      assert ShippedOk(s, l, p, r);
    }
  }

  lemma NewAppendWaiting(s: State, l: Id, p: Id)
    requires CanSendAppend(s, l, p) && s.nodes[l].term in s.reigns && SentOk(s, l, p) && MessagesOk(s)
    ensures WaitingOk(DoSendAppend(s, l, p), l, p)
  {
    var s2, a, n, t := DoSendAppend(s, l, p), AppendFor(s, l, p), s.nodes[l], s.nodes[l].term;
    forall r | r in s2.snapshots && r.to == p && r.term == t && s2.nodes[p].term <= t
      ensures r.Index() <= s2.nodes[p].snap
    {
      assert ShippedOk(s, l, p, r);
    }
    forall y | y in s2.replies
      ensures y.request != a
    {
      assert ReplyOk(s, y) && AppendOk(s, y.request);
    }
  }

  // ---------------------------------------------------------------- snapshots

  lemma SendSnapshotKeeps(s: State, l: Id, p: Id)
    requires Inv(s) && CanSendSnapshot(s, l, p)
    ensures Inv(DoSendSnapshot(s, l, p))
  {
    hide ReignsOk, VotesOk, AcksOk, Complete, AppendOk, ReplyOk, SnapshotOk, SnapshotPairOk, InstalledOk, NodeOk;
    var s2 := DoSendSnapshot(s, l, p);
    SendSnapshotCall(s, l, p);
    CallStepKeeps(s, s2, l, p);
    NewSnapshot(s, l, p);
    SendSnapshotMessages(s, l, p);
    NewSnapshotPair(s, l, p);
  }

  lemma SendSnapshotCall(s: State, l: Id, p: Id)
    requires CanSendSnapshot(s, l, p)
    ensures CallStep(s, DoSendSnapshot(s, l, p), l, p)
  {
    hide CallStep;
    var n, r := s.nodes[l], SnapshotFor(s, l, p);
    SnapshotCall(s, l, p, r, n.(out := n.out[p := SnapshotRpc(r)]));
  }

  lemma SnapshotCall(s: State, l: Id, p: Id, r: SnapshotRequest, n: Node)
    requires IsLeader(s, l) && IsPeer(s, l, p) && r.to == p && r.term == s.nodes[l].term
    requires n == s.nodes[l].(out := s.nodes[l].out[p := SnapshotRpc(r)])
    ensures CallStep(s, Update(s, l, n).(snapshots := s.snapshots + {r}, calls := s.calls + 1), l, p)
  {
    hide SameCore, Quiet;
    var s2 := Update(s, l, n).(snapshots := s.snapshots + {r}, calls := s.calls + 1);
    QuietByNode(s, s2, l);
  }

  lemma NewSnapshot(s: State, l: Id, p: Id)
    requires Inv(s) && CanSendSnapshot(s, l, p)
    ensures SnapshotOk(DoSendSnapshot(s, l, p), SnapshotFor(s, l, p))
  {
    hide ReignsOk, VotesOk, AcksOk, Complete, MessagesOk, WaitingOk, IsCommitted, CallStep, Extends, KeepsReigns, Bounded;
    var s2, r, n := DoSendSnapshot(s, l, p), SnapshotFor(s, l, p), s.nodes[l];
    assert NodeOk(s, l, n) && PairOk(s, l, p);
    SendSnapshotCall(s, l, p);
    CallExtends(s, s2, l, p);
    CommittedPrefix(s, n.log[..n.commit], n.term, n.snap);
    assert n.log[..n.commit][..n.snap] == r.history;
    CommittedStays(s, s2, r.history, n.term, n.term);
    BoundedQuiet(s, s2, p, n.term, n.snap);
    if s.nodes[p].term <= n.term && s.nodes[p].snap < n.snap {
      CappedSame(s, s2, p, n.term, n.snap);
    }
  }

  lemma SendSnapshotMessages(s: State, l: Id, p: Id)
    requires NodesOk(s) && MessagesOk(s) && PairsOk(s) && CanSendSnapshot(s, l, p)
    requires SnapshotOk(DoSendSnapshot(s, l, p), SnapshotFor(s, l, p))
    ensures MessagesOk(DoSendSnapshot(s, l, p))
  {
    hide AppendOk, ReplyOk, SnapshotOk, SnapshotPairOk, InstalledOk, NodeOk, PairOk;
    var s2, r := DoSendSnapshot(s, l, p), SnapshotFor(s, l, p);
    assert PairOk(s, l, p);
    SendSnapshotCall(s, l, p);
    MessagesQuiet(s, s2);
    forall r1, r2 | r1 in s2.snapshots && r2 in s2.snapshots
      ensures SnapshotPairOk(s2, r1, r2)
    {
      if r1 !in s.snapshots || r2 !in s.snapshots {
        NewSnapshotPairs(s, l, p, r1, r2);
      }
    }
  }

  lemma NewSnapshotPairs(s: State, l: Id, p: Id, r1: SnapshotRequest, r2: SnapshotRequest)
    requires CanSendSnapshot(s, l, p) && PairOk(s, l, p)
    requires r1 in s.snapshots + {SnapshotFor(s, l, p)} && r2 in s.snapshots + {SnapshotFor(s, l, p)}
    requires r1 !in s.snapshots || r2 !in s.snapshots
    ensures SnapshotPairOk(DoSendSnapshot(s, l, p), r1, r2)
  {
    hide ProgressOk, WaitingOk;
    if r1.to == r2.to && r1.term == r2.term && r1.Index() < r2.Index() {
      var old_ := if r1 in s.snapshots then r1 else r2;
      assert ShippedOk(s, l, p, old_);
    }
  }

  lemma NewSnapshotPair(s: State, l: Id, p: Id)
    requires NodesOk(s) && MessagesOk(s) && PairsOk(s) && CanSendSnapshot(s, l, p)
    ensures PairOk(DoSendSnapshot(s, l, p), l, p)
  {
    hide MessagesOk, NodesOk;
    var s2 := DoSendSnapshot(s, l, p);
    assert PairOk(s, l, p);
    SendSnapshotCall(s, l, p);
    ProgressView(s, s2, l, p);
    NewSnapshotSent(s, l, p);
    assert WaitingOk(s2, l, p);
  }

  lemma NewSnapshotSent(s: State, l: Id, p: Id)
    requires CanSendSnapshot(s, l, p) && s.nodes[l].term in s.reigns && ProgressOk(s, l, p) && SentOk(s, l, p)
    ensures SentOk(DoSendSnapshot(s, l, p), l, p)
  {
    hide Extends, Stuck, Agree;
    var s2, n, t := DoSendSnapshot(s, l, p), s.nodes[l], s.nodes[l].term;
    SendSnapshotCall(s, l, p);
    assert CommitsUpTo(s2, p, t, n.commit);
    forall b | b in s2.appends && b.to == p && b.term == t
      ensures PassedOk(s2, l, p, b)
    {
      assert PassedOk(s, l, p, b);
    }
    forall y | y in s2.replies && y.request.to == p && y.request.term == t && y.success
      ensures ConfirmedOk(s2, l, p, y)
    {
      assert ConfirmedOk(s, l, p, y);
    }
    forall r | r in s2.snapshots && r.to == p && r.term == t
      ensures ShippedOk(s2, l, p, r)
    {
      if r in s.snapshots {
        assert ShippedOk(s, l, p, r);
        if CommitsUpTo(s, p, t, n.snap) {
          assert CommitsUpTo(s2, p, t, n.snap);
        }
      }
    }
    if s2.nodes[p].term <= t && s2.nodes[p].snap < n.snap {
      CappedSame(s, s2, p, t, n.snap);
    }
  }

  // ---------------------------------------------------------------- rejections

  lemma RejectKeeps(s: State, p: Id, r: AppendRequest)
    requires Inv(s) && CanReject(s, p, r)
    ensures Inv(DoReject(s, p, r))
  {
    hide ReignsOk, VotesOk, AcksOk, Complete, AppendOk, ReplyOk, SnapshotOk, SnapshotPairOk, InstalledOk, NodeOk;
    var s2 := DoReject(s, p, r);
    assert SameCore(s, s2) && Quiet(s, s2);
    CoreKept(s, s2);
    LeadersInReigns(s);
    RejectNodes(s, p, r);
    MessagesQuiet(s, s2);
    RejectReply(s, p, r);
    RejectPairs(s, p, r);
  }

  lemma RejectNodes(s: State, p: Id, r: AppendRequest)
    requires NodesOk(s) && CanReject(s, p, r)
    ensures NodesOk(DoReject(s, p, r))
  {
    var s2 := DoReject(s, p, r);
    forall q | q in s2.nodes
      ensures NodeOk(s2, q, s2.nodes[q])
    {
      assert NodeOk(s, q, s.nodes[q]);
      NodeKept(s, s2, q, s.nodes[q]);
    }
  }

  lemma RejectReply(s: State, p: Id, r: AppendRequest)
    requires NodesOk(s) && MessagesOk(s) && CanReject(s, p, r)
    ensures ReplyOk(DoReject(s, p, r), AppendReply(r, false, Hint(s.nodes[p], r)))
  {
    var s2, n := DoReject(s, p, r), s.nodes[p];
    assert AppendOk(s, r) && NodeOk(s, p, n);
    assert Bounded(s2, p, r.term, r.prev);
  }

  lemma RejectPairs(s: State, p: Id, r: AppendRequest)
    requires NodesOk(s) && MessagesOk(s) && PairsOk(s) && CanReject(s, p, r)
    ensures PairsOk(DoReject(s, p, r))
  {
    hide MessagesOk, NodesOk, ProgressOk, SentOk, WaitingOk;
    var s2 := DoReject(s, p, r);
    assert SameCore(s, s2) && Quiet(s, s2);
    forall l, q | IsLeader(s2, l) && IsPeer(s2, l, q)
      ensures PairOk(s2, l, q)
    {
      assert PairOk(s, l, q);
      ProgressView(s, s2, l, q);
      RejectSent(s, p, r, l, q);
      RejectWaiting(s, p, r, l, q);
    }
  }

  lemma RejectSent(s: State, p: Id, r: AppendRequest, l: Id, q: Id)
    requires CanReject(s, p, r) && PairOk(s, l, q)
    ensures SentOk(DoReject(s, p, r), l, q)
  {
    var s2, n, t := DoReject(s, p, r), s.nodes[l], s.nodes[l].term;
    assert CommitsUpTo(s2, q, t, n.commit);
    forall a | a in s2.appends && a.to == q && a.term == t
      ensures PassedOk(s2, l, q, a)
    {
      assert PassedOk(s, l, q, a);
    }
    forall y | y in s2.replies && y.request.to == q && y.request.term == t && y.success
      ensures ConfirmedOk(s2, l, q, y)
    {
      assert ConfirmedOk(s, l, q, y);
    }
    forall b | b in s2.snapshots && b.to == q && b.term == t
      ensures ShippedOk(s2, l, q, b)
    {
      assert ShippedOk(s, l, q, b);
      if CommitsUpTo(s, q, t, n.snap) {
        assert CommitsUpTo(s2, q, t, n.snap);
      }
    }
    if NextIndex(n, q) <= n.snap && s.nodes[q].term <= t && s.nodes[q].snap < n.snap {
      CappedSame(s, s2, q, t, n.snap);
    }
  }

  lemma RejectWaiting(s: State, p: Id, r: AppendRequest, l: Id, q: Id)
    requires NodesOk(s) && MessagesOk(s) && CanReject(s, p, r) && IsLeader(s, l) && PairOk(s, l, q)
    ensures WaitingOk(DoReject(s, p, r), l, q)
  {
    hide NodesOk, MessagesOk, ProgressOk, SentOk;
    var s2, n, t := DoReject(s, p, r), s.nodes[l], s.nodes[l].term;
    if q in n.out && n.out[q].AppendRpc? {
      forall y | y in s2.replies && y.request == n.out[q].append && !y.success
        ensures RejectionOk(s2, l, q, y)
      {
        if y in s.replies {
          assert RejectionOk(s, l, q, y);
          if Stuck(s, q, t) {
            assert Stuck(s2, q, t);
          }
        } else {
          RejectionSticks(s, p, r, l);
        }
      }
    }
  }

  /** When the call the leader waits for is rejected, no append sent so far can be accepted. */
  lemma RejectionSticks(s: State, p: Id, r: AppendRequest, l: Id)
    requires NodesOk(s) && MessagesOk(s) && CanReject(s, p, r) && IsLeader(s, l) && PairOk(s, l, p)
    requires p in s.nodes[l].out && s.nodes[l].out[p] == AppendRpc(r)
    ensures RejectionOk(DoReject(s, p, r), l, p, AppendReply(r, false, Hint(s.nodes[p], r)))
  {
    var s2, m, t := DoReject(s, p, r), s.nodes[p], s.nodes[l].term;
    assert AppendOk(s, r);
    var log := s.reigns[t].log;
    if r.prev >= m.snap {
      if Agree(m.log, log, r.prev) {
        AgreeTerm(m.log, log, r.prev, r.prev);
        assert false;
      }
      forall a | a in s2.appends && a.to == p && a.term == t
        ensures !Agree(m.log, log, a.prev)
      {
        assert PassedOk(s, l, p, a);
        if Agree(m.log, log, a.prev) && a.prev >= r.prev {
          AgreeLower(m.log, log, a.prev, r.prev);
        }
      }
      assert Stuck(s2, p, t);
    }
  }
}
