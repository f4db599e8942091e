/** The leader moves its view of one peer: after a reply, a snapshot, or a bad guess. */
module ReplySteps {
  import opened Logs
  import opened Cluster
  import opened Invariants
  import opened Consequences
  import opened Frames
  import opened LocalSteps

  /** Only the row of peer `p` changed at leader `l`. */
  ghost predicate RowStep(s: State, s2: State, l: Id, p: Id) {
    && IsLeader(s, l) && IsPeer(s, l, p) && l in s2.nodes
    && s2 == Update(s, l, s2.nodes[l])
    && s2.nodes[l] == s.nodes[l].(next := s2.nodes[l].next, matched := s2.nodes[l].matched, out := s2.nodes[l].out)
    && (forall q :: q != p ==>
          && NextIndex(s2.nodes[l], q) == NextIndex(s.nodes[l], q)
          && Matched(s2.nodes[l], q) == Matched(s.nodes[l], q)
          && (q in s2.nodes[l].out ==> q in s.nodes[l].out && s2.nodes[l].out[q] == s.nodes[l].out[q]))
  }

  lemma RowStepKeeps(s: State, s2: State, l: Id, p: Id)
    requires Inv(s) && RowStep(s, s2, l, p) && PairOk(s2, l, p)
    ensures Inv(s2)
  {
    hide NodeOk, ReignOk, PairOk, VotesOk, AcksOk, Complete, MessagesOk;
    assert NodeOk(s, l, s.nodes[l]);
    UpdateIsQuiet(s, l, s2.nodes[l]);
    RowNode(s, s2, l);
    forall q | IsLeader(s2, l) && IsPeer(s2, l, q)
      ensures PairOk(s2, l, q)
    {
      if q != p {
        OtherPeer(s, s2, l, q);
      }
    }
    QuietStep(s, s2, l);
  }

  lemma RowNode(s: State, s2: State, l: Id)
    requires l in s.nodes && NodeOk(s, l, s.nodes[l]) && Extends(s, s2) && s2.reigns == s.reigns
    requires s2.nodes[l] == s.nodes[l].(next := s2.nodes[l].next, matched := s2.nodes[l].matched, out := s2.nodes[l].out)
    ensures NodeOk(s2, l, s2.nodes[l])
  {
    var n := s.nodes[l];
    CommittedStays(s, s2, n.log[..n.commit], n.term, n.term);
    NodeStays(s, s2, l, s2.nodes[l]);
  }

  /** What the new position has to satisfy for the pair to stay in order. */
  ghost predicate NewPosition(s: State, l: Id, p: Id, next: nat, best: nat)
    requires l in s.nodes && p in s.nodes && s.nodes[l].term in s.reigns
  {
    var n, m, t := s.nodes[l], s.nodes[p], s.nodes[l].term;
    var log := s.reigns[t].log;
    && 1 <= next && Bounded(s, p, t, Max(next - 1, n.snap))
    && (m.term < t ==> next <= NextIndex(n, p) && best == Matched(n, p))
    && (m.term == t ==> m.commit <= Max(n.commit, next) && (best < next || best < n.snap) && Agree(m.log, log, best))
    && best <= |log| && AckedUpTo(s, p, t, best, n.commit)
    && (m.term == t ==> Stuck(s, p, t) || Agree(m.log, log, next - 1)
                        || (next <= NextIndex(n, p) && !Agree(m.log, log, NextIndex(n, p) - 1)))
    && (forall r :: r in s.snapshots && r.to == p && r.term == t && m.term <= t && m.snap < r.Index() ==>
          next <= r.Index() && best < r.Index())
    && (next <= n.snap && m.term <= t && m.snap < n.snap ==>
          NextIndex(n, p) <= n.snap || (m.term == t && m.commit <= n.snap && Stuck(s, p, t)))
  }

  lemma NewPositionKeeps(s: State, s2: State, l: Id, p: Id)
    requires Inv(s) && RowStep(s, s2, l, p) && s.nodes[l].term in s.reigns
    requires NewPosition(s, l, p, NextIndex(s2.nodes[l], p), Matched(s2.nodes[l], p))
    requires p !in s2.nodes[l].out
    ensures Inv(s2)
  {
    hide NodesOk, ReignsOk, VotesOk, AcksOk, Complete, MessagesOk, NewPosition, ProgressOk, SentOk;
    assert PairOk(s, l, p);
    NewProgress(s, s2, l, p);
    NewSent(s, s2, l, p);
    RowStepKeeps(s, s2, l, p);
  }

  lemma NewProgress(s: State, s2: State, l: Id, p: Id)
    requires RowStep(s, s2, l, p) && s.nodes[l].term in s.reigns && ProgressOk(s, l, p)
    requires NewPosition(s, l, p, NextIndex(s2.nodes[l], p), Matched(s2.nodes[l], p))
    ensures ProgressOk(s2, l, p)
  {
    var n, n2, t := s.nodes[l], s2.nodes[l], s.nodes[l].term;
    assert Bounded(s2, p, t, Max(NextIndex(n2, p) - 1, n2.snap));
  }

  lemma NewSent(s: State, s2: State, l: Id, p: Id)
    requires RowStep(s, s2, l, p) && s.nodes[l].term in s.reigns && SentOk(s, l, p)
    requires NewPosition(s, l, p, NextIndex(s2.nodes[l], p), Matched(s2.nodes[l], p))
    ensures SentOk(s2, l, p)
  {
    var n, n2, m, t := s.nodes[l], s2.nodes[l], s.nodes[p], s.nodes[l].term;
    assert CommitsUpTo(s2, p, t, n2.commit);
    forall a | a in s2.appends && a.to == p && a.term == t
      ensures PassedOk(s2, l, p, a)
    {
      assert PassedOk(s, l, p, a);
    }
    forall y | y in s2.replies && y.request.to == p && y.request.term == t && y.success
      ensures ConfirmedOk(s2, l, p, y)
    {
      assert ConfirmedOk(s, l, p, y);
    }
    forall r | r in s2.snapshots && r.to == p && r.term == t
      ensures ShippedOk(s2, l, p, r)
    {
      assert ShippedOk(s, l, p, r);
      if CommitsUpTo(s, p, t, n.snap) {
        assert CommitsUpTo(s2, p, t, n2.snap);
      }
    }
    if NextIndex(n2, p) <= n2.snap && m.term <= t && m.snap < n2.snap {
      NewCapped(s, s2, l, p);
    }
  }

  lemma NewCapped(s: State, s2: State, l: Id, p: Id)
    requires RowStep(s, s2, l, p) && s.nodes[l].term in s.reigns && SentOk(s, l, p)
    requires NewPosition(s, l, p, NextIndex(s2.nodes[l], p), Matched(s2.nodes[l], p))
    requires NextIndex(s2.nodes[l], p) <= s.nodes[l].snap && s.nodes[p].term <= s.nodes[l].term
    requires s.nodes[p].snap < s.nodes[l].snap
    ensures Capped(s2, p, s.nodes[l].term, s.nodes[l].snap)
  {
    var n, t := s.nodes[l], s.nodes[l].term;
    assert Capped(s, p, t, n.snap);
    if CommitsUpTo(s, p, t, n.snap) {
      assert CommitsUpTo(s2, p, t, n.snap);
    } else {
      assert Stuck(s2, p, t);
    }
  }

  // ---------------------------------------------------------------- the three moves

  lemma LowerNextKeeps(s: State, l: Id, p: Id)
    requires Inv(s) && CanLowerNext(s, l, p)
    ensures Inv(DoLowerNext(s, l, p))
  {
    hide VotesOk, AcksOk, Complete, NodeOk, ReignOk, ProgressOk, SentOk, WaitingOk, NewPosition;
    var s2 := DoLowerNext(s, l, p);
    assert NodeOk(s, l, s.nodes[l]) && PairOk(s, l, p);
    assert ReignOk(s, s.nodes[l].term);
    LoweredPosition(s, l, p);
    NewPositionKeeps(s, s2, l, p);
  }

  lemma LoweredPosition(s: State, l: Id, p: Id)
    requires CanLowerNext(s, l, p) && NodeOk(s, l, s.nodes[l]) && ReignOk(s, s.nodes[l].term)
    requires ProgressOk(s, l, p) && SentOk(s, l, p)
    ensures NewPosition(s, l, p, NextIndex(s.nodes[l], p) - 1, Matched(s.nodes[l], p))
  {
    hide NewPosition, IsCommitted;
    var n, t := s.nodes[l], s.nodes[l].term;
    var next := NextIndex(n, p);
    forall r | r in s.snapshots && r.to == p && r.term == t && s.nodes[p].term <= t && s.nodes[p].snap < r.Index()
      ensures next - 1 <= r.Index() && Matched(n, p) < r.Index()
    {
      assert ShippedOk(s, l, p, r);
    }
    if next > n.snap {
      LoweredPastEnd(s, l, p);
    } else {
      LoweredInside(s, l, p);
    }
  }

  /** From beyond the leader's log: the peer cannot agree that far. */
  lemma LoweredPastEnd(s: State, l: Id, p: Id)
    requires l in s.nodes && p in s.nodes && s.nodes[l].term in s.reigns && ProgressOk(s, l, p)
    requires NodeOk(s, l, s.nodes[l]) && s.nodes[l].role == Leader && s.reigns[s.nodes[l].term].base <= |s.nodes[l].log|
    requires NextIndex(s.nodes[l], p) > |s.nodes[l].log| + 1
    requires forall r :: r in s.snapshots && r.to == p && r.term == s.nodes[l].term && s.nodes[p].term <= s.nodes[l].term
                         && s.nodes[p].snap < r.Index() ==>
               NextIndex(s.nodes[l], p) - 1 <= r.Index() && Matched(s.nodes[l], p) < r.Index()
    ensures NewPosition(s, l, p, NextIndex(s.nodes[l], p) - 1, Matched(s.nodes[l], p))
  {
    hide IsCommitted, StoredOk, Replay;
    var n, t := s.nodes[l], s.nodes[l].term;
    var next := NextIndex(n, p);
    assert !Agree(s.nodes[p].log, s.reigns[t].log, Max(Max(next - 2, n.snap), s.nodes[p].snap) + 1);
  }

  /** From inside the leader's snapshot: only a snapshot can follow. */
  lemma LoweredInside(s: State, l: Id, p: Id)
    requires l in s.nodes && p in s.nodes && s.nodes[l].term in s.reigns && ProgressOk(s, l, p)
    requires s.nodes[l].snap <= s.nodes[l].commit && 1 < NextIndex(s.nodes[l], p) <= s.nodes[l].snap
    requires forall r :: r in s.snapshots && r.to == p && r.term == s.nodes[l].term && s.nodes[p].term <= s.nodes[l].term
                         && s.nodes[p].snap < r.Index() ==>
               NextIndex(s.nodes[l], p) - 1 <= r.Index() && Matched(s.nodes[l], p) < r.Index()
    ensures NewPosition(s, l, p, NextIndex(s.nodes[l], p) - 1, Matched(s.nodes[l], p))
  {}

  lemma RecordInstallKeeps(s: State, l: Id, p: Id, r: SnapshotRequest)
    requires Inv(s) && CanRecordInstall(s, l, p, r)
    ensures Inv(DoRecordInstall(s, l, p, r))
  {
    hide ReignsOk, VotesOk, AcksOk, Complete, NodeOk, SnapshotOk, ProgressOk, SentOk, WaitingOk, NewPosition;
    var s2 := DoRecordInstall(s, l, p, r);
    assert NodeOk(s, l, s.nodes[l]) && NodeOk(s, p, s.nodes[p]);
    assert PairOk(s, l, p) && InstalledOk(s, r) && SnapshotOk(s, r);
    if s.nodes[p].term == s.nodes[l].term {
      CommitAgrees(s, p);
    }
    InstalledPosition(s, l, p, r);
    NewPositionKeeps(s, s2, l, p);
  }

  lemma InstalledPosition(s: State, l: Id, p: Id, r: SnapshotRequest)
    requires CanRecordInstall(s, l, p, r) && NodeOk(s, l, s.nodes[l]) && NodeOk(s, p, s.nodes[p])
    requires InstalledOk(s, r) && SnapshotOk(s, r)
    requires ProgressOk(s, l, p) && SentOk(s, l, p) && WaitingOk(s, l, p)
    requires s.nodes[p].term == s.nodes[l].term ==>
               Agree(s.nodes[p].log, s.reigns[s.nodes[l].term].log, s.nodes[p].commit)
    ensures var best := Max(Matched(s.nodes[l], p), r.Index());
            NewPosition(s, l, p, best + 1, best)
  {
    hide IsCommitted, StoredOk, Replay, CommitsUpTo, PassedOk, ConfirmedOk;
    var n, m, t := s.nodes[l], s.nodes[p], s.nodes[l].term;
    var best := Max(Matched(n, p), r.Index());
    BoundedWeaken(s, p, t, r.Index(), Max(best, n.snap));
    if m.term == t {
      AgreeLower(m.log, s.reigns[t].log, m.commit, r.Index());
    }
    forall r2 | r2 in s.snapshots && r2.to == p && r2.term == t && m.term <= t && m.snap < r2.Index()
      ensures best < r2.Index()
    {
      assert ShippedOk(s, l, p, r2);
    }
  }

  lemma RecordReplyKeeps(s: State, l: Id, p: Id, y: AppendReply)
    requires Inv(s) && CanRecordReply(s, l, p, y)
    ensures Inv(DoRecordReply(s, l, p, y))
  {
    hide ReignsOk, VotesOk, AcksOk, Complete, NodeOk, ReplyOk, AppendOk, ProgressOk, SentOk, WaitingOk, NewPosition, NextAfterRejection;
    var s2 := DoRecordReply(s, l, p, y);
    assert NodeOk(s, l, s.nodes[l]) && NodeOk(s, p, s.nodes[p]);
    assert PairOk(s, l, p) && ReplyOk(s, y);
    ReplySent(s, y);
    assert AppendOk(s, y.request);
    if y.success {
      ConfirmedPosition(s, l, p, y);
    } else {
      if s.nodes[p].term == s.nodes[l].term {
        CommitAgrees(s, p);
      }
      RejectedPosition(s, l, p, y);
    }
    NewPositionKeeps(s, s2, l, p);
  }

  lemma ReplySent(s: State, y: AppendReply)
    requires ReplyOk(s, y)
    ensures y.request in s.appends
  {}

  lemma ConfirmedPosition(s: State, l: Id, p: Id, y: AppendReply)
    requires CanRecordReply(s, l, p, y) && y.success && ReplyOk(s, y) && AppendOk(s, y.request)
    requires s.nodes[l].term in s.reigns
    requires ProgressOk(s, l, p) && SentOk(s, l, p) && WaitingOk(s, l, p)
    ensures var best := Max(Matched(s.nodes[l], p), Max(y.match_, y.request.End()));
            NewPosition(s, l, p, best + 1, best)
  {
    var n, m, t := s.nodes[l], s.nodes[p], s.nodes[l].term;
    var best := Max(Matched(n, p), y.match_);
    BoundedWeaken(s, p, t, y.match_, Max(best, n.snap));
    assert ConfirmedOk(s, l, p, y);
  }

  lemma RejectedPosition(s: State, l: Id, p: Id, y: AppendReply)
    requires CanRecordReply(s, l, p, y) && !y.success && ReplyOk(s, y) && AppendOk(s, y.request)
    requires s.nodes[l].term in s.reigns && NodeOk(s, p, s.nodes[p])
    requires ProgressOk(s, l, p) && SentOk(s, l, p) && WaitingOk(s, l, p)
    requires s.nodes[p].term == s.nodes[l].term ==>
               Agree(s.nodes[p].log, s.reigns[s.nodes[l].term].log, s.nodes[p].commit)
    ensures NewPosition(s, l, p, NextAfterRejection(NextIndex(s.nodes[l], p), y.match_), Matched(s.nodes[l], p))
  {
    hide NewPosition, ReplyOk, AppendOk, SentOk, WaitingOk, ProgressOk, NodeOk, NextAfterRejection, Bounded;
    var n, m, t := s.nodes[l], s.nodes[p], s.nodes[l].term;
    var next := NextAfterRejection(NextIndex(n, p), y.match_);
    BackoffBounds(y.request.prev, y.match_);
    RejectionFacts(s, l, p, y);
    BoundedWeaken(s, p, t, Max(y.match_, 1) - 1, Max(next - 1, n.snap));
    if m.term > t {
      GonePosition(s, l, p, next);
    } else if Stuck(s, p, t) && |m.log| <= y.match_ {
      StuckPosition(m.log, s.reigns[t].log, y.request.prev, y.match_, Matched(n, p));
      StillStuck(s, l, p, next);
    } else {
      AgreeLower(m.log, s.reigns[t].log, m.commit, y.match_);
      BehindSnapshot(s, l, p, next);
    }
  }

  /** What is known of the follower that refused the call the leader is waiting on. */
  lemma RejectionFacts(s: State, l: Id, p: Id, y: AppendReply)
    requires CanRecordReply(s, l, p, y) && !y.success && ReplyOk(s, y)
    requires s.nodes[l].term in s.reigns && NodeOk(s, p, s.nodes[p]) && ProgressOk(s, l, p) && WaitingOk(s, l, p)
    ensures var n, m, t := s.nodes[l], s.nodes[p], s.nodes[l].term;
            && y.request.prev + 1 == NextIndex(n, p) && y.request in s.appends && y.request.to == p
            && m.term >= t && RejectionOk(s, l, p, y)
            && Bounded(s, p, t, Max(y.match_, 1) - 1) && m.snap <= m.commit <= |m.log|
            && (m.term == t ==> Agree(m.log, s.reigns[t].log, Matched(n, p)))
            && (m.term == t ==> forall r :: r in s.snapshots && r.to == p && r.term == t ==> r.Index() <= m.snap)
  {
    assert RejectionOk(s, l, p, y);
  }

  /** A peer in a later term: only the counters matter. */
  lemma GonePosition(s: State, l: Id, p: Id, next: nat)
    requires l in s.nodes && p in s.nodes && s.nodes[l].term in s.reigns && s.nodes[p].term > s.nodes[l].term
    requires 1 <= next && ProgressOk(s, l, p) && Bounded(s, p, s.nodes[l].term, Max(next - 1, s.nodes[l].snap))
    ensures NewPosition(s, l, p, next, Matched(s.nodes[l], p))
  {}

  /** No call sent so far can be accepted, and the next one starts above what was confirmed. */
  lemma StillStuck(s: State, l: Id, p: Id, next: nat)
    requires l in s.nodes && p in s.nodes && s.nodes[l].term in s.reigns && s.nodes[p].term == s.nodes[l].term
    requires 1 <= next && ProgressOk(s, l, p) && Bounded(s, p, s.nodes[l].term, Max(next - 1, s.nodes[l].snap))
    requires Stuck(s, p, s.nodes[l].term) && Matched(s.nodes[l], p) < next
    requires Agree(s.nodes[p].log, s.reigns[s.nodes[l].term].log, s.nodes[p].commit) && s.nodes[p].commit <= |s.nodes[p].log| <= next
    requires forall r :: r in s.snapshots && r.to == p && r.term == s.nodes[l].term ==> r.Index() <= s.nodes[p].snap
    ensures NewPosition(s, l, p, next, Matched(s.nodes[l], p))
  {}

  /** The peer's snapshot is ahead of the position that was tried. */
  lemma BehindSnapshot(s: State, l: Id, p: Id, next: nat)
    requires l in s.nodes && p in s.nodes && s.nodes[l].term in s.reigns && s.nodes[p].term == s.nodes[l].term
    requires 1 <= next && ProgressOk(s, l, p) && Bounded(s, p, s.nodes[l].term, Max(next - 1, s.nodes[l].snap))
    requires NextIndex(s.nodes[l], p) < next && Agree(s.nodes[p].log, s.reigns[s.nodes[l].term].log, next - 1)
    requires forall r :: r in s.snapshots && r.to == p && r.term == s.nodes[l].term ==> r.Index() <= s.nodes[p].snap
    ensures NewPosition(s, l, p, next, Matched(s.nodes[l], p))
  {}

  lemma BackoffBounds(prev: nat, hint: nat)
    ensures var next := NextAfterRejection(prev + 1, hint);
            && next >= Max(hint, 1) && (hint > prev ==> next == hint + 1)
            && (hint <= prev ==> next <= hint + 1 && next <= prev + 1 && (next <= prev || prev == 0))
  {}

  /** Backing off from a mismatch at `prev` stops above everything the follower confirmed. */
  lemma StuckPosition(log: seq<Entry>, leader: seq<Entry>, prev: nat, hint: nat, best: nat)
    requires |log| <= hint && !Agree(log, leader, prev) && Agree(log, leader, best)
    ensures best < NextAfterRejection(prev + 1, hint)
  {}
}
