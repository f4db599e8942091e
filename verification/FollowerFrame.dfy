/** What follows whenever a follower's log moves towards the log of the leader of its term. */
module FollowerFrame {
  import opened Logs
  import opened Cluster
  import opened Invariants
  import opened Consequences
  import opened Frames
  import opened LocalSteps

  /** Agreement with `leader` is kept; new agreement comes with being a prefix of it, or lies
      within the snapshot; and every entry is an old one or the leader's. */
  ghost predicate Improves(log: seq<Entry>, log2: seq<Entry>, leader: seq<Entry>, snap: nat) {
    && (forall x: nat {:trigger Agree(log2, leader, x)} :: Agree(log, leader, x) ==> Agree(log2, leader, x))
    && (forall x: nat {:trigger Agree(log2, leader, x)} ::
          Agree(log2, leader, x) ==> Agree(log, leader, x) || log2 <= leader || x <= snap)
    && (log <= leader ==> log2 <= leader)
    && (forall j: nat {:trigger TermAt(log2, j)} :: 1 <= j <= |log2| ==>
          Agree(log2, leader, j) || (j <= |log| && TermAt(log2, j) == TermAt(log, j)))
  }

  ghost predicate AcksOwn(s: State, s2: State, p: Id)
    requires p in s.nodes && p in s2.nodes && s.nodes[p].term in s.reigns
  {
    var t := s.nodes[p].term;
    && (forall q: Id, u: nat {:trigger Ack(s2, q, u)} :: q != p || u != t ==> Ack(s2, q, u) == Ack(s, q, u))
    && Ack(s, p, t) <= Ack(s2, p, t)
    && (Ack(s, p, t) < Ack(s2, p, t) ==>
          s2.nodes[p].snap < Ack(s2, p, t) && Agree(s2.nodes[p].log, s.reigns[t].log, Ack(s2, p, t)))
  }

  /** Follower `p` changed its log, positions or acknowledgements; it may have answered. */
  ghost predicate FollowerStep(s: State, s2: State, p: Id) {
    && p in s.nodes && p in s2.nodes && s2.nodes == s.nodes[p := s2.nodes[p]]
    && s.nodes[p].role == Follower && s2.nodes[p].role == Follower
    && s2.nodes[p].term == s.nodes[p].term && s2.nodes[p].vote == s.nodes[p].vote
    && s.nodes[p].snap <= s2.nodes[p].snap
    && s.nodes[p].term in s.reigns && p != s.reigns[s.nodes[p].term].leader
    && s2.reigns == s.reigns && s2.votes == s.votes && s2.voteRequests == s.voteRequests
    && s2.appends == s.appends && s2.snapshots == s.snapshots && s2.calls == s.calls
    && s.replies <= s2.replies && s.installed <= s2.installed
    && AcksOwn(s, s2, p)
    && Improves(s.nodes[p].log, s2.nodes[p].log, s.reigns[s.nodes[p].term].log, s2.nodes[p].snap)
  }

  lemma FollowerExtends(s: State, s2: State, p: Id)
    requires FollowerStep(s, s2, p)
    ensures Extends(s, s2)
  {
    hide Improves;
    forall q, t
      ensures AckGrows(s, s2, q, t)
    {
      assert q != p || t != s.nodes[p].term ==> Ack(s2, q, t) == Ack(s, q, t);
    }
  }

  lemma FollowerCore(s: State, s2: State, p: Id)
    requires ReignsOk(s) && VotesOk(s) && AcksOk(s) && Complete(s) && FollowerStep(s, s2, p)
    requires NodeOk(s2, p, s2.nodes[p])
    ensures ReignsOk(s2) && VotesOk(s2) && AcksOk(s2) && Complete(s2)
  {
    hide VotesOk, AcksOk, Complete, Extends, NodeOk, Improves;
    FollowerExtends(s, s2, p);
    ReignsKept(s, s2);
    CompleteKept(s, s2);
    FollowerVotes(s, s2, p);
    FollowerAcks(s, s2, p);
  }

  lemma FollowerVotes(s: State, s2: State, p: Id)
    requires VotesOk(s) && FollowerStep(s, s2, p)
    ensures VotesOk(s2)
  {
    hide Extends, Improves;
    FollowerExtends(s, s2, p);
    forall v | v in s2.voteRequests
      ensures BallotOk(s2, v)
    {
      assert BallotOk(s, v);
    }
    forall w | w in s2.votes
      ensures VoteOk(s2, w)
    {
      assert VoteOk(s, w);
    }
    forall w, t, k | w in s2.votes && t in s2.reigns
      ensures Vouches(s2, w, t, k)
    {
      assert VoteOk(s, w);
      VouchesKept(s, s2, w, t, k);
    }
  }

  lemma FollowerAcks(s: State, s2: State, p: Id)
    requires ReignsOk(s) && AcksOk(s) && Complete(s) && FollowerStep(s, s2, p)
    requires NodeOk(s2, p, s2.nodes[p])
    ensures AcksOk(s2)
  {
    hide ReignsOk, Complete, Extends, NodeOk, Improves;
    FollowerExtends(s, s2, p);
    forall q, t
      ensures AckOk(s2, q, t)
    {
      assert AckOk(s, q, t);
    }
    forall q: Id, t: nat, k: nat | q in s2.nodes && t in s2.reigns
      ensures Holds(s2, q, t, k)
    {
      if q != p {
        HoldsKept(s, s2, q, t, k);
      } else if k <= Ack(s, p, t) {
        FollowerHolds(s, s2, p, t, k);
      } else {
        FollowerHoldsNew(s, s2, p, t, k);
      }
    }
  }

  /** What `p` acknowledged before is still there: the leader of its term carries it. */
  lemma FollowerHolds(s: State, s2: State, p: Id, t: nat, k: nat)
    requires ReignsOk(s) && AcksOk(s) && Complete(s) && FollowerStep(s, s2, p)
    requires t in s.reigns && k <= Ack(s, p, t)
    ensures Holds(s2, p, t, k)
  {
    hide Extends;
    FollowerExtends(s, s2, p);
    var u, log, log2 := s.nodes[p].term, s.nodes[p].log, s2.nodes[p].log;
    var leader := s.reigns[u].log;
    if s.reigns[t].base < k && Choosable(s2, t, k) {
      ChoosableEarlier(s, s2, t, k);
      assert AckOk(s, p, t);
      assert Holds(s, p, t, k) && Carries(s, u, t, k);
      assert Agree(leader, s.reigns[t].log, k);
      assert Agree(log, leader, k);
      assert Agree(log2, leader, k);
      assert ReignOk(s, t) && ReignOk(s, u) && EntryOk(s, t, k);
      AgreeTerm(leader, s.reigns[t].log, k, k);
      forall j | k <= j <= |log2|
        ensures TermAt(log2, j) >= t
      {
        if Agree(log2, leader, j) {
          AgreeTerm(log2, leader, j, j);
        } else {
          var term := TermAt(log2, j);
          assert j <= |log| && term == TermAt(log, j);
        }
      }
    }
  }

  lemma FollowerHoldsNew(s: State, s2: State, p: Id, t: nat, k: nat)
    requires ReignsOk(s) && FollowerStep(s, s2, p) && NodeOk(s2, p, s2.nodes[p])
    requires t in s.reigns && k > Ack(s, p, t)
    ensures Holds(s2, p, t, k)
  {
    hide Extends;
    FollowerExtends(s, s2, p);
    var n2, m := s2.nodes[p], Ack(s2, p, t);
    var leader := s.reigns[t].log;
    if s.reigns[t].base < k <= m {
      AgreeLower(n2.log, leader, m, k);
      assert ReignOk(s, t);
      forall j | k <= j <= |n2.log|
        ensures TermAt(n2.log, j) >= t
      {
        if j <= m {
          assert EntryOk(s, t, j);
          AgreeTerm(n2.log, leader, m, j);
        } else {
          assert EntryOk(s, t, m);
          AgreeTerm(n2.log, leader, m, m);
          assert StoredOk(s2, n2, j);
          StoredSorted(s2, n2, m, j) by {
            assert ReignsOk(s2) by {
              ReignsKept(s, s2);
            }
          }
        }
      }
    }
  }

  // ---------------------------------------------------------------- messages

  lemma BoundedFollower(s: State, s2: State, p: Id, q: Id, t: nat, x: nat)
    requires FollowerStep(s, s2, p) && q in s.nodes && t in s.reigns && Bounded(s, q, t, x)
    ensures Bounded(s2, q, t, x)
  {
    var n, n2 := s.nodes[q], s2.nodes[q];
    var y2 := Max(x, n2.snap) + 1;
    if q == p && n2.term == t && Agree(n2.log, s.reigns[t].log, y2) {
      if Agree(n.log, s.reigns[t].log, y2) {
        AgreeLower(n.log, s.reigns[t].log, y2, Max(x, n.snap) + 1);
      }
    }
  }

  /** Snapshots still on their way to `p` keep it capped. */
  ghost predicate CapsKept(s: State, s2: State, p: Id)
    requires p in s.nodes && p in s2.nodes && s2.nodes[p].term in s2.reigns
  {
    forall r {:trigger Capped(s2, p, s2.nodes[p].term, r.Index())} ::
      r in s.snapshots && r.to == p && r.term == s2.nodes[p].term && s2.nodes[p].snap < r.Index() ==>
        Capped(s2, p, s2.nodes[p].term, r.Index())
  }

  lemma FollowerMessages(s: State, s2: State, p: Id)
    requires NodesOk(s) && MessagesOk(s) && FollowerStep(s, s2, p) && CapsKept(s, s2, p)
    ensures forall r :: r in s.appends ==> AppendOk(s2, r)
    ensures forall y :: y in s.replies ==> ReplyOk(s2, y)
    ensures forall r :: r in s.snapshots ==> SnapshotOk(s2, r)
    ensures forall r1, r2 :: r1 in s.snapshots && r2 in s.snapshots ==> SnapshotPairOk(s2, r1, r2)
    ensures forall r :: r in s.installed ==> InstalledOk(s2, r)
  {
    hide NodesOk, Extends;
    FollowerExtends(s, s2, p);
    forall r | r in s.appends
      ensures AppendOk(s2, r)
    {
      assert AppendOk(s, r);
      BoundedFollower(s, s2, p, r.to, r.term, r.prev);
      AppendKept(s, s2, r);
    }
    forall y | y in s.replies
      ensures ReplyOk(s2, y)
    {
      assert ReplyOk(s, y);
      BoundedFollower(s, s2, p, y.request.to, y.request.term, if y.success then y.match_ else Max(y.match_, 1) - 1);
    }
    forall r | r in s.snapshots
      ensures SnapshotOk(s2, r)
    {
      assert SnapshotOk(s, r);
      FollowerSnapshot(s, s2, p, r);
    }
    forall r1, r2 | r1 in s.snapshots && r2 in s.snapshots
      ensures SnapshotPairOk(s2, r1, r2)
    {
      assert SnapshotPairOk(s, r1, r2);
    }
    forall r | r in s.installed
      ensures InstalledOk(s2, r)
    {
      assert InstalledOk(s, r);
    }
  }

  lemma FollowerSnapshot(s: State, s2: State, p: Id, r: SnapshotRequest)
    requires r in s.snapshots && SnapshotOk(s, r) && FollowerStep(s, s2, p) && CapsKept(s, s2, p)
    ensures SnapshotOk(s2, r)
  {
    hide Extends, Improves;
    FollowerExtends(s, s2, p);
    BoundedFollower(s, s2, p, r.to, r.term, r.Index());
    CommittedStays(s, s2, r.history, r.term, r.term);
    if s2.nodes[r.to].term <= r.term && s2.nodes[r.to].snap < r.Index() {
      if r.to != p {
        CappedSame(s, s2, r.to, r.term, r.Index());
      } else if r.term != s.nodes[p].term {
        assert CommitsUpTo(s2, p, r.term, r.Index());
      }
    }
  }

  // ---------------------------------------------------------------- pairs other than the leader of the term

  /** Replies that were added came from `p` in its own term. */
  ghost predicate AnswersOwn(s: State, s2: State, p: Id)
    requires p in s.nodes
  {
    forall y :: y in s2.replies && y !in s.replies ==> y.request.to == p && y.request.term == s.nodes[p].term
  }

  lemma FollowerOtherPair(s: State, s2: State, p: Id, l: Id, q: Id)
    requires FollowerStep(s, s2, p) && AnswersOwn(s, s2, p)
    requires l != p && PairOk(s, l, q) && (q != p || s.nodes[l].term != s.nodes[p].term)
    ensures PairOk(s2, l, q)
  {
    hide Improves, ProgressOk, SentOk, WaitingOk;
    FollowerExtends(s, s2, p);
    if q != p {
      assert Silent(s, s2, q, s.nodes[l].term);
      FollowerOtherProgress(s, s2, p, l, q);
      FollowerOtherSent(s, s2, p, l, q);
      WaitingView(s, s2, l, q);
    } else {
      FollowerOtherProgress(s, s2, p, l, q);
      FollowerOtherSent(s, s2, p, l, q);
      FollowerOtherWaiting(s, s2, p, l);
    }
  }

  lemma FollowerOtherProgress(s: State, s2: State, p: Id, l: Id, q: Id)
    requires FollowerStep(s, s2, p) && l != p && PairOk(s, l, q)
    requires q != p || s.nodes[l].term != s.nodes[p].term
    ensures ProgressOk(s2, l, q)
  {
    hide SentOk, WaitingOk;
    var n, t := s.nodes[l], s.nodes[l].term;
    BoundedFollower(s, s2, p, q, t, Max(NextIndex(n, q) - 1, n.snap));
    assert Ack(s2, q, t) == Ack(s, q, t);
  }

  lemma FollowerOtherSent(s: State, s2: State, p: Id, l: Id, q: Id)
    requires FollowerStep(s, s2, p) && AnswersOwn(s, s2, p) && l != p && PairOk(s, l, q)
    requires q != p || s.nodes[l].term != s.nodes[p].term
    ensures SentOk(s2, l, q)
  {
    hide ProgressOk, WaitingOk, Improves;
    var n, t := s.nodes[l], s.nodes[l].term;
    assert Ack(s2, q, t) == Ack(s, q, t);
    assert CommitsUpTo(s2, q, t, n.commit);
    forall a | a in s2.appends && a.to == q && a.term == t
      ensures PassedOk(s2, l, q, a)
    {
      assert PassedOk(s, l, q, a);
    }
    forall y | y in s2.replies && y.request.to == q && y.request.term == t && y.success
      ensures ConfirmedOk(s2, l, q, y)
    {
      assert ConfirmedOk(s, l, q, y);
    }
    forall r | r in s2.snapshots && r.to == q && r.term == t
      ensures ShippedOk(s2, l, q, r)
    {
      assert ShippedOk(s, l, q, r);
      if CommitsUpTo(s, q, t, n.snap) {
        assert CommitsUpTo(s2, q, t, n.snap);
      }
    }
    if NextIndex(n, q) <= n.snap && s2.nodes[q].term <= t && s2.nodes[q].snap < n.snap {
      if q != p {
        FollowerExtends(s, s2, p);
        CappedSame(s, s2, q, t, n.snap);
      } else {
        assert CommitsUpTo(s2, q, t, n.snap);
      }
    }
  }

  lemma FollowerOtherWaiting(s: State, s2: State, p: Id, l: Id)
    requires FollowerStep(s, s2, p) && l != p && PairOk(s, l, p) && s.nodes[l].term != s.nodes[p].term
    ensures WaitingOk(s2, l, p)
  {
    hide ProgressOk, SentOk, Improves;
    var n, t := s.nodes[l], s.nodes[l].term;
    if p in n.out && n.out[p].AppendRpc? {
      forall y | y in s2.replies && y.request == n.out[p].append && !y.success
        ensures RejectionOk(s2, l, p, y)
      {
      }
    }
  }

  // ---------------------------------------------------------------- the pair with the leader of the term

  lemma FollowerProgress(s: State, s2: State, p: Id, l: Id)
    requires FollowerStep(s, s2, p) && l != p && PairOk(s, l, p) && s.nodes[l].term == s.nodes[p].term
    requires s2.nodes[p].commit <= Max(s.nodes[p].commit, s.nodes[l].commit)
    ensures ProgressOk(s2, l, p)
  {
    hide SentOk, WaitingOk;
    var n, t := s.nodes[l], s.nodes[l].term;
    BoundedFollower(s, s2, p, p, t, Max(NextIndex(n, p) - 1, n.snap));
    assert Agree(s2.nodes[p].log, s.reigns[t].log, Matched(n, p));
  }

  lemma FollowerSent(s: State, s2: State, p: Id, l: Id)
    requires FollowerStep(s, s2, p) && AnswersOwn(s, s2, p)
    requires l != p && PairOk(s, l, p) && s.nodes[l].term == s.nodes[p].term
    requires Agree(s2.nodes[p].log, s.reigns[s.nodes[l].term].log, NextIndex(s.nodes[l], p) - 1)
             || (s2.nodes[p].log == s.nodes[p].log)
    requires forall y {:trigger ConfirmedOk(s2, l, p, y)} ::
               y in s2.replies && y !in s.replies && y.success ==> ConfirmedOk(s2, l, p, y)
    requires NextIndex(s.nodes[l], p) <= s.nodes[l].snap && s2.nodes[p].snap < s.nodes[l].snap ==>
               Capped(s2, p, s.nodes[l].term, s.nodes[l].snap)
    ensures SentOk(s2, l, p)
  {
    hide ProgressOk, WaitingOk, Improves;
    var n, t := s.nodes[l], s.nodes[l].term;
    assert CommitsUpTo(s2, p, t, n.commit);
    forall a | a in s2.appends && a.to == p && a.term == t
      ensures PassedOk(s2, l, p, a)
    {
      assert PassedOk(s, l, p, a);
    }
    forall y | y in s2.replies && y.request.to == p && y.request.term == t && y.success
      ensures ConfirmedOk(s2, l, p, y)
    {
      if y in s.replies {
        assert ConfirmedOk(s, l, p, y);
      }
    }
    forall r | r in s2.snapshots && r.to == p && r.term == t
      ensures ShippedOk(s2, l, p, r)
    {
      assert ShippedOk(s, l, p, r);
      if CommitsUpTo(s, p, t, n.snap) {
        assert CommitsUpTo(s2, p, t, n.snap);
      }
    }
  }
}
