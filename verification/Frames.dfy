/** Preservation arguments shared by steps that leave most of the state alone. */
module Frames {
  import opened Logs
  import opened Cluster
  import opened Invariants
  import opened Consequences

  // ---------------------------------------------------------------- steps that keep logs, terms and votes

  /** Reigns recorded so far are exactly as before. */
  ghost predicate KeepsReigns(s: State, s2: State) {
    forall t :: t in s.reigns ==> t in s2.reigns && s2.reigns[t] == s.reigns[t]
  }

  ghost predicate SameLogs(s: State, s2: State) {
    && Extends(s, s2) && s2.reigns == s.reigns && s2.acks == s.acks
    && forall p :: p in s.nodes ==> s2.nodes[p].log == s.nodes[p].log
  }

  ghost predicate SameCore(s: State, s2: State) {
    && SameLogs(s, s2)
    && s2.votes == s.votes && s2.voteRequests == s.voteRequests
    && forall p :: p in s.nodes ==>
         && s2.nodes[p].term == s.nodes[p].term && s2.nodes[p].vote == s.nodes[p].vote
         && (s2.nodes[p].role == s.nodes[p].role || s2.nodes[p].role == Follower)
  }

  lemma CoreKept(s: State, s2: State)
    requires ReignsOk(s) && VotesOk(s) && AcksOk(s) && Complete(s) && SameCore(s, s2)
    ensures ReignsOk(s2) && VotesOk(s2) && AcksOk(s2) && Complete(s2)
  {
    hide AcksOk, Complete;
    ReignsKept(s, s2);
    VotesKept(s, s2);
    AcksKept(s, s2);
    CompleteKept(s, s2);
  }

  lemma ReignsKept(s: State, s2: State)
    requires ReignsOk(s) && Extends(s, s2) && s2.reigns == s.reigns
    requires forall p :: p in s.nodes && s2.nodes[p].term == s.nodes[p].term && s2.nodes[p].role == Candidate ==>
               s.nodes[p].role == Candidate
    ensures ReignsOk(s2)
  {
    forall t | t in s2.reigns
      ensures ReignOk(s2, t)
    {
      ReignKept(s, s2, t);
    }
  }

  lemma ReignKept(s: State, s2: State, t: nat)
    requires ReignsOk(s) && Extends(s, s2) && t in s.reigns && KeepsReigns(s, s2)
    requires forall p :: p in s.nodes && s2.nodes[p].term == s.nodes[p].term && s2.nodes[p].role == Candidate ==>
               s.nodes[p].role == Candidate
    ensures ReignOk(s2, t)
  {
    assert ReignOk(s, t);
    forall q | q in s2.reigns[t].voters
      ensures VoterOk(s2, q, s2.reigns[t].leader, t)
    {
      assert VoterOk(s, q, s.reigns[t].leader, t);
    }
    forall k | 1 <= k <= |s2.reigns[t].log|
      ensures EntryOk(s2, t, k)
    {
      assert EntryOk(s, t, k);
    }
  }

  lemma VotesKept(s: State, s2: State)
    requires VotesOk(s) && SameCore(s, s2)
    ensures VotesOk(s2)
  {
    forall v | v in s2.voteRequests
      ensures BallotOk(s2, v)
    {
      assert BallotOk(s, v);
    }
    forall w | w in s2.votes
      ensures VoteOk(s2, w)
    {
      assert VoteOk(s, w);
    }
    forall w, t, k | w in s2.votes && t in s2.reigns
      ensures Vouches(s2, w, t, k)
    {
      VouchesKept(s, s2, w, t, k);
    }
  }

  lemma VouchesKept(s: State, s2: State, w: Vote, t: nat, k: nat)
    requires VotesOk(s) && Extends(s, s2)
    requires w in s.votes && t in s.reigns
    requires t < w.request.term ==> Ack(s2, w.voter, t) == Ack(s, w.voter, t)
    ensures t in s2.reigns && Vouches(s2, w, t, k)
  {
    assert Vouches(s, w, t, k);
    if Choosable(s2, t, k) {
      ChoosableEarlier(s, s2, t, k);
    }
  }

  lemma AcksKept(s: State, s2: State)
    requires AcksOk(s) && SameLogs(s, s2)
    ensures AcksOk(s2)
  {
    forall q, t
      ensures AckOk(s2, q, t)
    {
      assert AckOk(s, q, t);
    }
    forall q, t, k | q in s2.nodes && t in s2.reigns
      ensures Holds(s2, q, t, k)
    {
      HoldsKept(s, s2, q, t, k);
    }
  }

  lemma HoldsKept(s: State, s2: State, q: Id, t: nat, k: nat)
    requires AcksOk(s) && Extends(s, s2) && q in s.nodes && t in s.reigns
    requires s2.nodes[q].log == s.nodes[q].log && Ack(s2, q, t) == Ack(s, q, t)
    ensures Holds(s2, q, t, k)
  {
    assert Holds(s, q, t, k);
    if Choosable(s2, t, k) && s2.reigns[t].base < k <= Ack(s2, q, t) {
      ChoosableEarlier(s, s2, t, k);
      AgreeGrow(s.nodes[q].log, s.reigns[t].log, s2.reigns[t].log, k);
    }
  }

  lemma CompleteKept(s: State, s2: State)
    requires Complete(s) && Extends(s, s2) && s2.reigns == s.reigns
    ensures Complete(s2)
  {
    forall u, t, k | u in s2.reigns && t in s2.reigns
      ensures Carries(s2, u, t, k)
    {
      assert Carries(s, u, t, k);
      if Choosable(s2, t, k) {
        ChoosableEarlier(s, s2, t, k);
      }
    }
  }

  // ---------------------------------------------------------------- nodes

  lemma NodeKept(s: State, s2: State, p: Id, n: Node)
    requires NodeOk(s, p, n) && Extends(s, s2)
    requires n.role == Leader ==> n.term in s.reigns && s2.reigns[n.term].log == s.reigns[n.term].log
    ensures NodeOk(s2, p, n)
  {
    hide IsCommitted;
    forall k | n.snap < k <= |n.log|
      ensures StoredOk(s2, n, k)
    {
      assert StoredOk(s, n, k);
    }
    CommittedStays(s, s2, n.log[..n.commit], n.term, n.term);
    assert AckGrows(s, s2, p, n.term);
  }

  /** All nodes but `p` are as before; `p` is shown fine separately. */
  lemma NodesKept(s: State, s2: State, p: Id)
    requires NodesOk(s) && Extends(s, s2) && p in s.nodes
    requires forall q :: q in s.nodes && q != p ==> s2.nodes[q] == s.nodes[q]
    requires forall q :: q in s.nodes && q != p && s.nodes[q].role == Leader ==>
               s.nodes[q].term in s.reigns && s2.reigns[s.nodes[q].term].log == s.reigns[s.nodes[q].term].log
    requires NodeOk(s2, p, s2.nodes[p])
    ensures NodesOk(s2)
  {
    forall q | q in s2.nodes
      ensures NodeOk(s2, q, s2.nodes[q])
    {
      if q != p {
        NodeKept(s, s2, q, s.nodes[q]);
      }
    }
  }

  // ---------------------------------------------------------------- messages when nodes change quietly

  /** Seen by the leader it follows, the node only compacted or forgot what it committed. */
  predicate QuietNode(n: Node, n2: Node) {
    && n2.term == n.term && n2.log == n.log && n.snap <= n2.snap
    && (n2.commit <= n.commit || n.role == Leader)
  }

  /** A node that leads a term follows nobody in it. */
  lemma FollowsOther(s: State, p: Id, t: nat)
    requires NodesOk(s) && p in s.nodes && t in s.reigns && p != s.reigns[t].leader
    ensures s.nodes[p].role == Leader ==> s.nodes[p].term != t
  {
    assert NodeOk(s, p, s.nodes[p]);
  }

  /** No append of term `t` was sent to `p`. */
  ghost predicate NoAppend(s: State, s2: State, p: Id, t: nat) {
    forall a :: a in s2.appends && a.to == p && a.term == t ==> a in s.appends
  }

  /** Neither `p` nor the leader of `t` said anything new to the other. */
  ghost predicate Silent(s: State, s2: State, p: Id, t: nat) {
    && NoAppend(s, s2, p, t)
    && (forall y :: y in s2.replies && y.request.to == p && y.request.term == t ==> y in s.replies)
    && (forall r :: r in s2.snapshots && r.to == p && r.term == t ==> r in s.snapshots)
  }

  ghost predicate Quiet(s: State, s2: State) {
    && Extends(s, s2) && KeepsReigns(s, s2)
    && forall p :: p in s.nodes ==> QuietNode(s.nodes[p], s2.nodes[p])
  }

  /** A step that changes one node quietly and only adds calls and answers. */
  lemma QuietByNode(s: State, s2: State, x: Id)
    requires x in s.nodes && x in s2.nodes && s2.nodes == s.nodes[x := s2.nodes[x]]
    requires QuietNode(s.nodes[x], s2.nodes[x]) && s2.nodes[x].vote == s.nodes[x].vote
    requires s2.nodes[x].role == s.nodes[x].role || s2.nodes[x].role == Follower
    requires s2.reigns == s.reigns && s2.acks == s.acks
    requires s2.voteRequests == s.voteRequests && s2.votes == s.votes
    requires s.appends <= s2.appends && s.replies <= s2.replies && s.snapshots <= s2.snapshots
    requires s.installed <= s2.installed && s.calls <= s2.calls
    ensures SameCore(s, s2) && Quiet(s, s2)
  {
    hide Extends;
    ExtendsByNode(s, s2, x);
  }

  lemma BoundedQuiet(s: State, s2: State, p: Id, t: nat, x: nat)
    requires p in s.nodes && t in s.reigns && Bounded(s, p, t, x) && Extends(s, s2)
    requires KeepsReigns(s, s2) && QuietNode(s.nodes[p], s2.nodes[p])
    ensures Bounded(s2, p, t, x)
  {
    var n, n2 := s.nodes[p], s2.nodes[p];
    if n2.term == t && Agree(n2.log, s.reigns[t].log, Max(x, n2.snap) + 1) {
      AgreeLower(n.log, s.reigns[t].log, Max(x, n2.snap) + 1, Max(x, n.snap) + 1);
    }
  }

  lemma BoundedWeaken(s: State, p: Id, t: nat, x: nat, y: nat)
    requires p in s.nodes && t in s.reigns && Bounded(s, p, t, x) && x <= y
    ensures Bounded(s, p, t, y)
  {
    var n := s.nodes[p];
    if n.term == t && Agree(n.log, s.reigns[t].log, Max(y, n.snap) + 1) {
      AgreeLower(n.log, s.reigns[t].log, Max(y, n.snap) + 1, Max(x, n.snap) + 1);
    }
  }

  lemma AppendKept(s: State, s2: State, r: AppendRequest)
    requires AppendOk(s, r) && Extends(s, s2) && Bounded(s2, r.to, r.term, r.prev)
    ensures AppendOk(s2, r)
  {
    var log, log2 := s.reigns[r.term].log, s2.reigns[r.term].log;
    assert log2[r.prev..r.End()] == log[r.prev..r.End()];
    assert log2[..r.commit] == log[..r.commit];
    CommittedStays(s, s2, log[..r.commit], r.term, r.term);
  }

  lemma CappedQuiet(s: State, s2: State, p: Id, t: nat, x: nat)
    requires p in s.nodes && t in s.reigns && Capped(s, p, t, x) && Quiet(s, s2) && NoAppend(s, s2, p, t)
    requires s.nodes[p].role == Leader ==> s.nodes[p].term != t
    ensures Capped(s2, p, t, x)
  {
    if CommitsUpTo(s, p, t, x) {
      assert CommitsUpTo(s2, p, t, x);
    } else {
      assert Stuck(s2, p, t);
    }
  }

  /** The snapshot is out of date already, or no append followed it. */
  ghost predicate Undisturbed(s: State, s2: State, r: SnapshotRequest)
    requires r.to in s.nodes
  {
    s.nodes[r.to].term > r.term || s.nodes[r.to].snap >= r.Index() || NoAppend(s, s2, r.to, r.term)
  }

  /** Messages sent before a quiet step stay fine. */
  lemma MessagesQuiet(s: State, s2: State)
    requires NodesOk(s) && MessagesOk(s) && Quiet(s, s2)
    requires forall r :: r in s.snapshots && r.to in s.nodes ==> Undisturbed(s, s2, r)
    ensures forall r :: r in s.appends ==> AppendOk(s2, r)
    ensures forall y :: y in s.replies ==> ReplyOk(s2, y)
    ensures forall r :: r in s.snapshots ==> SnapshotOk(s2, r)
    ensures forall r1, r2 :: r1 in s.snapshots && r2 in s.snapshots ==> SnapshotPairOk(s2, r1, r2)
    ensures forall r :: r in s.installed ==> InstalledOk(s2, r)
  {
    hide NodesOk, IsCommitted, Bounded, Capped;
    forall r | r in s.appends
      ensures AppendOk(s2, r)
    {
      assert AppendOk(s, r);
      BoundedQuiet(s, s2, r.to, r.term, r.prev);
      AppendKept(s, s2, r);
    }
    forall y | y in s.replies
      ensures ReplyOk(s2, y)
    {
      assert ReplyOk(s, y);
      BoundedQuiet(s, s2, y.request.to, y.request.term, if y.success then y.match_ else Max(y.match_, 1) - 1);
    }
    forall r | r in s.snapshots
      ensures SnapshotOk(s2, r)
    {
      SnapshotQuiet(s, s2, r);
    }
    forall r1, r2 | r1 in s.snapshots && r2 in s.snapshots
      ensures SnapshotPairOk(s2, r1, r2)
    {
      assert SnapshotPairOk(s, r1, r2);
      assert SnapshotOk(s, r1);
    }
    forall r | r in s.installed
      ensures InstalledOk(s2, r)
    {
      assert InstalledOk(s, r);
    }
  }

  lemma SnapshotQuiet(s: State, s2: State, r: SnapshotRequest)
    requires NodesOk(s) && SnapshotOk(s, r) && Quiet(s, s2) && Undisturbed(s, s2, r)
    ensures SnapshotOk(s2, r)
  {
    FollowsOther(s, r.to, r.term);
    BoundedQuiet(s, s2, r.to, r.term, r.Index());
    CommittedStays(s, s2, r.history, r.term, r.term);
    if s2.nodes[r.to].term <= r.term && s2.nodes[r.to].snap < r.Index() {
      CappedQuiet(s, s2, r.to, r.term, r.Index());
    }
  }

  // ---------------------------------------------------------------- pairs when nothing is sent

  /** `l` keeps its place, and no message it relies on is new. */
  ghost predicate SamePair(s: State, s2: State, l: Id, p: Id)
  {
    && Quiet(s, s2) && l in s.nodes && p in s.nodes && s2.nodes[l] == s.nodes[l]
    && s.nodes[l].term in s.reigns && Silent(s, s2, p, s.nodes[l].term)
    && (s.nodes[p].role == Leader ==> s.nodes[p].term != s.nodes[l].term)
  }

  lemma PairQuiet(s: State, s2: State, l: Id, p: Id)
    requires SamePair(s, s2, l, p) && PairOk(s, l, p)
    ensures PairOk(s2, l, p)
  {
    ProgressQuiet(s, s2, l, p);
    SentQuiet(s, s2, l, p);
    WaitingQuiet(s, s2, l, p);
  }

  lemma ProgressQuiet(s: State, s2: State, l: Id, p: Id)
    requires SamePair(s, s2, l, p) && ProgressOk(s, l, p)
    ensures ProgressOk(s2, l, p)
  {
    var n, t := s.nodes[l], s.nodes[l].term;
    BoundedQuiet(s, s2, p, t, Max(NextIndex(n, p) - 1, n.snap));
    assert AckGrows(s, s2, p, t);
  }

  lemma SentQuiet(s: State, s2: State, l: Id, p: Id)
    requires SamePair(s, s2, l, p) && SentOk(s, l, p)
    ensures SentOk(s2, l, p)
  {
    var n, m, m2, t := s.nodes[l], s.nodes[p], s2.nodes[p], s.nodes[l].term;
    assert AckGrows(s, s2, p, t);
    forall a | a in s2.appends && a.to == p && a.term == t
      ensures PassedOk(s2, l, p, a)
    {
      assert PassedOk(s, l, p, a);
    }
    assert CommitsUpTo(s2, p, t, n.commit);
    forall y | y in s2.replies && y.request.to == p && y.request.term == t && y.success
      ensures ConfirmedOk(s2, l, p, y)
    {
      assert ConfirmedOk(s, l, p, y);
    }
    forall r | r in s2.snapshots && r.to == p && r.term == t
      ensures ShippedOk(s2, l, p, r)
    {
      assert ShippedOk(s, l, p, r);
      if CommitsUpTo(s, p, t, n.snap) {
        assert CommitsUpTo(s2, p, t, n.snap);
      }
    }
    if NextIndex(n, p) <= n.snap && m2.term <= t && m2.snap < n.snap {
      CappedQuiet(s, s2, p, t, n.snap);
    }
  }

  lemma WaitingQuiet(s: State, s2: State, l: Id, p: Id)
    requires SamePair(s, s2, l, p) && WaitingOk(s, l, p)
    ensures WaitingOk(s2, l, p)
  {
    var n, t := s.nodes[l], s.nodes[l].term;
    if p in n.out && n.out[p].AppendRpc? {
      forall y | y in s2.replies && y.request == n.out[p].append && !y.success
        ensures RejectionOk(s2, l, p, y)
      {
        assert RejectionOk(s, l, p, y);
        if s.nodes[p].term == t && Stuck(s, p, t) {
          assert Stuck(s2, p, t);
        }
      }
    }
  }

  /** Pairs led by any node but the one that changed. */
  lemma PairsOfOthers(s: State, s2: State, x: Id)
    requires NodesOk(s) && PairsOk(s) && Quiet(s, s2)
    requires forall q :: q in s.nodes && q != x ==> s2.nodes[q] == s.nodes[q]
    requires forall l, p :: l != x && IsLeader(s, l) && IsPeer(s, l, p) ==> Silent(s, s2, p, s.nodes[l].term)
    ensures forall l, p {:trigger PairOk(s2, l, p)} ::
              l != x && IsLeader(s2, l) && IsPeer(s2, l, p) ==> PairOk(s2, l, p)
  {
    forall l, p | l != x && IsLeader(s2, l) && IsPeer(s2, l, p)
      ensures PairOk(s2, l, p)
    {
      assert PairOk(s, l, p);
      assert NodeOk(s, l, s.nodes[l]);
      FollowsOther(s, p, s.nodes[l].term);
      PairQuiet(s, s2, l, p);
    }
  }

  /** A step that changes one node quietly, sends nothing and leaves no leader behind it. */
  lemma QuietStep(s: State, s2: State, x: Id)
    requires Inv(s) && SameCore(s, s2) && Quiet(s, s2) && x in s.nodes
    requires s2.appends == s.appends && s2.replies == s.replies && s2.snapshots == s.snapshots && s2.installed == s.installed
    requires forall q :: q in s.nodes && q != x ==> s2.nodes[q] == s.nodes[q]
    requires NodeOk(s2, x, s2.nodes[x])
    requires IsLeader(s2, x) ==> forall p {:trigger PairOk(s2, x, p)} :: IsPeer(s2, x, p) ==> PairOk(s2, x, p)
    ensures Inv(s2)
  {
    hide ReignsOk, VotesOk, AcksOk, Complete;
    hide PairOk, NodeOk, AppendOk, ReplyOk, SnapshotOk, SnapshotPairOk, InstalledOk;
    CoreKept(s, s2);
    LeadersInReigns(s);
    NodesKept(s, s2, x);
    MessagesQuiet(s, s2);
    PairsOfOthers(s, s2, x);
  }

  lemma LeadersInReigns(s: State)
    requires NodesOk(s)
    ensures forall q :: q in s.nodes && s.nodes[q].role == Leader ==> s.nodes[q].term in s.reigns
  {
    forall q | q in s.nodes && s.nodes[q].role == Leader
      ensures s.nodes[q].term in s.reigns
    {
      assert NodeOk(s, q, s.nodes[q]);
    }
  }
}
