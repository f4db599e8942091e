/** What every reachable cluster state satisfies. The families are kept apart so that each step
    only has to argue about the ones it touches. */
module Invariants {
  import opened Logs
  import opened Cluster

  // ---------------------------------------------------------------- commitment

  ghost predicate AckedBy(s: State, q: set<Id>, t: nat, k: nat) {
    Quorum(s.Ids(), q) && forall p :: p in q ==> Ack(s, p, t) >= k
  }

  /** Index `k` of term `t`'s leader was written in term `t` and is stored by a majority. */
  ghost predicate Chosen(s: State, t: nat, k: nat) {
    && t in s.reigns && s.reigns[t].base < k <= |s.reigns[t].log|
    && exists q :: AckedBy(s, q, t, k)
  }

  ghost predicate MayAck(s: State, q: set<Id>, t: nat, k: nat) {
    Quorum(s.Ids(), q) && forall p :: p in q ==> Ack(s, p, t) >= k || s.nodes[p].term <= t
  }

  /** A majority has acknowledged index `k` of term `t`, or could still do so. */
  ghost predicate Choosable(s: State, t: nat, k: nat) {
    exists q :: MayAck(s, q, t, k)
  }

  /** `log` is a prefix of what some term up to `t` committed. */
  ghost predicate IsCommitted(s: State, log: seq<Entry>, t: nat) {
    log == [] || exists u: nat, k: nat :: Commits(s, log, t, u, k)
  }

  ghost predicate Commits(s: State, log: seq<Entry>, t: nat, u: nat, k: nat) {
    u <= t && Chosen(s, u, k) && |log| <= k && log <= s.reigns[u].log
  }

  // ---------------------------------------------------------------- leaders

  ghost predicate EntryOk(s: State, t: nat, k: nat)
    requires t in s.reigns && 1 <= k <= |s.reigns[t].log|
  {
    var r := s.reigns[t];
    var u := TermAt(r.log, k);
    && 1 <= u <= t && u in s.reigns && Agree(r.log, s.reigns[u].log, k)
    && (u == t <==> k > r.base)
  }

  ghost predicate Sorted(log: seq<Entry>) {
    forall j, k :: 1 <= j <= k <= |log| ==> TermAt(log, j) <= TermAt(log, k)
  }

  ghost predicate VoterOk(s: State, q: Id, leader: Id, t: nat) {
    q in s.nodes && s.nodes[q].term >= t && VotedFor(s, q, leader, t)
  }

  ghost predicate ReignOk(s: State, t: nat)
    requires t in s.reigns
  {
    var r := s.reigns[t];
    && 1 <= t && r.leader in s.nodes && r.base <= |r.log| && Sorted(r.log)
    && (s.nodes[r.leader].term > t || (s.nodes[r.leader].term == t && s.nodes[r.leader].role != Candidate))
    && Quorum(s.Ids(), r.voters)
    && (forall q {:trigger VoterOk(s, q, r.leader, t)} :: q in r.voters ==> VoterOk(s, q, r.leader, t))
    && (forall k {:trigger EntryOk(s, t, k)} :: 1 <= k <= |r.log| ==> EntryOk(s, t, k))
  }

  ghost predicate ReignsOk(s: State) {
    forall t {:trigger ReignOk(s, t)} :: t in s.reigns ==> ReignOk(s, t)
  }

  // ---------------------------------------------------------------- nodes

  /** The entry stored at `k`, together with everything stored below it, comes from the leader
      that wrote it. */
  ghost predicate StoredOk(s: State, n: Node, k: nat)
    requires n.snap < k <= |n.log|
  {
    var u := TermAt(n.log, k);
    u in s.reigns && u <= n.term && k <= |s.reigns[u].log| && n.log[n.snap..k] == s.reigns[u].log[n.snap..k]
  }

  ghost predicate NodeOk(s: State, p: Id, n: Node) {
    && n.snap <= n.applied <= n.commit <= |n.log| && n.disk == n.applied
    && n.kv == Replay(n.log[..n.applied]) && n.image == Replay(n.log[..n.snap])
    && (forall k {:trigger StoredOk(s, n, k)} :: n.snap < k <= |n.log| ==> StoredOk(s, n, k))
    && IsCommitted(s, n.log[..n.commit], n.term)
    && (n.role == Leader ==>
          && n.term in s.reigns && s.reigns[n.term].leader == p && s.reigns[n.term].log == n.log
          && (|n.log| > s.reigns[n.term].base ==> Ack(s, p, n.term) >= |n.log|))
    && (n.role == Candidate ==> n.vote == Some(p))
  }

  ghost predicate NodesOk(s: State) {
    forall p {:trigger NodeOk(s, p, s.nodes[p])} :: p in s.nodes ==> NodeOk(s, p, s.nodes[p])
  }

  // ---------------------------------------------------------------- votes

  ghost predicate BallotOk(s: State, v: VoteRequest) {
    && v.candidate in s.nodes && 1 <= v.term <= s.nodes[v.candidate].term
    && (s.nodes[v.candidate].role == Candidate && s.nodes[v.candidate].term == v.term ==>
          v.lastIndex == |s.nodes[v.candidate].log| && v.lastTerm == LastTerm(s.nodes[v.candidate].log))
  }

  ghost predicate VoteOk(s: State, w: Vote) {
    && w.request in s.voteRequests && w.voter in s.nodes
    && s.nodes[w.voter].term >= w.request.term
    && (s.nodes[w.voter].term == w.request.term ==> s.nodes[w.voter].vote == Some(w.request.candidate))
  }

  /** The candidate's log position covers index `k` of term `t`. */
  predicate Covers(v: VoteRequest, t: nat, k: nat) {
    v.lastTerm > t || (v.lastTerm == t && v.lastIndex >= k)
  }

  /** A vote vouches for everything the voter acknowledged that may be committed. */
  ghost predicate Vouches(s: State, w: Vote, t: nat, k: nat)
    requires t in s.reigns
  {
    t < w.request.term && s.reigns[t].base < k <= Ack(s, w.voter, t) && Choosable(s, t, k)
    ==> Covers(w.request, t, k)
  }

  predicate OneBallot(v: VoteRequest, w: VoteRequest) {
    v.term == w.term && v.candidate == w.candidate ==> v == w
  }

  predicate OneVote(v: Vote, w: Vote) {
    v.voter == w.voter && v.request.term == w.request.term ==> v.request.candidate == w.request.candidate
  }

  ghost predicate VotesOk(s: State) {
    && (forall v {:trigger BallotOk(s, v)} :: v in s.voteRequests ==> BallotOk(s, v))
    && (forall v, w {:trigger OneBallot(v, w)} :: v in s.voteRequests && w in s.voteRequests ==> OneBallot(v, w))
    && (forall w {:trigger VoteOk(s, w)} :: w in s.votes ==> VoteOk(s, w))
    && (forall v, w {:trigger OneVote(v, w)} :: v in s.votes && w in s.votes ==> OneVote(v, w))
    && (forall w, t, k {:trigger Vouches(s, w, t, k)} :: w in s.votes && t in s.reigns ==> Vouches(s, w, t, k))
  }

  // ---------------------------------------------------------------- acknowledgements

  ghost predicate AckOk(s: State, q: Id, t: nat) {
    Ack(s, q, t) > 0 ==>
      q in s.nodes && t in s.reigns && Ack(s, q, t) <= |s.reigns[t].log| && s.nodes[q].term >= t
  }

  ghost predicate TermsFrom(log: seq<Entry>, k: nat, t: nat) {
    forall j :: k <= j <= |log| ==> TermAt(log, j) >= t
  }

  /** `q` still holds what it acknowledged, and nothing older above it. */
  ghost predicate Holds(s: State, q: Id, t: nat, k: nat)
    requires q in s.nodes && t in s.reigns
  {
    s.reigns[t].base < k <= Ack(s, q, t) && Choosable(s, t, k)
    ==> Agree(s.nodes[q].log, s.reigns[t].log, k) && TermsFrom(s.nodes[q].log, k, t)
  }

  ghost predicate AcksOk(s: State) {
    && (forall q, t :: AckOk(s, q, t))
    && (forall q, t, k {:trigger Holds(s, q, t, k)} :: q in s.nodes && t in s.reigns ==> Holds(s, q, t, k))
  }

  /** A later leader carries whatever an earlier term may have committed. */
  ghost predicate Carries(s: State, u: nat, t: nat, k: nat)
    requires u in s.reigns && t in s.reigns
  {
    t < u && s.reigns[t].base < k <= |s.reigns[t].log| && Choosable(s, t, k)
    ==> Agree(s.reigns[u].log, s.reigns[t].log, k)
  }

  ghost predicate Complete(s: State) {
    forall u, t, k {:trigger Carries(s, u, t, k)} :: u in s.reigns && t in s.reigns ==> Carries(s, u, t, k)
  }

  // ---------------------------------------------------------------- messages

  /** Where `p`'s log can leave the log of term `t`'s leader: at or below `x + 1`, or at or below
      the first index above `p`'s snapshot. */
  ghost predicate Bounded(s: State, p: Id, t: nat, x: nat)
    requires p in s.nodes && t in s.reigns
  {
    var n := s.nodes[p];
    && (n.term < t ==> s.reigns[t].base <= x)
    && (n.term == t && Agree(n.log, s.reigns[t].log, Max(x, n.snap) + 1) ==> n.log <= s.reigns[t].log)
  }

  ghost predicate Addressed(s: State, leader: Id, to: Id, t: nat, id: nat) {
    t in s.reigns && leader == s.reigns[t].leader && to in s.nodes && to != leader && id < s.calls
  }

  ghost predicate AppendOk(s: State, r: AppendRequest) {
    && Addressed(s, r.leader, r.to, r.term, r.id)
    && var log := s.reigns[r.term].log;
    && r.End() <= |log| && r.entries == log[r.prev..r.End()] && r.prevTerm == TermAt(log, r.prev)
    && r.commit <= |log| && IsCommitted(s, log[..r.commit], r.term)
    && (r.entries == [] ==> r.commit <= r.prev)
    && Bounded(s, r.to, r.term, r.prev)
  }

  ghost predicate ReplyOk(s: State, y: AppendReply) {
    && y.request in s.appends && y.request.to in s.nodes && y.request.term in s.reigns
    && s.nodes[y.request.to].term >= y.request.term
    && (y.success ==>
          && y.match_ == y.request.End()
          && Bounded(s, y.request.to, y.request.term, y.match_)
          && (s.nodes[y.request.to].term == y.request.term ==>
                Agree(s.nodes[y.request.to].log, s.reigns[y.request.term].log, y.match_)))
    && (!y.success ==> Bounded(s, y.request.to, y.request.term, Max(y.match_, 1) - 1))
  }

  /** Every append of term `t` to `p` carries a commit index of at most `x`. */
  ghost predicate CommitsUpTo(s: State, p: Id, t: nat, x: nat) {
    forall a :: a in s.appends && a.to == p && a.term == t ==> a.commit <= x
  }

  /** No append of term `t` sent to `p` so far can be accepted. */
  ghost predicate Stuck(s: State, p: Id, t: nat)
    requires p in s.nodes && t in s.reigns
  {
    && s.nodes[p].term == t
    && forall a :: a in s.appends && a.to == p && a.term == t ==>
         !Agree(s.nodes[p].log, s.reigns[t].log, a.prev)
  }

  /** Nothing lets `p` commit past `x` before it installs a snapshot. */
  ghost predicate Capped(s: State, p: Id, t: nat, x: nat)
    requires p in s.nodes && t in s.reigns
  {
    && (s.nodes[p].term == t ==> s.nodes[p].commit <= x)
    && (CommitsUpTo(s, p, t, x) || Stuck(s, p, t))
  }

  ghost predicate SnapshotOk(s: State, r: SnapshotRequest) {
    && Addressed(s, r.leader, r.to, r.term, r.id)
    && 1 <= r.Index() && r.history <= s.reigns[r.term].log
    && IsCommitted(s, r.history, r.term) && r.image == Replay(r.history)
    && Bounded(s, r.to, r.term, r.Index())
    && (s.nodes[r.to].term <= r.term && s.nodes[r.to].snap < r.Index() ==>
          Capped(s, r.to, r.term, r.Index()))
  }

  /** Of two snapshots sent to a node, the later one is ahead of every commit index announced. */
  ghost predicate SnapshotPairOk(s: State, r1: SnapshotRequest, r2: SnapshotRequest)
  {
    r1.to == r2.to && r1.to in s.nodes && r1.term == r2.term && r1.Index() < r2.Index()
    && s.nodes[r1.to].term <= r1.term && s.nodes[r1.to].snap < r1.Index()
    ==> CommitsUpTo(s, r1.to, r1.term, r2.Index())
  }

  ghost predicate InstalledOk(s: State, r: SnapshotRequest) {
    && r in s.snapshots && r.to in s.nodes
    && s.nodes[r.to].term >= r.term && s.nodes[r.to].snap >= r.Index()
  }

  ghost predicate MessagesOk(s: State) {
    && (forall r {:trigger AppendOk(s, r)} :: r in s.appends ==> AppendOk(s, r))
    && (forall y {:trigger ReplyOk(s, y)} :: y in s.replies ==> ReplyOk(s, y))
    && (forall r {:trigger SnapshotOk(s, r)} :: r in s.snapshots ==> SnapshotOk(s, r))
    && (forall r1, r2 {:trigger SnapshotPairOk(s, r1, r2)} :: r1 in s.snapshots && r2 in s.snapshots ==> SnapshotPairOk(s, r1, r2))
    && (forall r {:trigger InstalledOk(s, r)} :: r in s.installed ==> InstalledOk(s, r))
  }

  // ---------------------------------------------------------------- a leader and one peer

  /** Indices up to `x` written in term `t` are acknowledged by `p` or committed already. */
  ghost predicate AckedUpTo(s: State, p: Id, t: nat, x: nat, commit: nat)
    requires t in s.reigns
  {
    x <= s.reigns[t].base || x <= Ack(s, p, t) || x <= commit
  }

  ghost predicate ProgressOk(s: State, l: Id, p: Id)
    requires l in s.nodes && p in s.nodes && s.nodes[l].term in s.reigns
  {
    var n, m, t := s.nodes[l], s.nodes[p], s.nodes[l].term;
    var log := s.reigns[t].log;
    var next := NextIndex(n, p);
    && Bounded(s, p, t, Max(next - 1, n.snap))
    && (m.term < t ==> next <= s.reigns[t].base + 1)
    && (m.term == t ==> m.commit <= Max(s.reigns[t].base, n.commit) && m.commit <= Max(n.commit, next))
    && Matched(n, p) <= |log| && (m.term <= t ==> Matched(n, p) < next || Matched(n, p) < n.snap)
    && (Matched(n, p) > 0 ==> m.term >= t)
    && (m.term == t ==> Agree(m.log, log, Matched(n, p)))
    && AckedUpTo(s, p, t, Matched(n, p), n.commit)
  }

  /** The leader never moves past an append that could still be accepted without the follower
      having confirmed the position it moves to. */
  ghost predicate PassedOk(s: State, l: Id, p: Id, a: AppendRequest)
    requires l in s.nodes && p in s.nodes && s.nodes[l].term in s.reigns
  {
    var n, m, t := s.nodes[l], s.nodes[p], s.nodes[l].term;
    var log := s.reigns[t].log;
    m.term == t && a.prev < NextIndex(n, p) - 1 ==>
      !Agree(m.log, log, a.prev) || Agree(m.log, log, NextIndex(n, p) - 1)
  }

  ghost predicate ConfirmedOk(s: State, l: Id, p: Id, y: AppendReply)
    requires l in s.nodes && s.nodes[l].term in s.reigns
  {
    AckedUpTo(s, p, s.nodes[l].term, y.match_, s.nodes[l].commit)
  }

  ghost predicate SentOk(s: State, l: Id, p: Id)
    requires l in s.nodes && p in s.nodes && s.nodes[l].term in s.reigns
  {
    var n, m, t := s.nodes[l], s.nodes[p], s.nodes[l].term;
    var next := NextIndex(n, p);
    && CommitsUpTo(s, p, t, n.commit)
    && (forall a {:trigger PassedOk(s, l, p, a)} :: a in s.appends && a.to == p && a.term == t ==> PassedOk(s, l, p, a))
    && (forall y {:trigger ConfirmedOk(s, l, p, y)} ::
          y in s.replies && y.request.to == p && y.request.term == t && y.success ==> ConfirmedOk(s, l, p, y))
    && (forall r {:trigger ShippedOk(s, l, p, r)} :: r in s.snapshots && r.to == p && r.term == t ==> ShippedOk(s, l, p, r))
    && (next <= n.snap && m.term <= t && m.snap < n.snap ==> Capped(s, p, t, n.snap))
  }

  ghost predicate ShippedOk(s: State, l: Id, p: Id, r: SnapshotRequest)
    requires l in s.nodes && p in s.nodes && s.nodes[l].term in s.reigns
  {
    var n, m, t := s.nodes[l], s.nodes[p], s.nodes[l].term;
    && r.Index() <= n.snap
    && (m.term <= t && m.snap < r.Index() ==>
          && NextIndex(n, p) <= r.Index() && Matched(n, p) < r.Index()
          && (r.Index() < n.snap ==> CommitsUpTo(s, p, t, n.snap)))
  }

  /** A rejection the leader has yet to read still describes the follower. */
  ghost predicate RejectionOk(s: State, l: Id, p: Id, y: AppendReply)
    requires l in s.nodes && p in s.nodes && s.nodes[l].term in s.reigns
  {
    s.nodes[p].term == s.nodes[l].term ==>
      || y.request.prev < y.match_ <= s.nodes[p].snap
      || (Stuck(s, p, s.nodes[l].term) && |s.nodes[p].log| <= y.match_)
  }

  ghost predicate WaitingOk(s: State, l: Id, p: Id)
    requires l in s.nodes && p in s.nodes && s.nodes[l].term in s.reigns
  {
    var n, m, t := s.nodes[l], s.nodes[p], s.nodes[l].term;
    p in n.out ==>
      match n.out[p]
      case AppendRpc(a) =>
        && a in s.appends && a.to == p && a.term == t && NextIndex(n, p) == a.prev + 1
        && (forall r :: r in s.snapshots && r.to == p && r.term == t && m.term <= t ==> r.Index() <= m.snap)
        && (forall y {:trigger RejectionOk(s, l, p, y)} :: y in s.replies && y.request == a && !y.success ==> RejectionOk(s, l, p, y))
      case SnapshotRpc(r) =>
        r in s.snapshots && r.to == p && r.term == t && NextIndex(n, p) <= r.Index() <= n.snap
  }

  ghost predicate PairOk(s: State, l: Id, p: Id) {
    && l in s.nodes && p in s.nodes && s.nodes[l].term in s.reigns
    && ProgressOk(s, l, p) && SentOk(s, l, p) && WaitingOk(s, l, p)
  }

  ghost predicate PairsOk(s: State) {
    forall l, p {:trigger PairOk(s, l, p)} :: IsLeader(s, l) && IsPeer(s, l, p) ==> PairOk(s, l, p)
  }

  /** Every reachable state satisfies this. */
  ghost predicate Inv(s: State) {
    && s.nodes != map[]
    && ReignsOk(s) && NodesOk(s) && VotesOk(s) && AcksOk(s) && Complete(s)
    && MessagesOk(s) && PairsOk(s)
  }
}
