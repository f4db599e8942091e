module Cluster {
  // The cluster as a transition system: one record per node, every message ever sent, and a
  // history of who led which term with which log.
  //
  // A node's `log` is its whole log. Entries at or below `snap` are no longer stored; they stay
  // in the record so that properties can speak about them, and no step reads their commands.

  import opened Logs

  type Id = string

  /** Entries that travel in one AppendEntries call. */
  const BATCH: nat := 128

  datatype Role = Follower | Candidate | Leader

  datatype VoteRequest = VoteRequest(term: nat, candidate: Id, lastIndex: nat, lastTerm: nat)

  /** `voter` granted `request`. A candidate's vote for itself is recorded in the same way. */
  datatype Vote = Vote(request: VoteRequest, voter: Id)

  /** `id` numbers the call, so that a reply belongs to exactly one call. */
  datatype AppendRequest = AppendRequest(id: nat, term: nat, leader: Id, to: Id, prev: nat,
                                         prevTerm: nat, entries: seq<Entry>, commit: nat)
  {
    /** The last index the request covers. */
    function End(): nat { prev + |entries| }
  }

  datatype AppendReply = AppendReply(request: AppendRequest, success: bool, match_: nat)

  /** `history` is the log the snapshot stands for; only its length, its last term and `image`
      travel. */
  datatype SnapshotRequest = SnapshotRequest(id: nat, term: nat, leader: Id, to: Id,
                                             history: seq<Entry>, image: KV)
  {
    function Index(): nat { |history| }
  }

  /** The call a leader is waiting on. */
  datatype Rpc = AppendRpc(append: AppendRequest) | SnapshotRpc(snapshot: SnapshotRequest)

  /** `applied` is the in-memory position, `disk` the one stored with the state machine `kv`;
      `image` is the stored snapshot. `next` and `matched` are the leader's view of its peers and
      `out` the call in flight to each of them. */
  datatype Node = Node(role: Role, term: nat, vote: Option<Id>, log: seq<Entry>, snap: nat,
                       commit: nat, applied: nat, disk: nat, kv: KV, image: KV,
                       next: map<Id, nat>, matched: map<Id, nat>, out: map<Id, Rpc>)

  /** The leadership of one term: who led, the length of the log it was elected with, the log it
      built, and the votes that elected it. */
  datatype Reign = Reign(leader: Id, base: nat, log: seq<Entry>, voters: set<Id>)

  datatype State = State(nodes: map<Id, Node>,
                         voteRequests: set<VoteRequest>, votes: set<Vote>,
                         appends: set<AppendRequest>, replies: set<AppendReply>,
                         snapshots: set<SnapshotRequest>, installed: set<SnapshotRequest>,
                         calls: nat,
                         reigns: map<nat, Reign>, acks: map<(Id, nat), nat>)
  {
    function Ids(): set<Id> { nodes.Keys }
  }

  /** More than half of the members. */
  predicate Quorum(ids: set<Id>, q: set<Id>) {
    q <= ids && |q| >= |ids| / 2 + 1
  }

  /** The highest index above its own snapshot that `q` ever acknowledged to the leader of `t`. */
  function Ack(s: State, q: Id, t: nat): nat {
    if (q, t) in s.acks then s.acks[(q, t)] else 0
  }

  // ---------------------------------------------------------------- node level decisions

  function NextIndex(n: Node, p: Id): nat {
    if p in n.next then Max(n.next[p], 1) else 1
  }

  function Matched(n: Node, p: Id): nat {
    if p in n.matched then n.matched[p] else 0
  }

  /** The candidate's log is at least as complete as ours. */
  predicate UpToDate(r: VoteRequest, log: seq<Entry>) {
    r.lastTerm > LastTerm(log) || (r.lastTerm == LastTerm(log) && r.lastIndex >= |log|)
  }

  function NextAfterRejection(current: nat, hint: nat): (next: nat)
    ensures 1 <= next <= Max(current, hint + 1)
  {
    if hint >= current then hint + 1
    else if current <= 1 then 1
    else Max(Min(current - 1, hint + 1), 1)
  }

  /** The consistency check at the previous position. */
  predicate Matches(n: Node, r: AppendRequest) {
    n.snap <= r.prev <= |n.log| && TermAt(n.log, r.prev) == r.prevTerm
  }

  /** The commit index after hearing `leaderCommit` with a log of length `last`. */
  function FollowCommit(commit: nat, leaderCommit: nat, last: nat): nat {
    if leaderCommit <= commit then commit else Min(leaderCommit, last)
  }

  function Batch(log: seq<Entry>, prev: nat): seq<Entry>
    requires prev <= |log|
  {
    log[prev..Min(prev + BATCH, |log|)]
  }

  /** The nodes that store index `k` as far as leader `l` knows, itself included. */
  function Replicas(ids: set<Id>, l: Id, n: Node, k: nat): set<Id> {
    set p | p in ids && (p == l || Matched(n, p) >= k)
  }

  /** The log after installing a snapshot of `history`: whatever lies above it is kept. */
  function Overlay(log: seq<Entry>, history: seq<Entry>): seq<Entry> {
    history + (if |log| > |history| then log[|history|..] else [])
  }

  // ---------------------------------------------------------------- steps

  datatype Action =
    | BecomeCandidate(c: Id)
    | ObserveTerm(p: Id, t: nat)
    | StepDown(p: Id)
    | GrantVote(p: Id, ballot: VoteRequest)
    | BecomeLeader(c: Id, voters: set<Id>)
    | Propose(l: Id, command: Command)
    | SendAppend(l: Id, p: Id)
    | LowerNext(l: Id, p: Id)
    | RejectAppend(p: Id, append: AppendRequest)
    | CutConflict(p: Id, append: AppendRequest)
    | AcceptAppend(p: Id, append: AppendRequest)
    | ApplyNext(p: Id)
    | SkipCompacted(p: Id)
    | Compact(p: Id)
    | RecordReply(l: Id, p: Id, reply: AppendReply)
    | AdvanceCommit(l: Id, k: nat)
    | SendSnapshot(l: Id, p: Id)
    | InstallSnapshot(p: Id, snapshot: SnapshotRequest)
    | RecordInstall(l: Id, p: Id, snapshot: SnapshotRequest)
    | GiveUp(l: Id, p: Id)
    | Restart(p: Id)

  predicate IsLeader(s: State, l: Id) {
    l in s.nodes && s.nodes[l].role == Leader
  }

  predicate IsPeer(s: State, l: Id, p: Id) {
    p in s.nodes && p != l
  }

  /** `p` follows the term of the sender and is the addressee. */
  predicate Receives(s: State, p: Id, to: Id, term: nat) {
    p in s.nodes && p == to && s.nodes[p].role == Follower && s.nodes[p].term == term
  }

  ghost predicate VotedFor(s: State, q: Id, c: Id, t: nat) {
    exists v :: v in s.votes && v.voter == q && v.request.candidate == c && v.request.term == t
  }

  ghost predicate TermReached(s: State, t: nat) {
    exists q :: q in s.nodes && s.nodes[q].term >= t
  }

  ghost predicate HeardFromLeader(s: State, p: Id, t: nat) {
    || (exists r :: r in s.appends && r.to == p && r.term == t)
    || (exists r :: r in s.snapshots && r.to == p && r.term == t)
  }

  function Update(s: State, p: Id, n: Node): State {
    s.(nodes := s.nodes[p := n])
  }

  // Elections.

  predicate CanBecomeCandidate(s: State, c: Id) {
    c in s.nodes && s.nodes[c].role != Leader
  }

  function Candidacy(n: Node, c: Id): VoteRequest {
    VoteRequest(n.term + 1, c, |n.log|, LastTerm(n.log))
  }

  /** A new term, a vote for itself, both on disk before anyone is asked. */
  function DoBecomeCandidate(s: State, c: Id): State
    requires CanBecomeCandidate(s, c)
  {
    var n := s.nodes[c];
    var v := Candidacy(n, c);
    Update(s, c, n.(role := Candidate, term := n.term + 1, vote := Some(c))).(
      voteRequests := s.voteRequests + {v}, votes := s.votes + {Vote(v, c)})
  }

  ghost predicate CanObserveTerm(s: State, p: Id, t: nat) {
    p in s.nodes && t > s.nodes[p].term && TermReached(s, t)
  }

  function DoObserveTerm(s: State, p: Id, t: nat): State
    requires p in s.nodes
  {
    Update(s, p, s.nodes[p].(role := Follower, term := t, vote := None))
  }

  ghost predicate CanStepDown(s: State, p: Id) {
    p in s.nodes && s.nodes[p].role != Follower && HeardFromLeader(s, p, s.nodes[p].term)
  }

  function DoStepDown(s: State, p: Id): State
    requires p in s.nodes
  {
    Update(s, p, s.nodes[p].(role := Follower))
  }

  predicate CanGrantVote(s: State, p: Id, v: VoteRequest) {
    && p in s.nodes && v in s.voteRequests && v.term == s.nodes[p].term
    && (s.nodes[p].vote == None || s.nodes[p].vote == Some(v.candidate))
    && UpToDate(v, s.nodes[p].log)
  }

  function DoGrantVote(s: State, p: Id, v: VoteRequest): State
    requires p in s.nodes
  {
    Update(s, p, s.nodes[p].(vote := Some(v.candidate))).(votes := s.votes + {Vote(v, p)})
  }

  ghost predicate CanBecomeLeader(s: State, c: Id, voters: set<Id>) {
    && c in s.nodes && s.nodes[c].role == Candidate && Quorum(s.Ids(), voters)
    && forall q :: q in voters ==> VotedFor(s, q, c, s.nodes[c].term)
  }

  function Elected(ids: set<Id>, c: Id, n: Node): Node {
    n.(role := Leader,
       next := map p | p in ids - {c} :: |n.log| + 1,
       matched := map p | p in ids - {c} :: 0,
       out := map[])
  }

  function DoBecomeLeader(s: State, c: Id, voters: set<Id>): State
    requires c in s.nodes
  {
    var n := s.nodes[c];
    Update(s, c, Elected(s.Ids(), c, n)).(reigns := s.reigns[n.term := Reign(c, |n.log|, n.log, voters)])
  }

  // The leader's log and what it sends.

  predicate CanPropose(s: State, l: Id) {
    IsLeader(s, l) && s.nodes[l].term in s.reigns
  }

  function DoPropose(s: State, l: Id, command: Command): State
    requires CanPropose(s, l)
  {
    var n := s.nodes[l];
    var e := Entry(n.term, command);
    var r := s.reigns[n.term];
    Update(s, l, n.(log := n.log + [e])).(
      reigns := s.reigns[n.term := r.(log := r.log + [e])],
      acks := s.acks[(l, n.term) := |n.log| + 1])
  }

  /** Leading, no snapshot needed, and the previous position is in the log: one atomic check. */
  predicate CanSendAppend(s: State, l: Id, p: Id) {
    && IsLeader(s, l) && IsPeer(s, l, p)
    && s.nodes[l].snap < NextIndex(s.nodes[l], p) <= |s.nodes[l].log| + 1
  }

  function AppendFor(s: State, l: Id, p: Id): AppendRequest
    requires l in s.nodes && NextIndex(s.nodes[l], p) <= |s.nodes[l].log| + 1
  {
    var n := s.nodes[l];
    var prev := NextIndex(n, p) - 1;
    AppendRequest(s.calls, n.term, l, p, prev, TermAt(n.log, prev), Batch(n.log, prev), n.commit)
  }

  function DoSendAppend(s: State, l: Id, p: Id): State
    requires CanSendAppend(s, l, p)
  {
    var n := s.nodes[l];
    var r := AppendFor(s, l, p);
    Update(s, l, n.(out := n.out[p := AppendRpc(r)])).(appends := s.appends + {r}, calls := s.calls + 1)
  }

  /** The term at the previous position is unknown: it is past the end of the leader's own log, or
      inside a snapshot taken since the peer was found to need none. */
  predicate CanLowerNext(s: State, l: Id, p: Id) {
    && IsLeader(s, l) && IsPeer(s, l, p) && p !in s.nodes[l].out
    && (NextIndex(s.nodes[l], p) > |s.nodes[l].log| + 1 || 1 < NextIndex(s.nodes[l], p) <= s.nodes[l].snap)
  }

  function DoLowerNext(s: State, l: Id, p: Id): State
    requires l in s.nodes
  {
    var n := s.nodes[l];
    Update(s, l, n.(next := n.next[p := Max(NextIndex(n, p) - 1, 1)]))
  }

  predicate CanSendSnapshot(s: State, l: Id, p: Id) {
    && IsLeader(s, l) && IsPeer(s, l, p)
    && NextIndex(s.nodes[l], p) <= s.nodes[l].snap <= |s.nodes[l].log|
  }

  function SnapshotFor(s: State, l: Id, p: Id): SnapshotRequest
    requires l in s.nodes && s.nodes[l].snap <= |s.nodes[l].log|
  {
    var n := s.nodes[l];
    SnapshotRequest(s.calls, n.term, l, p, n.log[..n.snap], n.image)
  }

  function DoSendSnapshot(s: State, l: Id, p: Id): State
    requires CanSendSnapshot(s, l, p)
  {
    var n := s.nodes[l];
    var r := SnapshotFor(s, l, p);
    Update(s, l, n.(out := n.out[p := SnapshotRpc(r)])).(snapshots := s.snapshots + {r}, calls := s.calls + 1)
  }

  /** The call was cancelled or timed out. */
  function DoGiveUp(s: State, l: Id, p: Id): State
    requires l in s.nodes
  {
    Update(s, l, s.nodes[l].(out := s.nodes[l].out - {p}))
  }

  // A follower's answers.

  predicate CanReject(s: State, p: Id, r: AppendRequest) {
    r in s.appends && Receives(s, p, r.to, r.term) && !Matches(s.nodes[p], r)
  }

  function Hint(n: Node, r: AppendRequest): nat {
    if r.prev < n.snap then n.snap else |n.log|
  }

  function DoReject(s: State, p: Id, r: AppendRequest): State
    requires p in s.nodes
  {
    s.(replies := s.replies + {AppendReply(r, false, Hint(s.nodes[p], r))})
  }

  predicate CanAccept(s: State, p: Id, r: AppendRequest) {
    r in s.appends && Receives(s, p, r.to, r.term) && Matches(s.nodes[p], r)
  }

  /** The transaction that drops a conflicting suffix; a crash may follow it. */
  function DoCut(s: State, p: Id, r: AppendRequest): State
    requires CanAccept(s, p, r)
  {
    Update(s, p, s.nodes[p].(log := Cut(s.nodes[p].log, r.prev, r.entries)))
  }

  function Accepted(n: Node, r: AppendRequest): Node
    requires Matches(n, r)
  {
    var log := Merge(n.log, r.prev, r.entries);
    n.(log := log, commit := FollowCommit(n.commit, r.commit, |log|))
  }

  function DoAccept(s: State, p: Id, r: AppendRequest): State
    requires CanAccept(s, p, r)
  {
    var n := s.nodes[p];
    Update(s, p, Accepted(n, r)).(
      replies := s.replies + {AppendReply(r, true, r.End())},
      acks := if r.End() > n.snap then s.acks[(p, n.term) := Max(Ack(s, p, n.term), r.End())] else s.acks)
  }

  predicate CanInstall(s: State, p: Id, r: SnapshotRequest) {
    r in s.snapshots && Receives(s, p, r.to, r.term)
  }

  /** Stale snapshots are acknowledged and ignored. */
  function Installed(n: Node, r: SnapshotRequest): Node {
    if r.Index() <= n.snap then n
    else n.(log := Overlay(n.log, r.history), snap := r.Index(), image := r.image, kv := r.image,
            disk := r.Index(), commit := Max(n.commit, r.Index()),
            applied := Max(n.applied, r.Index()))
  }

  function DoInstall(s: State, p: Id, r: SnapshotRequest): State
    requires p in s.nodes
  {
    Update(s, p, Installed(s.nodes[p], r)).(installed := s.installed + {r})
  }

  // Applying, compacting, restarting.

  predicate CanApply(s: State, p: Id) {
    && p in s.nodes && s.nodes[p].snap <= s.nodes[p].applied < s.nodes[p].commit
    && s.nodes[p].applied < |s.nodes[p].log|
  }

  function AppliedNext(n: Node): Node
    requires n.applied < |n.log|
  {
    n.(kv := Execute(n.kv, n.log[n.applied].command), applied := n.applied + 1, disk := n.applied + 1)
  }

  function DoApply(s: State, p: Id): State
    requires CanApply(s, p)
  {
    Update(s, p, AppliedNext(s.nodes[p]))
  }

  /** The next entry is missing from the log because a snapshot covers it. */
  predicate CanSkip(s: State, p: Id) {
    p in s.nodes && s.nodes[p].applied < s.nodes[p].commit && s.nodes[p].applied < s.nodes[p].snap
  }

  function DoSkip(s: State, p: Id): State
    requires p in s.nodes
  {
    Update(s, p, s.nodes[p].(applied := s.nodes[p].snap, disk := s.nodes[p].snap))
  }

  /** Snapshots are taken once everything committed has been applied. */
  predicate CanCompact(s: State, p: Id) {
    && p in s.nodes && s.nodes[p].snap < s.nodes[p].applied == s.nodes[p].commit
    && s.nodes[p].applied <= |s.nodes[p].log|
  }

  function Compacted(n: Node): Node {
    n.(snap := n.applied, image := n.kv, disk := n.applied)
  }

  function DoCompact(s: State, p: Id): State
    requires p in s.nodes
  {
    Update(s, p, Compacted(s.nodes[p]))
  }

  function Restarted(n: Node): Node {
    n.(role := Follower, commit := n.disk, applied := n.disk,
       next := map[], matched := map[], out := map[])
  }

  function DoRestart(s: State, p: Id): State
    requires p in s.nodes
  {
    Update(s, p, Restarted(s.nodes[p]))
  }

  // The leader reads a reply.

  predicate CanRecordReply(s: State, l: Id, p: Id, reply: AppendReply) {
    && IsLeader(s, l) && IsPeer(s, l, p) && reply in s.replies
    && p in s.nodes[l].out && s.nodes[l].out[p] == AppendRpc(reply.request)
    && reply.request.term == s.nodes[l].term
  }

  function Recorded(n: Node, p: Id, m: nat): Node {
    var best := Max(Matched(n, p), m);
    n.(matched := n.matched[p := best], next := n.next[p := best + 1], out := n.out - {p})
  }

  function BackedOff(n: Node, p: Id, hint: nat): Node {
    n.(next := n.next[p := NextAfterRejection(NextIndex(n, p), hint)], out := n.out - {p})
  }

  function DoRecordReply(s: State, l: Id, p: Id, reply: AppendReply): State
    requires l in s.nodes
  {
    Update(s, l, if reply.success then Recorded(s.nodes[l], p, Max(reply.match_, reply.request.End()))
                 else BackedOff(s.nodes[l], p, reply.match_))
  }

  predicate CanRecordInstall(s: State, l: Id, p: Id, r: SnapshotRequest) {
    && IsLeader(s, l) && IsPeer(s, l, p) && r in s.installed
    && p in s.nodes[l].out && s.nodes[l].out[p] == SnapshotRpc(r)
    && r.term == s.nodes[l].term
  }

  function DoRecordInstall(s: State, l: Id, p: Id, r: SnapshotRequest): State
    requires l in s.nodes
  {
    Update(s, l, Recorded(s.nodes[l], p, r.Index()))
  }

  predicate CanAdvanceCommit(s: State, l: Id, k: nat) {
    && IsLeader(s, l) && s.nodes[l].commit < k <= |s.nodes[l].log|
    && TermAt(s.nodes[l].log, k) == s.nodes[l].term
    && Quorum(s.Ids(), Replicas(s.Ids(), l, s.nodes[l], k))
  }

  function DoAdvanceCommit(s: State, l: Id, k: nat): State
    requires l in s.nodes
  {
    Update(s, l, s.nodes[l].(commit := k))
  }

  ghost predicate Enabled(s: State, a: Action) {
    match a
    case BecomeCandidate(c) => CanBecomeCandidate(s, c)
    case ObserveTerm(p, t) => CanObserveTerm(s, p, t)
    case StepDown(p) => CanStepDown(s, p)
    case GrantVote(p, v) => CanGrantVote(s, p, v)
    case BecomeLeader(c, voters) => CanBecomeLeader(s, c, voters)
    case Propose(l, _) => CanPropose(s, l)
    case SendAppend(l, p) => CanSendAppend(s, l, p)
    case LowerNext(l, p) => CanLowerNext(s, l, p)
    case RejectAppend(p, r) => CanReject(s, p, r)
    case CutConflict(p, r) => CanAccept(s, p, r)
    case AcceptAppend(p, r) => CanAccept(s, p, r)
    case ApplyNext(p) => CanApply(s, p)
    case SkipCompacted(p) => CanSkip(s, p)
    case Compact(p) => CanCompact(s, p)
    case RecordReply(l, p, reply) => CanRecordReply(s, l, p, reply)
    case AdvanceCommit(l, k) => CanAdvanceCommit(s, l, k)
    case SendSnapshot(l, p) => CanSendSnapshot(s, l, p)
    case InstallSnapshot(p, r) => CanInstall(s, p, r)
    case RecordInstall(l, p, r) => CanRecordInstall(s, l, p, r)
    case GiveUp(l, p) => l in s.nodes
    case Restart(p) => p in s.nodes
  }

  ghost function Apply(s: State, a: Action): State
    requires Enabled(s, a)
  {
    match a
    case BecomeCandidate(c) => DoBecomeCandidate(s, c)
    case ObserveTerm(p, t) => DoObserveTerm(s, p, t)
    case StepDown(p) => DoStepDown(s, p)
    case GrantVote(p, v) => DoGrantVote(s, p, v)
    case BecomeLeader(c, voters) => DoBecomeLeader(s, c, voters)
    case Propose(l, command) => DoPropose(s, l, command)
    case SendAppend(l, p) => DoSendAppend(s, l, p)
    case LowerNext(l, p) => DoLowerNext(s, l, p)
    case RejectAppend(p, r) => DoReject(s, p, r)
    case CutConflict(p, r) => DoCut(s, p, r)
    case AcceptAppend(p, r) => DoAccept(s, p, r)
    case ApplyNext(p) => DoApply(s, p)
    case SkipCompacted(p) => DoSkip(s, p)
    case Compact(p) => DoCompact(s, p)
    case RecordReply(l, p, reply) => DoRecordReply(s, l, p, reply)
    case AdvanceCommit(l, k) => DoAdvanceCommit(s, l, k)
    case SendSnapshot(l, p) => DoSendSnapshot(s, l, p)
    case InstallSnapshot(p, r) => DoInstall(s, p, r)
    case RecordInstall(l, p, r) => DoRecordInstall(s, l, p, r)
    case GiveUp(l, p) => DoGiveUp(s, l, p)
    case Restart(p) => DoRestart(s, p)
  }

  const FreshNode: Node :=
    Node(Follower, 0, None, [], 0, 0, 0, 0, map[], map[], map[], map[], map[])

  predicate Init(s: State) {
    && s.nodes != map[]
    && (forall p :: p in s.nodes ==> s.nodes[p] == FreshNode)
    && s.voteRequests == {} && s.votes == {} && s.appends == {} && s.replies == {}
    && s.snapshots == {} && s.installed == {} && s.calls == 0
    && s.reigns == map[] && s.acks == map[]
  }

  /** `s2` follows from `s` by carrying out `run` in order. */
  ghost predicate Leads(s: State, run: seq<Action>, s2: State)
    decreases |run|
  {
    if run == [] then s2 == s
    else Enabled(s, run[0]) && Leads(Apply(s, run[0]), run[1..], s2)
  }

  ghost predicate LeadsTo(s: State, s2: State) {
    exists run :: Leads(s, run, s2)
  }

  ghost predicate Reachable(s: State) {
    exists s0 :: Init(s0) && LeadsTo(s0, s)
  }
}
