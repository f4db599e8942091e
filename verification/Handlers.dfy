module Handlers {
  // What a node does under its lock, as one function per handler: the whole effect of a call on
  // the node's record, and its answer.

  import opened Logs
  import opened Cluster

  datatype VoteAnswer = VoteAnswer(term: nat, granted: bool)

  datatype AppendAnswer = AppendAnswer(term: nat, success: bool, match_: nat)

  function SteppedDown(n: Node, t: nat): Node {
    if t > n.term then n.(role := Follower, term := t, vote := None) else n.(role := Follower)
  }

  // ---------------------------------------------------------------- applying and compacting

  /** Committed entries are applied in order; one that is missing is skipped if a snapshot covers
      it and stops the loop otherwise. */
  function Drained(n: Node): (r: Node)
    ensures r == n.(applied := r.applied, disk := r.disk, kv := r.kv) && r.applied >= n.applied
    decreases n.commit - n.applied
  {
    if n.applied >= n.commit then n
    else if n.snap <= n.applied < |n.log| then Drained(AppliedNext(n))
    else if n.applied < n.snap then Drained(n.(applied := n.snap, disk := n.snap))
    else n
  }

  /** A snapshot is due: enough entries were applied since the last one. */
  predicate Due(n: Node, threshold: nat) {
    0 < threshold <= n.applied - n.snap && n.snap < n.applied <= |n.log|
  }

  /** Apply what is committed, then compact if that went through to the end. */
  function Settled(n: Node, threshold: nat): (r: Node)
    ensures r == n.(applied := r.applied, disk := r.disk, kv := r.kv, snap := r.snap, image := r.image)
  {
    var d := Drained(n);
    if d.applied >= d.commit && Due(d, threshold) then Compacted(d) else d
  }

  /** Where applying stops: at the last committed entry that is there, or at a snapshot beyond it. What
      is applied on top of a replayed log is the replayed longer log. */
  lemma {:induction false} DrainedExact(n: Node)
    requires n.snap <= |n.log|
    ensures Drained(n).applied == if n.applied >= n.commit then n.applied else Max(n.applied, Max(n.snap, Min(n.commit, |n.log|)))
    ensures Drained(n).disk == if Drained(n).applied == n.applied then n.disk else Drained(n).applied
    ensures n.snap <= n.applied <= |n.log| && n.kv == Replay(n.log[..n.applied]) ==>
              Drained(n).applied <= |n.log| && Drained(n).kv == Replay(n.log[..Drained(n).applied])
    decreases n.commit - n.applied
  {
    if n.applied < n.commit {
      if n.snap <= n.applied < |n.log| {
        ReplayNext(n.log, n.applied);
        DrainedExact(AppliedNext(n));
      } else if n.applied < n.snap {
        DrainedExact(n.(applied := n.snap, disk := n.snap));
      }
    }
  }

  /** The snapshot moves up to the applied position exactly if everything committed is applied and
      at least `threshold` entries, a positive number, lie between the two. */
  lemma SettledExact(n: Node, threshold: nat)
    requires n.snap <= |n.log|
    ensures var r := Settled(n, threshold);
            && r.applied == (if n.applied >= n.commit then n.applied else Max(n.applied, Max(n.snap, Min(n.commit, |n.log|))))
            && r.snap == (if n.commit <= r.applied <= |n.log| && 0 < threshold <= r.applied - n.snap then r.applied else n.snap)
            && r.image == (if r.snap == n.snap then n.image else r.kv)
            && (n.snap <= n.applied <= |n.log| && n.kv == Replay(n.log[..n.applied]) ==>
                  r.applied <= |n.log| && r.kv == Replay(n.log[..r.applied]))
  {
    hide Drained;
    DrainedExact(n);
  }

  // ---------------------------------------------------------------- answering other nodes

  function HandledVote(n: Node, v: VoteRequest): (Node, VoteAnswer) {
    if v.term < n.term then (n, VoteAnswer(n.term, false))
    else
      var m := if v.term > n.term then SteppedDown(n, v.term) else n;
      if (m.vote == None || m.vote == Some(v.candidate)) && UpToDate(v, m.log)
      then (m.(vote := Some(v.candidate)), VoteAnswer(m.term, true))
      else (m, VoteAnswer(m.term, false))
  }

  /** The part of the append handler that follows a successful consistency check. */
  function Followed(n: Node, r: AppendRequest, threshold: nat): Node
    requires Matches(n, r)
  {
    if r.commit > n.commit then Settled(Accepted(n, r), threshold) else Accepted(n, r)
  }

  function HandledAppend(n: Node, r: AppendRequest, threshold: nat): (Node, AppendAnswer) {
    if r.term < n.term then (n, AppendAnswer(n.term, false, |n.log|))
    else
      var m := SteppedDown(n, r.term);
      if Matches(m, r) then (Followed(m, r, threshold), AppendAnswer(m.term, true, r.End()))
      else (m, AppendAnswer(m.term, false, Hint(m, r)))
  }

  /** What a request must come to, from the request and the record `n` before it: one of an older
      term changes nothing; any other one makes the node a follower of its term and succeeds exactly
      if the node has the position it names, with that term. */
  predicate AppendOutcome(n: Node, r: AppendRequest, m: Node, a: AppendAnswer) {
    if r.term < n.term then m == n && a == AppendAnswer(n.term, false, |n.log|)
    else
      && a.term == m.term == r.term && m.role == Follower && m.vote == (if r.term > n.term then None else n.vote)
      && (a.success <==> n.snap <= r.prev <= |n.log| && TermAt(n.log, r.prev) == r.prevTerm)
      && (a.success ==>
            && a.match_ == r.prev + |r.entries| && m.log == Merge(n.log, r.prev, r.entries)
            && m.commit == if r.commit > n.commit then Min(r.commit, |m.log|) else n.commit)
      && (!a.success ==>
            && a.match_ == (if r.prev < n.snap then n.snap else |n.log|)
            && m == n.(role := Follower, term := r.term, vote := m.vote))
  }

  lemma FollowedExact(n: Node, r: AppendRequest, threshold: nat)
    requires Matches(n, r)
    ensures var m := Followed(n, r, threshold);
            && m.role == n.role && m.term == n.term && m.vote == n.vote && m.log == Merge(n.log, r.prev, r.entries)
            && m.commit == if r.commit > n.commit then Min(r.commit, |m.log|) else n.commit
  {
    hide Settled, Merge;
  }

  lemma AppendExact(n: Node, r: AppendRequest, threshold: nat)
    ensures AppendOutcome(n, r, HandledAppend(n, r, threshold).0, HandledAppend(n, r, threshold).1)
  {
    hide Followed, Merge;
    if r.term >= n.term && Matches(SteppedDown(n, r.term), r) {
      FollowedExact(SteppedDown(n, r.term), r, threshold);
    }
  }

  function HandledInstall(n: Node, r: SnapshotRequest): Node {
    if r.term < n.term then n else Installed(SteppedDown(n, r.term), r)
  }

  /** Afterwards the snapshot is not behind the one sent, and neither is what counts as applied. */
  lemma InstallExact(n: Node, r: SnapshotRequest)
    requires n.snap <= n.applied
    ensures var m := HandledInstall(n, r);
            && (if r.term < n.term then m == n
                else m.role == Follower && m.term == r.term && m.snap == Max(n.snap, r.Index()) && m.applied == Max(n.applied, r.Index()))
            && (n.applied == n.commit ==> m.applied == m.commit)
  {}

  /** The record of a node that stands for election. */
  function Standing(n: Node, id: Id): Node {
    n.(role := Candidate, term := n.term + 1, vote := Some(id))
  }

  // ---------------------------------------------------------------- leading

  /** The entries a call for position `prev` carries: a position inside the snapshot starts behind it. */
  function Carried(n: Node, prev: nat): seq<Entry> {
    if Max(prev, n.snap) <= |n.log| then Batch(n.log, Max(prev, n.snap)) else []
  }

  /** Building the next call to a peer: the call in flight, or a lower next index if the term at the
      peer's position is unknown. */
  function Built(n: Node, l: Id, p: Id, call: nat): (Node, Option<AppendRequest>) {
    var prev := NextIndex(n, p) - 1;
    if prev == 0 || n.snap <= prev <= |n.log| then
      var r := AppendRequest(call, n.term, l, p, prev, if prev == 0 then 0 else TermAt(n.log, prev), Carried(n, prev), n.commit);
      (n.(out := n.out[p := AppendRpc(r)]), Some(r))
    else (n.(next := n.next[p := Max(prev, 1)]), None)
  }

  /** Index `k` may be committed by counting replicas. */
  predicate Countable(ids: set<Id>, l: Id, n: Node, k: nat) {
    && n.snap <= k <= |n.log| && TermAt(n.log, k) == n.term
    && Quorum(ids, Replicas(ids, l, n, k))
  }

  /** The highest countable index up to `k`, or the commit index if there is none above it. */
  function BestCommit(ids: set<Id>, l: Id, n: Node, k: nat): (r: nat)
    ensures r >= n.commit && (r != n.commit ==> r <= k && Countable(ids, l, n, r))
    ensures forall j :: r < j <= k ==> !Countable(ids, l, n, j)
  {
    if k <= n.commit then n.commit
    else if Countable(ids, l, n, k) then k
    else BestCommit(ids, l, n, k - 1)
  }

  function Advanced(ids: set<Id>, l: Id, n: Node, threshold: nat): Node {
    var k := BestCommit(ids, l, n, |n.log|);
    if k == n.commit then n else Settled(n.(commit := k), threshold)
  }

  /** Reading the answer to an append of term `term`. */
  function HandledReply(ids: set<Id>, l: Id, n: Node, p: Id, r: AppendRequest, a: AppendAnswer, threshold: nat): Node {
    if a.term > n.term then SteppedDown(n, a.term)
    else if n.role != Leader || n.term != r.term then n
    else if !a.success then BackedOff(n, p, a.match_)
    else Advanced(ids, l, Recorded(n, p, Max(a.match_, r.End())), threshold)
  }

  /** Reading the answer, a term, to a snapshot of term `r.term`. */
  function HandledInstalled(ids: set<Id>, l: Id, n: Node, p: Id, r: SnapshotRequest, t: nat, threshold: nat): Node {
    if t > n.term then SteppedDown(n, t)
    else if n.role != Leader || n.term != r.term then n
    else Advanced(ids, l, Recorded(n, p, r.Index()), threshold)
  }

  /** A cluster of one is its own majority. */
  function Proposed(ids: set<Id>, l: Id, n: Node, c: Command, threshold: nat): Node {
    var m := n.(log := n.log + [Entry(n.term, c)]);
    if ids == {l} then Advanced(ids, l, m, threshold) else m
  }

  /** A proposal adds one entry of the leader's term, and commits it at once in a cluster of one. */
  lemma ProposedExact(ids: set<Id>, l: Id, n: Node, c: Command, threshold: nat)
    requires n.snap <= |n.log| && n.commit <= |n.log|
    ensures var r := Proposed(ids, l, n, c, threshold);
            && r.role == n.role && r.term == n.term && r.log == n.log + [Entry(n.term, c)]
            && r.commit == if ids == {l} then |n.log| + 1 else n.commit
  {
    hide Settled, BestCommit;
    var m := n.(log := n.log + [Entry(n.term, c)]);
    if ids == {l} {
      assert Replicas(ids, l, m, |m.log|) == {l};
      assert Countable(ids, l, m, |m.log|);
    }
  }

  function TookOver(ids: set<Id>, l: Id, n: Node, threshold: nat): Node {
    var m := Elected(ids, l, n);
    if ids == {l} then Advanced(ids, l, m, threshold) else m
  }

  /** Whatever a new leader then commits and applies, it leads in the term and with the log it stood
      with, expects every peer right behind its last entry and has nothing matched. */
  lemma TookOverLeads(ids: set<Id>, l: Id, n: Node, threshold: nat)
    ensures var r := TookOver(ids, l, n, threshold);
            && r.role == Leader && r.term == n.term && r.vote == n.vote && r.log == n.log
            && forall p :: p in ids && p != l ==> NextIndex(r, p) == |n.log| + 1 && Matched(r, p) == 0
  {
    hide Settled, BestCommit;
  }
}
