module Replication {
  // The retry loop that brings one peer up to date, between two node objects whose calls
  // arrive.

  import opened Logs
  import opened Cluster
  import opened Handlers
  import opened Backoff
  import opened RaftNodes
  import opened Storage

  /** Rounds one call of the loop may take. */
  const MAX_ROUNDS: nat := 32

  lemma {:induction false} AfterStays(n: Node, m: Node, next: nat, k: nat, j: nat)
    requires 1 <= next && k <= j && !After(n, m, next, k).Retry?
    ensures After(n, m, next, j) == After(n, m, next, k)
    decreases j
  {
    if k < j {
      AfterStays(n, m, next, k, j - 1);
    }
  }

  /** `leader` leads the term `follower` follows, with no call to it in flight. */
  ghost predicate Paired(leader: RaftNode, follower: RaftNode)
    reads leader, leader.store, follower, follower.store
  {
    && leader != follower && leader.store != follower.store && leader.Valid() && follower.Valid()
    && follower.id in leader.peers && follower.id !in leader.out
    && leader.role == Leader && follower.role == Follower && leader.currentTerm == follower.currentTerm
  }

  /** The call a leader makes for position `next - 1`. */
  function Call(n: Node, l: Id, p: Id, next: nat, call: nat): AppendRequest
    requires 1 <= next <= |n.log| + 1
  {
    AppendRequest(call, n.term, l, p, next - 1, TermAt(n.log, next - 1), Batch(n.log, next - 1), n.commit)
  }

  function Shipment(n: Node, l: Id, p: Id, call: nat): SnapshotRequest
    requires n.snap <= |n.log|
  {
    SnapshotRequest(call, n.term, l, p, n.log[..n.snap], n.image)
  }

  /** The records of leader and follower once a call for `next` has been taken: the follower stored
      the entries and followed the commit index, or installed the snapshot; the leader recorded it
      and committed what that allows. */
  ghost predicate InStep(leader: RaftNode, follower: RaftNode, n: Node, m: Node, next: nat, call: nat)
    reads leader, leader.store, follower, follower.store
    requires n.snap <= |n.log| && 1 <= next
  {
    if next <= n.snap then
      && follower.View() == Installed(m, Shipment(n, leader.id, follower.id, call))
      && leader.View() == Advanced(leader.Ids(), leader.id, Recorded(n, follower.id, n.snap), leader.threshold)
    else
      && next <= |n.log| + 1
      && var r := Call(n, leader.id, follower.id, next, call);
      && Matches(m, r) && follower.View() == Followed(m, r, follower.threshold)
      && leader.View() == Advanced(leader.Ids(), leader.id, Recorded(n, follower.id, r.End()), leader.threshold)
  }

  /** `leader` differs from `n` in the position of `follower` only. */
  ghost predicate Moving(leader: RaftNode, follower: RaftNode, n: Node, m: Node)
    reads leader, leader.store, follower, follower.store
  {
    && Paired(leader, follower) && follower.View() == m
    && leader.View() == n.(next := leader.nextIndex) && leader.nextIndex - {follower.id} == n.next - {follower.id}
  }

  /** The loop succeeds if and only if the search ends within its rounds, and when it starts behind
      the leader's last entry that is exactly when `CanSettle`. On success the two nodes are in step
      for the position `at` the search ended at, after `rounds` retries; on failure the follower is
      as it was. */
  method ReplicatePeer(leader: RaftNode, follower: RaftNode, call: nat) returns (done: bool, ghost at: nat, ghost rounds: nat)
    requires Paired(leader, follower)
    modifies leader, leader.store, follower, follower.store
    ensures leader.Valid() && follower.Valid()
    ensures done <==> !After(old(leader.View()), old(follower.View()), NextIndex(old(leader.View()), follower.id), MAX_ROUNDS).Retry?
    ensures NextIndex(old(leader.View()), follower.id) == |old(leader.store.log)| + 1 ==>
              (done <==> CanSettle(old(leader.View()), old(follower.View())))
    ensures done ==>
              var n, m := old(leader.View()), old(follower.View());
              && 1 <= at && After(n, m, NextIndex(n, follower.id), rounds) == Retry(at) && !Probe(n, m, at).Retry?
              && InStep(leader, follower, n, m, at, call + rounds)
    ensures !done ==> follower.View() == old(follower.View())
  {
    hide Advanced, CanSettle, NextAfterRejection, InStep, Probe, Holds;
    ghost var n, m, p := leader.View(), follower.View(), follower.id;
    ghost var start := NextIndex(n, p);
    if start == |n.log| + 1 {
      RoundsSuffice(n, m);
    }
    at, rounds := start, 0;
    for round := 0 to MAX_ROUNDS
      invariant Moving(leader, follower, n, m)
      invariant After(n, m, start, round) == Retry(NextIndex(leader.View(), p))
    {
      at, rounds := NextIndex(leader.View(), p), round;
      AfterOneMore(n, m, start, round + 1);
      done := Round(leader, follower, call + round, n, m);
      if done {
        AfterStays(n, m, start, round + 1, MAX_ROUNDS);
        return;
      }
    }
    done := false;
  }

  /** One round: ship a snapshot, lower the index, or ask and read the answer. */
  method Round(leader: RaftNode, follower: RaftNode, call: nat, ghost n: Node, ghost m: Node) returns (done: bool)
    requires Moving(leader, follower, n, m) && n.snap <= |n.log|
    modifies leader, leader.store, follower, follower.store
    ensures leader.Valid() && follower.Valid()
    ensures done <==> !Probe(n, m, NextIndex(old(leader.View()), follower.id)).Retry?
    ensures done ==> InStep(leader, follower, n, m, NextIndex(old(leader.View()), follower.id), call)
    ensures !done ==>
              && Moving(leader, follower, n, m)
              && Retry(NextIndex(leader.View(), follower.id)) == Probe(n, m, NextIndex(old(leader.View()), follower.id))
  {
    hide Matches, Hint, NextAfterRejection, Followed, Installed, Advanced, Recorded, Batch;
    var needs := leader.PeerNeedsSnapshot(follower.id);
    if needs {
      done := ShipSnapshot(leader, follower, call, n);
    } else {
      done := Try(leader, follower, call, n, m);
    }
  }

  /** A round of a peer that needs no snapshot. */
  method Try(leader: RaftNode, follower: RaftNode, call: nat, ghost n: Node, ghost m: Node) returns (done: bool)
    requires Moving(leader, follower, n, m) && leader.store.snapshotIndex < NextIndex(leader.View(), follower.id)
    modifies leader, leader.store, follower, follower.store
    ensures leader.Valid() && follower.Valid()
    ensures var next := NextIndex(old(leader.View()), follower.id);
            && done == (next <= |n.log| + 1 && Matches(m, Question(n.log, next - 1)))
            && (done ==> InStep(leader, follower, n, m, next, call))
            && (!done ==> Moving(leader, follower, n, m) && leader.nextIndex == old(leader.nextIndex)[follower.id := Probe(n, m, next).next])
  {
    hide Matches, Hint, NextAfterRejection, Numbered, QueryEnd, Entries, Batch, Followed, Advanced, Recorded, Holds, Built, Call;
    ghost var n1, next := leader.View(), NextIndex(leader.View(), follower.id);
    BuiltIsCall(n, n1, leader.id, follower.id, call);
    var r := Build(leader, follower.id, call);
    if r == None {
      return false;
    }
    SameQuestion(m, r.value, n.log);
    done := Ask(leader, follower, r.value, n, n1);
  }

  /** What is built for a position behind the snapshot. */
  lemma BuiltIsCall(n: Node, n1: Node, l: Id, p: Id, call: nat)
    requires n1 == n.(next := n1.next) && n.snap < NextIndex(n1, p)
    ensures var (n2, r), next := Built(n1, l, p, call), NextIndex(n1, p);
            if next <= |n.log| + 1 then
              && r == Some(Call(n, l, p, next, call)) && n2 == n1.(out := n1.out[p := AppendRpc(r.value)])
              && r.value.term == n.term && r.value.prev == next - 1 && r.value.prevTerm == TermAt(n.log, next - 1)
            else r == None && n2 == n1.(next := n1.next[p := Max(next - 1, 1)])
  {
    hide Batch;
  }

  /** The next call to a peer, without its lines. */
  method Build(leader: RaftNode, p: Id, call: nat) returns (r: Option<AppendRequest>)
    requires leader.Valid() && p in leader.peers && p !in leader.out
    modifies leader`nextIndex, leader`out
    ensures leader.Valid() && (leader.View(), r) == Built(old(leader.View()), leader.id, p, call)
  {
    hide Built, Holds;
    var request, _ := leader.BuildAppendRequest(p, call);
    r := request;
  }

  /** Delivers a call in flight and reads its answer. */
  method Ask(leader: RaftNode, follower: RaftNode, r: AppendRequest, ghost n: Node, ghost n1: Node) returns (done: bool)
    requires leader != follower && leader.store != follower.store && leader.Valid() && follower.Valid() && follower.id in leader.peers
    requires n1.role == Leader && n1.term == r.term && follower.role == Follower && follower.currentTerm == r.term
    requires follower.id !in n1.out && leader.View() == n1.(out := n1.out[follower.id := AppendRpc(r)])
    requires n1 == n.(next := n1.next) && n1.next - {follower.id} == n.next - {follower.id}
    modifies leader, leader.store, follower, follower.store
    ensures leader.Valid() && follower.Valid() && done == Matches(old(follower.View()), r)
    ensures done ==>
              && follower.View() == Followed(old(follower.View()), r, follower.threshold)
              && leader.View() == Advanced(leader.Ids(), leader.id, Recorded(n, follower.id, r.End()), leader.threshold)
    ensures !done ==>
              && Moving(leader, follower, n, old(follower.View()))
              && leader.nextIndex == n1.next[follower.id := NextAfterRejection(NextIndex(n1, follower.id), Hint(old(follower.View()), r))]
  {
    hide Advanced, Followed, Matches, Hint, NextAfterRejection, NextIndex, Recorded, BackedOff, Holds;
    ghost var m, p, n2 := follower.View(), follower.id, leader.View();
    RecordedAgain(n, n2, p, r.End());
    BackedOffAgain(n, n1, n2, p, r, Hint(m, r));
    var answer := Answer(follower, r);
    done := Read(leader, follower.id, r, answer);
  }

  /** A leader in the term of the call reads the answer. */
  method Read(leader: RaftNode, p: Id, r: AppendRequest, answer: AppendAnswer) returns (accepted: bool)
    requires leader.Valid() && p in leader.peers && leader.role == Leader && leader.currentTerm == r.term == answer.term
    modifies leader, leader.store
    ensures leader.Valid() && accepted == answer.success
    ensures var n := old(leader.View());
            leader.View() == if accepted then Advanced(leader.Ids(), leader.id, Recorded(n, p, Max(answer.match_, r.End())), leader.threshold)
                             else BackedOff(n, p, answer.match_)
  {
    hide Advanced, Recorded, BackedOff, Holds, CommitsAll;
    accepted := leader.ReadAppendAnswer(p, r, answer);
  }

  /** A follower in the term of the call answers for its consistency check. */
  method Answer(follower: RaftNode, r: AppendRequest) returns (answer: AppendAnswer)
    requires follower.Valid() && follower.role == Follower && follower.currentTerm == r.term
    modifies follower, follower.store
    ensures follower.Valid()
    ensures var m := old(follower.View());
            (follower.View(), answer) == if Matches(m, r) then (Followed(m, r, follower.threshold), AppendAnswer(r.term, true, r.End()))
                                         else (m, AppendAnswer(r.term, false, Hint(m, r)))
  {
    hide Followed, Matches, Hint, Holds, AppendOutcome;
    InTerm(follower.View(), r, follower.threshold);
    answer := follower.AppendEntries(r);
  }

  /** Reading a refusal moves the position of the peer and forgets the call to it. */
  lemma BackedOffAgain(n: Node, n1: Node, n2: Node, p: Id, r: AppendRequest, hint: nat)
    requires p !in n1.out && n2 == n1.(out := n1.out[p := AppendRpc(r)])
    requires n1 == n.(next := n1.next) && n1.next - {p} == n.next - {p}
    ensures var n3 := BackedOff(n2, p, hint);
            && n3.next == n1.next[p := NextAfterRejection(NextIndex(n1, p), hint)]
            && n3 == n.(next := n3.next) && n3.next - {p} == n.next - {p}
  {
    var n3 := BackedOff(n2, p, hint);
    assert n3.out == n1.out;
    assert n3.next - {p} == n1.next - {p};
  }

  /** Recording progress settles the position of the peer and forgets the call to it. */
  lemma RecordedAgain(n: Node, n2: Node, p: Id, match_: nat)
    requires n2 == n.(next := n2.next, out := n2.out) && n2.next - {p} == n.next - {p} && n2.out - {p} == n.out - {p}
    ensures Recorded(n2, p, match_) == Recorded(n, p, match_)
  {
    var best := Max(Matched(n, p), match_);
    assert n2.next[p := best + 1] == (n2.next - {p})[p := best + 1] == (n.next - {p})[p := best + 1] == n.next[p := best + 1];
  }

  /** A follower in the term of the call goes straight to the consistency check. */
  lemma InTerm(m: Node, r: AppendRequest, threshold: nat)
    requires m.role == Follower && m.term == r.term
    ensures HandledAppend(m, r, threshold) ==
            if Matches(m, r) then (Followed(m, r, threshold), AppendAnswer(m.term, true, r.End()))
            else (m, AppendAnswer(m.term, false, Hint(m, r)))
  {
    assert SteppedDown(m, r.term) == m;
  }

  lemma SameQuestion(m: Node, r: AppendRequest, log: seq<Entry>)
    requires r.prev <= |log| && r.prevTerm == TermAt(log, r.prev)
    ensures Matches(m, r) == Matches(m, Question(log, r.prev)) && Hint(m, r) == Hint(m, Question(log, r.prev))
  {}

  method ShipSnapshot(leader: RaftNode, follower: RaftNode, call: nat, ghost n: Node) returns (done: bool)
    requires Moving(leader, follower, n, follower.View()) && n.snap <= |n.log|
    modifies leader, leader.store, follower, follower.store
    ensures leader.Valid() && follower.Valid() && done
    ensures follower.View() == Installed(old(follower.View()), Shipment(n, leader.id, follower.id, call))
    ensures leader.View() == Advanced(leader.Ids(), leader.id, Recorded(n, follower.id, n.snap), leader.threshold)
  {
    hide Advanced, Installed;
    ghost var m := follower.View();
    var term, index, t, data, r := leader.SendSnapshot(follower.id, call);
    assert r == Shipment(n, leader.id, follower.id, call);
    assert SteppedDown(m, r.term) == m;
    RecordedAgain(n, leader.View(), follower.id, n.snap);
    var answer := follower.InstallSnapshot(term, index, t, data, r);
    done := leader.ReadSnapshotAnswer(follower.id, term, index, answer, r);
  }

  lemma RoundsSuffice(n: Node, m: Node)
    requires n.snap <= |n.log| && m.snap <= |m.log|
    ensures !After(n, m, |n.log| + 1, MAX_ROUNDS).Retry? <==> CanSettle(n, m)
  {
    BackoffExact(n, m);
    if CanSettle(n, m) {
      AfterStays(n, m, |n.log| + 1, 3, MAX_ROUNDS);
    } else {
      assert Searching(n, m, MAX_ROUNDS);
    }
  }
}
