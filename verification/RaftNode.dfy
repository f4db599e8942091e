module RaftNodes {
  // A node as an object: the handlers change its fields and its store in place. `View` is the
  // record the cluster model keeps for it, and each method is specified by what it does to that
  // record.

  import opened Logs
  import opened Cluster
  import opened Clients
  import opened Handlers
  import opened Storage
  import Compare

  /** A peer's answer to a request for its vote; none if the call failed. */
  datatype VoteReply = VoteReply(from: Id, answer: Option<VoteAnswer>)

  datatype ReadAnswer = BadKey | NotServed | NotFound | Found(value: string)

  datatype ElectionOutcome = Won | Newer(term: nat) | Lost

  predicate OnePerPeer(replies: seq<VoteReply>, peers: seq<Id>) {
    && (forall i :: 0 <= i < |replies| ==> replies[i].from in peers)
    && (forall i, j :: 0 <= i < j < |replies| ==> replies[i].from != replies[j].from)
  }

  function Tally(replies: seq<VoteReply>, votes: nat, majority: nat, term: nat): ElectionOutcome
    decreases |replies|
  {
    if votes >= majority then Won
    else if replies == [] then Lost
    else
      match replies[0].answer
      case None => Tally(replies[1..], votes, majority, term)
      case Some(a) =>
        if a.term > term then Newer(a.term)
        else Tally(replies[1..], if a.granted then votes + 1 else votes, majority, term)
  }

  /** The peers that granted their vote. */
  ghost function Granters(replies: seq<VoteReply>): set<Id> {
    set r | r in replies && r.answer.Some? && r.answer.value.granted :: r.from
  }

  lemma FirstGranter(first: VoteReply, rest: seq<VoteReply>)
    ensures Granters([first] + rest) ==
            if first.answer.Some? && first.answer.value.granted then Granters(rest) + {first.from} else Granters(rest)
  {
    assert forall r :: r in [first] + rest <==> r == first || r in rest;
  }

  /** An election is won only with votes that, together with the candidate's own, are a majority. */
  lemma {:induction false} WonByMajority(replies: seq<VoteReply>, votes: nat, majority: nat, term: nat)
    requires forall i, j :: 0 <= i < j < |replies| ==> replies[i].from != replies[j].from
    requires Tally(replies, votes, majority, term) == Won
    ensures votes + |Granters(replies)| >= majority
    decreases |replies|
  {
    if votes < majority {
      var first, rest := replies[0], replies[1..];
      assert replies == [first] + rest;
      var granted := first.answer.Some? && first.answer.value.granted;
      WonByMajority(rest, if granted then votes + 1 else votes, majority, term);
      FirstGranter(first, rest);
      assert first.from !in Granters(rest);
    }
  }

  /** The answer shows a term above `term`. */
  predicate ShowsNewer(r: VoteReply, term: nat) { r.answer.Some? && r.answer.value.term > term }

  /** The position of the first answer that shows a term above `term`. */
  ghost function FirstNewer(replies: seq<VoteReply>, term: nat): (q: nat)
    ensures q <= |replies| && (forall i :: 0 <= i < q ==> !ShowsNewer(replies[i], term))
    ensures q < |replies| ==> ShowsNewer(replies[q], term)
    decreases |replies|
  {
    if replies == [] || ShowsNewer(replies[0], term) then 0 else 1 + FirstNewer(replies[1..], term)
  }

  /** An election is won exactly if the votes granted before the first answer from a newer term, with
      the candidate's own, are enough; otherwise that answer ends it, if there is one. */
  lemma {:induction false} TallyExact(replies: seq<VoteReply>, votes: nat, majority: nat, term: nat)
    requires forall i, j :: 0 <= i < j < |replies| ==> replies[i].from != replies[j].from
    ensures var q := FirstNewer(replies, term);
            Tally(replies, votes, majority, term) ==
            if votes + |Granters(replies[..q])| >= majority then Won
            else if q < |replies| then Newer(replies[q].answer.value.term) else Lost
    decreases |replies|
  {
    var q := FirstNewer(replies, term);
    if votes < majority {
      if q == 0 {
        assert Granters(replies[..q]) == {};
      } else {
        var first, rest := replies[0], replies[1..];
        assert replies[..q] == [first] + rest[..q - 1];
        FirstGranter(first, rest[..q - 1]);
        assert first.from !in Granters(rest[..q - 1]);
        TallyExact(rest, if first.answer.Some? && first.answer.value.granted then votes + 1 else votes, majority, term);
      }
    }
  }

  /** Granted answers are recorded votes, so winning the count is what taking over asks for. */
  lemma WonMayLead(s: State, c: Id, peers: seq<Id>, replies: seq<VoteReply>)
    requires c in s.nodes && s.nodes[c].role == Candidate && OnePerPeer(replies, peers)
    requires c !in peers && (forall i, j :: 0 <= i < j < |peers| ==> peers[i] != peers[j])
    requires s.Ids() == (set p | p in peers) + {c}
    requires Tally(replies, 1, (|peers| + 1) / 2 + 1, s.nodes[c].term) == Won
    requires VotedFor(s, c, c, s.nodes[c].term)
    requires forall q :: q in Granters(replies) ==> VotedFor(s, q, c, s.nodes[c].term)
    ensures CanBecomeLeader(s, c, Granters(replies) + {c})
  {
    WonByMajority(replies, 1, (|peers| + 1) / 2 + 1, s.nodes[c].term);
    IdsCount(peers, c);
    assert c !in Granters(replies);
    assert |Granters(replies) + {c}| == |Granters(replies)| + 1;
  }

  /** The peers known to store index `k`. */
  ghost function Storing(peers: seq<Id>, matchIndex: map<Id, nat>, k: nat): set<Id> {
    set p | p in peers && (if p in matchIndex then matchIndex[p] else 0) >= k
  }

  /** The log has an entry of term `term` at index `k`, and with the node itself more than half of
      the cluster stores it. */
  ghost predicate MajorityStores(peers: seq<Id>, matchIndex: map<Id, nat>, log: seq<Entry>, term: nat, k: nat) {
    1 <= k <= |log| && log[k - 1].term == term && 2 * (|Storing(peers, matchIndex, k)| + 1) > |peers| + 1
  }

  /** `commit` is not below any index from `from` on that the commit rule allows. */
  ghost predicate CommitsAll(peers: seq<Id>, matchIndex: map<Id, nat>, log: seq<Entry>, term: nat, from: nat, commit: nat) {
    forall k: nat :: from <= k && MajorityStores(peers, matchIndex, log, term, k) ==> k <= commit
  }

  lemma ReplicasAre(peers: seq<Id>, id: Id, n: Node, k: nat)
    requires id !in peers
    ensures Replicas((set p | p in peers) + {id}, id, n, k) == Storing(peers, n.matched, k) + {id}
    ensures |Storing(peers, n.matched, k) + {id}| == |Storing(peers, n.matched, k)| + 1
  {}

  /** More than half of the cluster is a quorum, and nothing less. */
  lemma QuorumExact(peers: seq<Id>, id: Id, q: set<Id>)
    requires id !in peers && (forall i, j :: 0 <= i < j < |peers| ==> peers[i] != peers[j])
    requires q <= (set p | p in peers) + {id}
    ensures Quorum((set p | p in peers) + {id}, q) <==> |q| >= (|peers| + 1) / 2 + 1
    ensures Quorum((set p | p in peers) + {id}, q) <==> 2 * |q| > |peers| + 1
  {
    IdsCount(peers, id);
  }

  lemma CountableExact(peers: seq<Id>, id: Id, n: Node, k: nat)
    requires id !in peers && (forall i, j :: 0 <= i < j < |peers| ==> peers[i] != peers[j]) && k > 0
    ensures Countable((set p | p in peers) + {id}, id, n, k) <==> n.snap <= k && MajorityStores(peers, n.matched, n.log, n.term, k)
  {
    hide Replicas, Quorum;
    ReplicasAre(peers, id, n, k);
    QuorumExact(peers, id, Storing(peers, n.matched, k) + {id});
  }

  /** Advancing reaches every index the rule allows, and lands on one or stays. */
  lemma AdvancedExact(peers: seq<Id>, id: Id, n: Node, threshold: nat)
    requires id !in peers && (forall i, j :: 0 <= i < j < |peers| ==> peers[i] != peers[j])
    ensures var r := Advanced((set p | p in peers) + {id}, id, n, threshold);
            && r.commit >= n.commit && CommitsAll(peers, n.matched, n.log, n.term, Max(n.commit + 1, n.snap), r.commit)
            && (r.commit != n.commit ==> n.snap <= r.commit && MajorityStores(peers, n.matched, n.log, n.term, r.commit))
  {
    hide Countable, MajorityStores, Settled;
    var ids := (set p | p in peers) + {id};
    var best := BestCommit(ids, id, n, |n.log|);
    if best > 0 {
      CountableExact(peers, id, n, best);
    }
    forall k: nat | Max(n.commit + 1, n.snap) <= k && MajorityStores(peers, n.matched, n.log, n.term, k)
      ensures k <= best
    {
      CountableExact(peers, id, n, k);
      WithinLog(peers, n, k);
    }
  }

  lemma WithinLog(peers: seq<Id>, n: Node, k: nat)
    requires MajorityStores(peers, n.matched, n.log, n.term, k)
    ensures k <= |n.log|
  {}

  class RaftNode {
    const id: Id
    const peers: seq<Id>
    const threshold: nat
    const store: Store

    var role: Role
    var currentTerm: nat
    var votedFor: Option<Id>
    var commitIndex: nat
    var lastApplied: nat
    var nextIndex: map<Id, nat>
    var matchIndex: map<Id, nat>

    /** The call in flight to each peer; in the source this is the position of a goroutine. */
    ghost var out: map<Id, Rpc>

    ghost function PeerSet(): set<Id> { set p | p in peers }

    ghost function Ids(): set<Id> { PeerSet() + {id} }

    /** Term and vote are always on disk, and progress is kept for peers only. */
    ghost predicate Valid()
      reads this, store
    {
      && store.Valid() && store.term == currentTerm && store.vote == votedFor
      && id !in peers && (forall i, j :: 0 <= i < j < |peers| ==> peers[i] != peers[j])
      && nextIndex.Keys <= PeerSet() && matchIndex.Keys <= PeerSet()
    }

    ghost function View(): Node
      reads this, store
    {
      Node(role, currentTerm, votedFor, store.log, store.snapshotIndex, commitIndex, lastApplied,
           store.lastApplied, store.kv, store.image, nextIndex, matchIndex, out)
    }

    /** Starting on an existing store: the durable part is all that survives. */
    constructor (id: Id, peers: seq<Id>, threshold: nat, store: Store, ghost was: Node)
      requires store.Valid() && id !in peers && (forall i, j :: 0 <= i < j < |peers| ==> peers[i] != peers[j])
      requires was.term == store.term && was.vote == store.vote && was.log == store.log
      requires was.snap == store.snapshotIndex && was.disk == store.lastApplied
      requires was.kv == store.kv && was.image == store.image
      ensures Valid() && this.store == store && this.id == id && this.peers == peers && this.threshold == threshold
      ensures View() == Restarted(was)
      ensures role == Follower && currentTerm == store.term && votedFor == store.vote
      ensures commitIndex == lastApplied == store.lastApplied && nextIndex == map[] && matchIndex == map[] && out == map[]
    {
      this.id, this.peers, this.threshold, this.store := id, peers, threshold, store;
      role, currentTerm, votedFor := Follower, store.term, store.vote;
      commitIndex, lastApplied := store.lastApplied, store.lastApplied;
      nextIndex, matchIndex, out := map[], map[], map[];
    }

    function Majority(): nat { (|peers| + 1) / 2 + 1 }

    method StepDown(term: nat)
      requires Valid()
      modifies this, store
      ensures Valid() && View() == SteppedDown(old(View()), term)
      ensures role == Follower && currentTerm == Max(old(currentTerm), term)
      ensures votedFor == if term > old(currentTerm) then None else old(votedFor)
    {
      if term > currentTerm {
        currentTerm, votedFor := term, None;
        store.SaveTermVote(currentTerm, votedFor);
      }
      role := Follower;
    }

    method ObserveHigherTerm(term: nat) returns (higher: bool)
      requires Valid()
      modifies this, store
      ensures Valid() && higher == (term > old(currentTerm))
      ensures View() == if higher then SteppedDown(old(View()), term) else old(View())
    {
      if term <= currentTerm {
        return false;
      }
      StepDown(term);
      return true;
    }

    // ---------------------------------------------------------------- elections

    method BecomeCandidate() returns (ballot: Option<VoteRequest>)
      requires Valid()
      modifies this, store
      ensures Valid() && ballot == if old(role) == Leader then None else Some(Candidacy(old(View()), id))
      ensures View() == if old(role) == Leader then old(View())
                        else Standing(old(View()), id)
      ensures old(role) != Leader ==>
                && role == Candidate && currentTerm == old(currentTerm) + 1 && votedFor == Some(id)
                && ballot == Some(VoteRequest(currentTerm, id, |store.log|, LastTerm(store.log)))
    {
      if role == Leader {
        return None;
      }
      role, currentTerm, votedFor := Candidate, currentTerm + 1, Some(id);
      store.SaveTermVote(currentTerm, votedFor);
      var lastIndex, lastTerm := store.LastIndexAndTerm();
      ballot := Some(VoteRequest(currentTerm, id, lastIndex, lastTerm));
    }

    /** A vote is granted exactly if the request is not from an older term, no other candidate has
        this node's vote in its term, and the candidate's log is at least as complete. */
    method RequestVote(v: VoteRequest) returns (answer: VoteAnswer)
      requires Valid()
      modifies this, store
      ensures Valid() && (View(), answer) == HandledVote(old(View()), v)
      ensures answer.granted <==>
                && v.term >= old(currentTerm)
                && (v.term > old(currentTerm) || old(votedFor) == None || old(votedFor) == Some(v.candidate))
                && (v.lastTerm > LastTerm(old(store.log)) || (v.lastTerm == LastTerm(old(store.log)) && v.lastIndex >= |old(store.log)|))
      ensures answer.term == currentTerm == Max(old(currentTerm), v.term)
      ensures role == if v.term > old(currentTerm) then Follower else old(role)
      ensures votedFor == if answer.granted then Some(v.candidate) else if v.term > old(currentTerm) then None else old(votedFor)
    {
      if v.term < currentTerm {
        return VoteAnswer(currentTerm, false);
      }
      if v.term > currentTerm {
        StepDown(v.term);
      }
      var lastIndex, lastTerm := store.LastIndexAndTerm();
      var upToDate := v.lastTerm > lastTerm || (v.lastTerm == lastTerm && v.lastIndex >= lastIndex);
      var votedForSomeoneElse := votedFor != None && votedFor != Some(v.candidate);
      if votedForSomeoneElse || !upToDate {
        return VoteAnswer(currentTerm, false);
      }
      votedFor := Some(v.candidate);
      store.SaveTermVote(currentTerm, votedFor);
      return VoteAnswer(currentTerm, true);
    }

    /** One election: ask every peer and read the answers in the order they arrive. The node takes
        over as soon as it has a majority, and gives up on the first answer from a newer term. */
    method StartElection(replies: seq<VoteReply>)
      requires Valid() && OnePerPeer(replies, peers)
      modifies this, store
      ensures Valid()
      ensures var n := Standing(old(View()), id);
              View() == if old(role) == Leader then old(View())
                        else
                          match Tally(replies, 1, Majority(), n.term)
                          case Won => TookOver(Ids(), id, n, threshold)
                          case Newer(t) => SteppedDown(n, t)
                          case Lost => n
      ensures old(role) != Leader ==>
                var q := FirstNewer(replies, old(currentTerm) + 1);
                (role, currentTerm, votedFor) ==
                if 2 * (|Granters(replies[..q])| + 1) > |peers| + 1 then (Leader, old(currentTerm) + 1, Some(id))
                else if q < |replies| then (Follower, replies[q].answer.value.term, None)
                else (Candidate, old(currentTerm) + 1, Some(id))
    {
      hide TookOver, FirstNewer, Granters, Holds;
      TallyExact(replies, 1, Majority(), currentTerm + 1);
      TookOverLeads(Ids(), id, Standing(View(), id), threshold);
      var ballot := BecomeCandidate();
      if ballot == None {
        return;
      }
      ghost var n := View();
      var votes := 1;
      if votes >= Majority() {
        BecomeLeader(currentTerm);
        return;
      }
      assert replies[0..] == replies;
      for i := 0 to |replies|
        invariant Valid() && View() == n && votes < Majority()
        invariant Tally(replies, 1, Majority(), n.term) == Tally(replies[i..], votes, Majority(), n.term)
      {
        assert replies[i..][0] == replies[i] && replies[i..][1..] == replies[i + 1..];
        if replies[i].answer != None {
          var higher := ObserveHigherTerm(replies[i].answer.value.term);
          if higher {
            return;
          }
          if replies[i].answer.value.granted {
            votes := votes + 1;
            if votes >= Majority() {
              BecomeLeader(currentTerm);
              return;
            }
          }
        }
      }
      assert replies[|replies|..] == [];
    }

    // ---------------------------------------------------------------- committing and applying

    /** The count and the set of replicas agree, so comparing with `Majority` is asking for a quorum. */
    method ReplicaCount(index: nat) returns (count: nat)
      requires Valid()
      ensures count == |Replicas(Ids(), id, View(), index)| == |Storing(peers, matchIndex, index)| + 1
      ensures count >= Majority() <==> Quorum(Ids(), Replicas(Ids(), id, View(), index))
    {
      hide Replicas, Quorum;
      ghost var keep := Storing(peers, matchIndex, index);
      count := 1;
      for i := 0 to |peers|
        invariant count == 1 + |Among(peers[..i], keep)|
      {
        OneMoreAmong(peers, i, keep);
        var match_ := if peers[i] in matchIndex then matchIndex[peers[i]] else 0;
        if match_ >= index {
          count := count + 1;
        }
      }
      assert peers[..|peers|] == peers;
      assert Among(peers, keep) == keep;
      ReplicasAre(peers, id, View(), index);
      QuorumExact(peers, id, keep + {id});
    }

    /** The loop of the leader's commit rule finds the highest index that may be committed. */
    method HighestCommittable() returns (committed: nat)
      requires Valid()
      ensures committed == BestCommit(Ids(), id, View(), |store.log|)
    {
      hide Replicas, Quorum, Storing, Holds;
      var last, _ := store.LastIndexAndTerm();
      committed := commitIndex;
      var index := commitIndex + 1;
      while index <= last
        invariant commitIndex + 1 <= index && (commitIndex <= last ==> index <= last + 1)
        invariant committed == BestCommit(Ids(), id, View(), index - 1)
      {
        var term, known := store.TermOf(index);
        if known && term == currentTerm {
          var count := ReplicaCount(index);
          if count >= Majority() {
            committed := index;
          }
        }
        index := index + 1;
      }
    }

    /** Every entry of the current term that more than half of the cluster stores ends up committed,
        and the commit index moves to such an entry only. */
    method AdvanceCommit()
      requires Valid()
      modifies this, store
      ensures Valid() && View() == Advanced(Ids(), id, old(View()), threshold)
      ensures CommitsAll(peers, matchIndex, store.log, currentTerm, Max(old(commitIndex) + 1, old(store.snapshotIndex)), commitIndex)
      ensures commitIndex >= old(commitIndex)
      ensures commitIndex != old(commitIndex) ==> MajorityStores(peers, matchIndex, store.log, currentTerm, commitIndex)
      ensures matchIndex == old(matchIndex) && nextIndex == old(nextIndex)
      ensures store.log == old(store.log) && currentTerm == old(currentTerm)
    {
      hide Settled, BestCommit, MajorityStores, CommitsAll, Holds;
      AdvancedExact(peers, id, View(), threshold);
      var committed := HighestCommittable();
      if committed == commitIndex {
        return;
      }
      commitIndex := committed;
      ApplyCommitted();
    }

    /** Feeds committed entries to the state machine in order, then compacts if that is due. */
    method ApplyCommitted()
      requires Valid()
      modifies this, store
      ensures Valid() && View() == Settled(old(View()), threshold)
    {
      hide Due, Compacted, Execute;
      while lastApplied < commitIndex
        invariant Valid() && Drained(View()) == Drained(old(View()))
        decreases commitIndex - lastApplied
      {
        var index := lastApplied + 1;
        var entry := store.EntryAt(index);
        if entry == None {
          var skipped := SkipCompacted(index);
          if !skipped {
            return;
          }
        } else {
          store.ApplyCommand(index, entry.value.command);
          lastApplied := index;
        }
      }
      CompactIfNeeded();
    }

    method SkipCompacted(index: nat) returns (skipped: bool)
      requires Valid()
      modifies this, store
      ensures Valid() && skipped == (index <= store.snapshotIndex)
      ensures View() == if skipped then old(View()).(applied := store.snapshotIndex, disk := store.snapshotIndex)
                        else old(View())
    {
      if index > store.snapshotIndex {
        return false;
      }
      store.SkipTo(store.snapshotIndex);
      lastApplied := store.snapshotIndex;
      return true;
    }

    method CompactIfNeeded()
      requires Valid()
      modifies this, store
      ensures Valid() && View() == if Due(old(View()), threshold) then Compacted(old(View())) else old(View())
      ensures store.snapshotIndex ==
              if 0 < threshold <= lastApplied - old(store.snapshotIndex) && lastApplied <= |store.log|
              then lastApplied else old(store.snapshotIndex)
      ensures store.image == if store.snapshotIndex == old(store.snapshotIndex) then old(store.image) else store.kv
    {
      if threshold == 0 || lastApplied == 0 {
        return;
      }
      if lastApplied <= store.snapshotIndex || lastApplied - store.snapshotIndex < threshold {
        return;
      }
      var term, known := store.TermOf(lastApplied);
      if !known {
        return;
      }
      store.CreateSnapshot(lastApplied, term);
    }

    // ---------------------------------------------------------------- following

    /** Stores whatever lines a leader sent: the loop keeps what matches, cuts at the first conflict
        and rewrites from there. Consecutive lines after a stored position are merged into the log. */
    method StoreLeaderEntries(lines: seq<Line>, prev: nat) returns (match_: nat)
      requires Valid()
      modifies store`rows, store`log
      ensures store.rows == StoredRows(old(store.rows), store.snapshotIndex, lines)
      ensures match_ == LinesConfirm(prev, store.snapshotIndex, lines)
      ensures store.snapshotIndex <= prev <= |old(store.log)| && Continues(lines, prev) ==>
                && Valid() && match_ == prev + |lines|
                && View() == old(View()).(log := Merge(old(store.log), prev, Entries(lines)))
    {
      hide Holds, Merge;
      ghost var log, snap := store.log, store.snapshotIndex;
      match_ := prev;
      var missing: seq<Line> := [];
      assert lines[0..] == lines;
      for i := 0 to |lines|
        invariant LinesConfirm(prev, snap, lines) == LinesConfirm(match_, snap, lines[i..])
        invariant StoredRows(old(store.rows), snap, lines) ==
                  if missing == [] then StoredRows(store.rows, snap, lines[i..])
                  else Upserted(store.rows, missing + Above(lines[i..], snap))
      {
        var line := lines[i];
        assert lines[i..][0] == line && lines[i..][1..] == lines[i + 1..];
        if line.index > store.snapshotIndex {
          match_ := Max(match_, line.index);
          if |missing| > 0 {
            assert missing + Above(lines[i..], snap) == (missing + [line]) + Above(lines[i + 1..], snap);
            missing := missing + [line];
          } else {
            var term, stored := store.TermOf(line.index);
            if !stored || term != line.entry.term {
              if stored {
                store.DeleteFrom(line.index);
              }
              missing := [line];
            }
          }
        }
      }
      assert lines[|lines|..] == [] && missing + [] == missing;
      store.AppendEntries(missing);
      if snap <= prev <= |log| && Continues(lines, prev) {
        StoredRowsMerge(old(store.rows), log, snap, prev, lines);
        AllAbove(lines, prev, snap);
        store.log := Merge(log, prev, Entries(lines));
        SnapshotKept(log, store.log, snap, prev);
      }
    }

    method FollowLeaderCommit(leaderCommit: nat)
      requires Valid()
      modifies this, store
      ensures Valid()
      ensures View() == if leaderCommit <= old(commitIndex) then old(View())
                        else Settled(old(View()).(commit := Min(leaderCommit, |old(store.log)|)), threshold)
    {
      if leaderCommit <= commitIndex {
        return;
      }
      var last, _ := store.LastIndexAndTerm();
      commitIndex := Min(leaderCommit, last);
      ApplyCommitted();
    }

    method RejectAppend() returns (answer: AppendAnswer)
      requires Valid()
      ensures answer == AppendAnswer(currentTerm, false, |store.log|)
    {
      var last, _ := store.LastIndexAndTerm();
      answer := AppendAnswer(currentTerm, false, last);
    }

    /** Whoever leads `term` is followed. */
    method FollowTerm(term: nat)
      requires Valid() && term >= currentTerm
      modifies this, store
      ensures Valid() && View() == SteppedDown(old(View()), term) && currentTerm == term
    {
      if term > currentTerm || role != Follower {
        StepDown(term);
      }
    }

    /** A request of an older term changes nothing. Any other one makes the node a follower of its term,
        and succeeds exactly if the node has the position it names, with that term. */
    method AppendEntries(r: AppendRequest) returns (answer: AppendAnswer)
      requires Valid()
      modifies this, store
      ensures Valid()
      ensures View() == HandledAppend(old(View()), r, threshold).0
      ensures answer == HandledAppend(old(View()), r, threshold).1
      ensures AppendOutcome(old(View()), r, View(), answer)
    {
      hide Followed, AppendOutcome, Holds;
      AppendExact(View(), r, threshold);
      if r.term < currentTerm {
        answer := RejectAppend();
        return;
      }
      FollowTerm(r.term);
      if r.prev < store.snapshotIndex {
        return AppendAnswer(currentTerm, false, store.snapshotIndex);
      }
      var prevTerm, known := store.TermOf(r.prev);
      if !known || prevTerm != r.prevTerm {
        answer := RejectAppend();
        return;
      }
      var match_ := AcceptEntries(r);
      answer := AppendAnswer(currentTerm, true, match_);
    }

    /** Stores the entries after a position the node has, and follows the leader's commit index. */
    method AcceptEntries(r: AppendRequest) returns (match_: nat)
      requires Valid() && Matches(View(), r)
      modifies this, store
      ensures Valid() && View() == Followed(old(View()), r, threshold)
      ensures match_ == r.End() && currentTerm == old(currentTerm)
    {
      hide Settled, Merge, Holds, StoredRows, LinesConfirm;
      var lines := Lines(r.prev + 1, r.entries);
      assert Entries(lines) == r.entries;
      match_ := StoreLeaderEntries(lines, r.prev);
      FollowLeaderCommit(r.commit);
    }

    /** `r` is the request; of its history only the length and the last term travel. The answer is
        the node's term. */
    method InstallSnapshot(term: nat, index: nat, lastTerm: nat, data: KV, ghost r: SnapshotRequest) returns (answer: nat)
      requires Valid()
      requires term == r.term && index == r.Index() && lastTerm == LastTerm(r.history) && data == r.image
      modifies this, store
      ensures Valid() && View() == HandledInstall(old(View()), r) && answer == Max(old(currentTerm), term)
      ensures term < old(currentTerm) ==> View() == old(View())
      ensures term >= old(currentTerm) ==> currentTerm == term && role == Follower && store.snapshotIndex == Max(old(store.snapshotIndex), index)
      ensures term >= old(currentTerm) && index > old(store.snapshotIndex) ==>
                && store.kv == data && store.image == data && store.lastApplied == index
                && commitIndex == Max(old(commitIndex), index) && lastApplied == Max(old(lastApplied), index)
                && store.log == r.history + (if |old(store.log)| > index then old(store.log)[index..] else [])
      ensures index <= old(store.snapshotIndex) ==>
                store.kv == old(store.kv) && store.log == old(store.log) && commitIndex == old(commitIndex) && lastApplied == old(lastApplied)
    {
      if term < currentTerm {
        return currentTerm;
      }
      FollowTerm(term);
      if index <= store.snapshotIndex {
        return currentTerm;
      }
      store.InstallSnapshot(index, lastTerm, data, r.history);
      commitIndex, lastApplied := Max(commitIndex, index), Max(lastApplied, index);
      return currentTerm;
    }

    // ---------------------------------------------------------------- leading

    /** Takes over unless the node has moved on since the votes were asked for. */
    method BecomeLeader(term: nat)
      requires Valid()
      modifies this, store
      ensures Valid()
      ensures View() == if old(role) == Candidate && old(currentTerm) == term
                        then TookOver(Ids(), id, old(View()), threshold) else old(View())
      ensures old(role) == Candidate && old(currentTerm) == term ==> role == Leader && currentTerm == term
    {
      TookOverLeads(Ids(), id, View(), threshold);
      if role != Candidate || currentTerm != term {
        return;
      }
      ResetProgress();
      if |peers| == 0 {
        AdvanceCommit();
      } else {
        assert peers[0] in Ids();
      }
    }

    /** Leading starts with every peer expected right behind the last entry and nothing matched. */
    method ResetProgress()
      requires Valid()
      modifies this
      ensures Valid() && View() == Elected(Ids(), id, old(View()))
      ensures role == Leader && nextIndex.Keys == matchIndex.Keys == PeerSet()
      ensures forall p :: p in peers ==> nextIndex[p] == |store.log| + 1 && matchIndex[p] == 0
    {
      var last, _ := store.LastIndexAndTerm();
      assert Ids() - {id} == PeerSet();
      var next, matched := FreshProgress(peers, PeerSet(), nextIndex, matchIndex, last);
      role, nextIndex, matchIndex, out := Leader, next, matched, map[];
    }

    method AppendClientEntry(command: Command) returns (index: Option<nat>)
      requires Valid()
      modifies this, store
      ensures Valid() && index == if old(role) == Leader then Some(|old(store.log)| + 1) else None
      ensures View() == if old(role) == Leader then Proposed(Ids(), id, old(View()), command, threshold) else old(View())
      ensures old(role) == Leader ==> store.log == old(store.log) + [Entry(old(currentTerm), command)]
      ensures old(role) == Leader && old(commitIndex) <= |old(store.log)| ==>
                commitIndex == if |peers| == 0 then |store.log| else old(commitIndex)
    {
      if role != Leader {
        return None;
      }
      hide Advanced, Holds;
      if commitIndex <= |store.log| {
        ProposedExact(Ids(), id, View(), command, threshold);
      }
      var last, _ := store.LastIndexAndTerm();
      store.AppendEntries([Line(last + 1, Entry(currentTerm, command))]);
      assert store.log == old(store.log) + [Entry(currentTerm, command)];
      if |peers| == 0 {
        AdvanceCommit();
      } else {
        assert peers[0] in Ids();
      }
      return Some(last + 1);
    }

    method PeerNeedsSnapshot(p: Id) returns (needs: bool)
      requires Valid()
      ensures needs == (NextIndex(View(), p) <= store.snapshotIndex)
    {
      needs := Max(if p in nextIndex then nextIndex[p] else 0, 1) <= store.snapshotIndex;
    }

    /** The next call to a peer, now in flight, or a lower next index if the term at the peer's position
        is unknown. `lines` are the entries with their indices: they start at the first stored index
        if the position is inside the snapshot. */
    method BuildAppendRequest(p: Id, call: nat) returns (r: Option<AppendRequest>, lines: seq<Line>)
      requires Valid() && p in peers && p !in out
      modifies this`nextIndex, this`out
      ensures Valid()
      ensures View() == Built(old(View()), id, p, call).0 && r == Built(old(View()), id, p, call).1
      ensures r.Some? ==>
                var from := Max(r.value.prev, store.snapshotIndex);
                lines == Numbered(store.log, from, QueryEnd(|store.log|, from + 1, BATCH)) && r.value.entries == Entries(lines)
      ensures var prev := NextIndex(old(View()), p) - 1;
              && (r.Some? <==> prev == 0 || store.snapshotIndex <= prev <= |store.log|)
              && (r.Some? ==> r.value.term == currentTerm && r.value.prev == prev && r.value.commit == commitIndex)
              && (r.None? ==> nextIndex == old(nextIndex)[p := Max(prev, 1)])
    {
      hide Holds, Batch, Numbered, QueryEnd, Entries;
      var next := Max(if p in nextIndex then nextIndex[p] else 0, 1);
      var prevTerm, known := store.TermOf(next - 1);
      if !known {
        KeysStay(nextIndex, p, Max(next - 1, 1), PeerSet());
        nextIndex := nextIndex[p := Max(next - 1, 1)];
        return None, [];
      }
      lines := store.EntriesFrom(next, BATCH);
      CarriedLines(store.log, Max(next - 1, store.snapshotIndex));
      r := Some(AppendRequest(call, currentTerm, id, p, next - 1, prevTerm, Entries(lines), commitIndex));
      out := out[p := AppendRpc(r.value)];
    }

    /** Loads the stored snapshot for a peer; the call is in flight. */
    method SendSnapshot(p: Id, call: nat) returns (term: nat, index: nat, lastTerm: nat, data: KV, ghost r: SnapshotRequest)
      requires Valid() && p in peers && p !in out
      modifies this`out
      ensures Valid()
      ensures r == SnapshotRequest(call, currentTerm, id, p, store.log[..store.snapshotIndex], store.image)
      ensures term == r.term && index == r.Index() && lastTerm == LastTerm(r.history) && data == r.image
      ensures View() == old(View()).(out := old(out)[p := SnapshotRpc(r)])
    {
      term := currentTerm;
      index, lastTerm, data := store.LoadSnapshot();
      r := SnapshotRequest(call, currentTerm, id, p, store.log[..store.snapshotIndex], store.image);
      out := out[p := SnapshotRpc(r)];
    }

    /** A call failed or timed out. */
    method CallFailed(p: Id)
      requires Valid()
      modifies this`out
      ensures Valid() && View() == old(View()).(out := old(out) - {p})
    {
      out := out - {p};
    }

    method RecordPeerProgress(p: Id, match_: nat)
      requires Valid() && p in peers
      modifies this`matchIndex, this`nextIndex, this`out
      ensures Valid() && View() == Recorded(old(View()), p, match_)
      ensures var best := Max(if p in old(matchIndex) then old(matchIndex)[p] else 0, match_);
              matchIndex == old(matchIndex)[p := best] && nextIndex == old(nextIndex)[p := best + 1]
    {
      hide Holds;
      var matched := if p in matchIndex then matchIndex[p] else 0;
      if match_ > matched {
        matched := match_;
      }
      SetProgress(p, matched, matched + 1);
      assert matched == Max(Matched(old(View()), p), match_);
    }

    method SetProgress(p: Id, match_: nat, next: nat)
      requires Valid() && p in peers
      modifies this`matchIndex, this`nextIndex, this`out
      ensures Valid()
      ensures nextIndex == old(nextIndex)[p := next] && matchIndex == old(matchIndex)[p := match_] && out == old(out) - {p}
    {
      hide Holds;
      KeysStay(nextIndex, p, next, PeerSet());
      KeysStay(matchIndex, p, match_, PeerSet());
      matchIndex := matchIndex[p := match_];
      nextIndex := nextIndex[p := next];
      out := out - {p};
    }

    /** After a refusal: right behind the hint if that is ahead, and otherwise at least one step back. */
    method BackOff(p: Id, hint: nat)
      requires Valid() && p in peers
      modifies this`nextIndex, this`out
      ensures Valid() && View() == BackedOff(old(View()), p, hint)
      ensures var next := NextIndex(old(View()), p);
              nextIndex == old(nextIndex)[p := if hint >= next then hint + 1 else Max(1, Min(next - 1, hint + 1))]
    {
      var next := Max(if p in nextIndex then nextIndex[p] else 0, 1);
      KeysStay(nextIndex, p, NextAfterRejection(next, hint), PeerSet());
      nextIndex := nextIndex[p := NextAfterRejection(next, hint)];
      out := out - {p};
    }

    /** What follows the answer to an append; true when it was accepted. */
    method ReadAppendAnswer(p: Id, r: AppendRequest, answer: AppendAnswer) returns (accepted: bool)
      requires Valid() && p in peers
      modifies this, store
      ensures Valid() && View() == HandledReply(Ids(), id, old(View()), p, r, answer, threshold)
      ensures accepted <==> answer.success && answer.term <= old(currentTerm) && old(role) == Leader && old(currentTerm) == r.term
      ensures answer.term > old(currentTerm) ==> currentTerm == answer.term && role == Follower && votedFor == None
      ensures accepted ==>
                && matchIndex == old(matchIndex)[p := Max(Matched(old(View()), p), Max(answer.match_, r.prev + |r.entries|))]
                && nextIndex == old(nextIndex)[p := matchIndex[p] + 1]
                && CommitsAll(peers, matchIndex, store.log, currentTerm, Max(old(commitIndex) + 1, old(store.snapshotIndex)), commitIndex)
      ensures !accepted && answer.term <= old(currentTerm) ==>
                && (role, currentTerm, votedFor, commitIndex, matchIndex) == old((role, currentTerm, votedFor, commitIndex, matchIndex))
                && nextIndex == if role == Leader && currentTerm == r.term
                                then old(nextIndex)[p := NextAfterRejection(NextIndex(old(View()), p), answer.match_)] else old(nextIndex)
    {
      hide CommitsAll, MajorityStores, Advanced, Holds;
      var higher := ObserveHigherTerm(answer.term);
      if higher || role != Leader || currentTerm != r.term {
        return false;
      }
      if !answer.success {
        BackOff(p, answer.match_);
        return false;
      }
      RecordPeerProgress(p, Max(answer.match_, r.End()));
      AdvanceCommit();
      return true;
    }

    method ReadSnapshotAnswer(p: Id, sentIn: nat, index: nat, answer: nat, ghost r: SnapshotRequest) returns (accepted: bool)
      requires Valid() && p in peers && sentIn == r.term && index == r.Index()
      modifies this, store
      ensures Valid() && View() == HandledInstalled(Ids(), id, old(View()), p, r, answer, threshold)
      ensures accepted <==> answer <= old(currentTerm) && old(role) == Leader && old(currentTerm) == sentIn
      ensures answer > old(currentTerm) ==> currentTerm == answer && role == Follower && votedFor == None
      ensures !accepted && answer <= old(currentTerm) ==> View() == old(View())
      ensures accepted ==>
                && matchIndex == old(matchIndex)[p := Max(Matched(old(View()), p), index)]
                && nextIndex == old(nextIndex)[p := matchIndex[p] + 1]
                && CommitsAll(peers, matchIndex, store.log, currentTerm, Max(old(commitIndex) + 1, old(store.snapshotIndex)), commitIndex)
    {
      hide CommitsAll, MajorityStores, Advanced, Holds;
      var higher := ObserveHigherTerm(answer);
      if higher || role != Leader || currentTerm != sentIn {
        return false;
      }
      RecordPeerProgress(p, index);
      AdvanceCommit();
      return true;
    }

    // ---------------------------------------------------------------- clients

    /** One look of the write path at the node: the commit index is tested first. */
    method PollCommit(index: nat, term: nat) returns (verdict: WaitVerdict)
      requires Valid()
      ensures verdict == WaitCheck(View(), index, term)
      ensures verdict == Acknowledged <==> commitIndex >= index
      ensures verdict == LostLeadership <==> commitIndex < index && (role != Leader || currentTerm != term)
      ensures verdict == KeepWaiting <==> commitIndex < index && role == Leader && currentTerm == term
    {
      var committed := commitIndex >= index;
      var lostLeadership := role != Leader || currentTerm != term;
      if committed {
        return Acknowledged;
      } else if lostLeadership {
        return LostLeadership;
      }
      return KeepWaiting;
    }

    /** What the comparison tool asks a node for: everything it stores, whatever the number of entries,
        and its state machine. */
    method InspectLog() returns (report: Compare.Report, state: KV)
      requires Valid()
      ensures report == Compare.ReportOf(View()) && state == store.kv
      ensures report.snapshot == store.snapshotIndex && report.commit == commitIndex
      ensures |report.lines| == |store.log| - store.snapshotIndex
      ensures forall i :: 0 <= i < |report.lines| ==>
                report.lines[i] == Line(store.snapshotIndex + i + 1, store.log[store.snapshotIndex + i])
    {
      hide Holds;
      var lines := store.EntriesFrom(store.snapshotIndex + 1, 0);
      report, state := Compare.Report(store.snapshotIndex, commitIndex, lines), store.kv;
    }

    /** The nodes in sync after a round in which the peers in `answered` took a call. */
    ghost function InSync(answered: set<Id>): set<Id> { Among(peers, answered) + {id} }

    /** One replication round; `answered` are the peers whose loop succeeded. */
    method ReplicateAll(answered: set<Id>) returns (inSync: nat)
      requires Valid()
      ensures inSync == |InSync(answered)| && InSync(answered) <= Ids()
    {
      inSync := 1;
      for i := 0 to |peers|
        invariant inSync == 1 + |Among(peers[..i], answered)|
      {
        OneMoreAmong(peers, i, answered);
        if peers[i] in answered {
          inSync := inSync + 1;
        }
      }
      assert peers[..|peers|] == peers;
      assert id !in Among(peers, answered);
    }

    /** A read is served exactly if the node leads and the nodes in sync are a majority. */
    method ConfirmLeadership(answered: set<Id>) returns (ok: bool)
      requires Valid()
      ensures ok <==> role == Leader && Quorum(Ids(), InSync(answered))
      ensures ok <==> role == Leader && 2 * |InSync(answered)| > |peers| + 1
    {
      var inSync := ReplicateAll(answered);
      IdsCount(peers, id);
      ok := role == Leader && inSync >= Majority();
    }

    /** A read: served after a confirmation round, from the state machine. */
    method Read(key: string, answered: set<Id>) returns (answer: ReadAnswer)
      requires Valid()
      ensures answer == BadKey <==> key == ""
      ensures answer == NotServed <==> key != "" && (role != Leader || 2 * |InSync(answered)| <= |peers| + 1)
      ensures answer == NotFound ==> key !in store.kv
      ensures answer.Found? ==> key in store.kv && answer.value == store.kv[key]
    {
      if key == "" {
        return BadKey;
      }
      var ok := ConfirmLeadership(answered);
      if !ok {
        return NotServed;
      }
      var value := store.Get(key);
      answer := if value == None then NotFound else Found(value.value);
    }
  }

  /** The write path: looks at the node until a look decides or the deadline ends the polling.
      `polls` are the node's records at those looks; `at` is the deciding one. */
  method WaitForCommit(polls: seq<Node>, index: nat, term: nat) returns (verdict: WaitVerdict, at: nat)
    ensures at <= |polls|
    ensures forall i :: 0 <= i < at ==> polls[i].role == Leader && polls[i].term == term && polls[i].commit < index
    ensures at < |polls| ==> verdict == WaitCheck(polls[at], index, term) != KeepWaiting
    ensures verdict == Acknowledged <==> at < |polls| && polls[at].commit >= index
    ensures verdict == LostLeadership <==> at < |polls| && polls[at].commit < index && (polls[at].role != Leader || polls[at].term != term)
    ensures verdict == KeepWaiting <==> at == |polls|
  {
    at, verdict := 0, KeepWaiting;
    while at < |polls|
      invariant at <= |polls| && verdict == KeepWaiting
      invariant forall i :: 0 <= i < at ==> WaitCheck(polls[i], index, term) == KeepWaiting
    {
      verdict := WaitCheck(polls[at], index, term);
      if verdict != KeepWaiting {
        return;
      }
      at := at + 1;
    }
  }

  /** A round whose answers were all given to calls made since the read arrived confirms the leader. */
  lemma RoundConfirms(s: State, s2: State, l: Id, peers: seq<Id>, answered: set<Id>)
    requires l in s.nodes && IsLeader(s2, l) && s.Ids() == (set p | p in peers) + {l}
    requires Quorum(s.Ids(), Among(peers, answered) + {l})
    requires forall p :: p in peers && p in answered ==> AnsweredSince(s, s2, l, p)
    ensures Confirmed(s, s2, l, Among(peers, answered) + {l})
  {}

  /** What a call carries continues the position it names, except when that position is inside the
      snapshot and there is something to send. */
  lemma ContiguousExactly(n: Node, prev: nat)
    requires n.snap <= |n.log| && prev <= |n.log|
    ensures var lines := Numbered(n.log, Max(prev, n.snap), QueryEnd(|n.log|, Max(prev, n.snap) + 1, BATCH));
            Continues(lines, prev) <==> n.snap <= prev || |n.log| == n.snap
  {
    var lines := Numbered(n.log, Max(prev, n.snap), QueryEnd(|n.log|, Max(prev, n.snap) + 1, BATCH));
    if prev < n.snap < |n.log| {
      assert lines[0].index == n.snap + 1;
    }
  }

  lemma CarriedLines(log: seq<Entry>, from: nat)
    requires from <= |log|
    ensures Entries(Numbered(log, from, QueryEnd(|log|, from + 1, BATCH))) == Batch(log, from)
  {}

  /** Storing a batch leaves the snapshot's index and term in the log. */
  lemma SnapshotKept(log: seq<Entry>, log2: seq<Entry>, snap: nat, prev: nat)
    requires snap <= prev <= |log| && prev <= |log2| && log2[..prev] == log[..prev]
    ensures snap <= |log2| && TermAt(log2, snap) == TermAt(log, snap)
  {
    AgreeTerm(log, log2, prev, snap);
  }

  method FreshProgress(peers: seq<Id>, ghost ids: set<Id>, next0: map<Id, nat>, matched0: map<Id, nat>, last: nat)
    returns (next: map<Id, nat>, matched: map<Id, nat>)
    requires ids == (set p | p in peers) && next0.Keys <= ids && matched0.Keys <= ids
    ensures next == (map p | p in ids :: last + 1) && matched == (map p | p in ids :: 0)
  {
    next, matched := next0, matched0;
    for i := 0 to |peers|
      invariant next.Keys <= ids && matched.Keys <= ids
      invariant forall j :: 0 <= j < i ==> peers[j] in next && next[peers[j]] == last + 1
      invariant forall j :: 0 <= j < i ==> peers[j] in matched && matched[peers[j]] == 0
    {
      next := next[peers[i] := last + 1];
      matched := matched[peers[i] := 0];
    }
  }

  lemma KeysStay(m: map<Id, nat>, p: Id, v: nat, ids: set<Id>)
    requires m.Keys <= ids && p in ids
    ensures m[p := v].Keys <= ids
  {}

  /** The peers that are in `keep`. */
  ghost function Among(peers: seq<Id>, keep: set<Id>): set<Id> {
    set p | p in peers && p in keep
  }

  lemma OneMoreAmong(peers: seq<Id>, i: nat, keep: set<Id>)
    requires i < |peers| && (forall i, j :: 0 <= i < j < |peers| ==> peers[i] != peers[j])
    ensures |Among(peers[..i + 1], keep)| == |Among(peers[..i], keep)| + if peers[i] in keep then 1 else 0
  {
    var p, before, after := peers[i], peers[..i], peers[..i + 1];
    assert forall q :: q in after <==> q in before || q == p by {
      assert after == before + [p];
    }
    assert p !in before;
    var had, has := Among(before, keep), Among(after, keep);
    if p in keep {
      assert has == had + {p};
    } else {
      assert has == had;
    }
  }

  lemma {:induction false} IdsCount(peers: seq<Id>, id: Id)
    requires id !in peers && (forall i, j :: 0 <= i < j < |peers| ==> peers[i] != peers[j])
    ensures |(set p | p in peers) + {id}| == |peers| + 1
  {
    DistinctCount(peers);
    assert id !in set p | p in peers;
  }

  lemma {:induction false} DistinctCount(peers: seq<Id>)
    requires forall i, j :: 0 <= i < j < |peers| ==> peers[i] != peers[j]
    ensures |set p | p in peers| == |peers|
  {
    if peers == [] {
      assert (set p | p in peers) == {};
    } else {
      var front, last := peers[..|peers| - 1], peers[|peers| - 1];
      DistinctCount(front);
      assert peers == front + [last];
      assert (set p | p in peers) == (set p | p in front) + {last};
    }
  }
}
