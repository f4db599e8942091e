# Log-Replicator-Raft, modelled and proved in Dafny

The repository replicates a key/value store with Raft: elections, log replication with a
`nextIndex` back-off, commitment by counting replicas, ordered apply, log compaction and snapshot
installation, on a durable SQLite store. This project models that protocol as the code carries it
out, and proves what it guarantees over every run.

## How the model is built

| layer | modules | what it holds |
|---|---|---|
| vocabulary | `Logs` | entries, commands, the replay of a log, the merge of a batch |
| cluster | `Cluster` | all nodes, every message ever sent, 21 kinds of steps, runs of steps |
| invariant | `Invariants`, `Consequences`, `Frames`, `FollowerFrame` | what every reachable state satisfies, and what follows from it |
| steps | `ElectionSteps`, `LeaderSteps`, `SendSteps`, `AppendSteps`, `InstallSteps`, `ReplySteps`, `LocalSteps`, `Safety` | each kind of step keeps the invariant |
| guarantees | `Theorems`, `Clients`, `StaleReads`, `Backoff`, `Compare` | the main results, over all runs |
| counterexamples | `Scenario`, `StaleReads`, `Backoff` | concrete runs for the claims that do not hold unconditionally |
| objects | `Storage` (`Store.dfy`), `RaftNodes` (`RaftNode.dfy`), `Replication` | the store and the node as classes whose methods are the handlers and loops of the source |
| link | `Handlers`, `Link` | each handler as a function of a node's record, and as a run of cluster steps |

Messages are never removed from the cluster state, so loss, delay, reordering and repeated delivery
are all part of every theorem. A crash may happen between any two steps, also between the two
transactions in which a follower drops a conflicting suffix and writes the new entries. A node's
record keeps its whole log; entries at or below its snapshot are not stored any more and no step
reads their commands, but properties can still speak about them.

The methods of `RaftNode` and `Store` are specified by what they do to that record (`View`) and, where
a decision is taken, by when they must take it, written out on the fields and the request. `Link`
shows that every such change, sending and reading answers included, is a sequence of cluster steps
under the assumptions below, and `Safety` shows that every sequence of steps keeps the invariant.

### Assumptions

- Node ids are distinct, and all nodes are configured with the same members.
- A store transaction is atomic, and it succeeds or the node crashes.
- Terms and indices are unbounded naturals.
- One call per peer is in flight, and an answer belongs to its call (the per-peer send lock and
  synchronous calls of the source).
- Checking that the node leads and building the request are one step. In the source they are separate
  critical sections (`internal/raft/replication.go:87`, `:124-127`, `:199-202`). This is a real
  restriction: `Scenario.UnguardedSend` shows a committed entry being overwritten without it.
- A leader does not compact between finding that a peer expected at index 1 needs no snapshot
  (`internal/raft/replication.go:90`) and building the request for it. For every other position the
  model has that interleaving: the source then lowers `nextIndex`, and so does the step `LowerNext`.
  For position zero, which the store always knows, the source sends a request that
  `Scenario.GapSend` and `Scenario.EmptyGapSend` show to be unsound; `RaftNodes.ContiguousExactly`
  says exactly when a request has a gap.

### Where the code does not do what its documentation says

- *A write is acknowledged once a majority stored it* (`internal/raft/client.go:162`). The write path
  tests the commit index before the loss of leadership, so it can acknowledge a write that a later
  leader replaced: `Scenario.FalseAcknowledgement`. `Clients.AcknowledgementExact` gives the exact
  condition: the term at the index is still the proposing term. The node can look it up as long as the
  index is not below its snapshot (`internal/storage/storage.go:195-196`).
- *A confirmation round keeps a leader from serving replaced values* (`docs/architecture.md:129-131`).
  A confirmed but freshly elected leader may not have applied what earlier leaders committed:
  `Scenario.StaleRead`. The exact condition is one the leader can look up: the entry after its commit
  index is of its own term or missing. With it every confirmed read is fresh
  (`Clients.ReadFreshness`); without it there is a run in which a leader with the same term, log and
  commit index is stale (`StaleReads.UncoveredIsStale`).
- *`nextIndex` walks back until the logs match again* (`internal/raft/replication.go:80-81`). It can
  go round forever: `Backoff.StuckFollower`, with the exact condition in `Backoff.BackoffExact` and the
  positions it visits in `Backoff.BackoffCycles`.

## Model

| member | source | states |
|---|---|---|
| `Theorems.ElectionSafety` | internal/raft/election.go:20-172 | over any run with crashes and repeated messages, two leaders of one term, at whatever two times, are the same node |
| `Theorems.LogMatching` | internal/raft/follower.go:36-46 | two stored entries with equal index and term are equal, and so is every pair of lower entries both nodes still store |
| `Theorems.LeaderCompleteness` | internal/raft/replication.go:249-279 | an index that the majority rule lets a leader commit is, with everything below it, in the log of every leader of a later term at any later time |
| `Theorems.StateMachineSafety` | internal/raft/replication.go:294-323 | two nodes that applied index `k`, at whatever two times of a run, applied the same terms and commands through `k` |
| `Theorems.CommittedAgree` | internal/raft/follower.go:146-159 | the committed parts of two nodes, at two times, are one log cut at two places |
| `Theorems.ExactlyOnce` | internal/raft/replication.go:294-370 | in memory and on disk the state machine is the replay of commands 1 to `applied`, and the stored snapshot the replay through its index, after any applies, compactions, installs and crashes |
| `Theorems.SameState` | internal/storage/storage.go:287-307 | nodes that applied equally far, at any two times, hold equal key/value maps |
| `Theorems.LastWriteWins` | internal/storage/storage.go:287-328 | in every reachable state a node has a key exactly if the last of the commands it applied on that key is a set, and then with the value set there |
| `Theorems.IndexOrder` | internal/raft/replication.go:294-343 | snapshot, applied, commit and last index are always in order, and the skip-compacted branch is never taken |
| `Theorems.CommitStays` | internal/raft/follower.go:110-159 | no step but a restart lowers a commit index, a restart falls back to the applied position, and no step changes an entry at or below the commit index |
| `Theorems.CommitCap` | internal/raft/follower.go:146-159 | although a follower caps by its own last index, an accepted request never makes it commit past its agreement with the sender's log |
| `Theorems.TailNotCommitted` | internal/storage/storage.go:386-401 | an entry that disagrees with the leader of any term from the node's own on is neither committed nor applied |
| `Theorems.TailIsLeftOver` | internal/raft/follower.go:82-98 | installing a snapshot over a longer log that disagrees with it leaves a tail whose last writer does not carry the snapshot |
| `Theorems.TailStaysLeftOver` | internal/storage/storage.go:423-428 | it stays such a tail through every step that does not replace its last entry or cover it with a snapshot |
| `Theorems.TailUncommitted` | internal/raft/follower.go:146-159 | no entry of such a tail is committed or applied, in whatever term its holder is: applied and commit index stand at the snapshot |
| `Theorems.TailNeverWins` | internal/raft/election.go:152-160 | a node that still holds such a tail cannot win an election, whoever voted |
| `Theorems.TailLasts` | internal/storage/storage.go:386-428 | over a whole run: until it is replaced or covered, the tail stays left over, uncommitted and unapplied, and its holder cannot take over with any votes |
| `Scenario.LeftOverOccurs` | internal/storage/storage.go:423-428 | such tails occur, in every three node cluster |
| `Theorems.InstallNeverBackwards` | internal/raft/follower.go:78-98 | a snapshot that passes the staleness guard is never behind the applied position, so memory and disk agree after it and the map is the replay of what it stands for |
| `Theorems.MatchIndexSound` | internal/raft/replication.go:153-159 | a follower in the leader's term agrees with the leader's log through its match index |
| `Theorems.MatchIndexLasts` | internal/raft/replication.go:372-376 | the follower still agrees through that index at any later time of the term |
| `Theorems.AgreementStays` | internal/raft/follower.go:110-144 | no step makes a follower lose agreement with the leader of the term it stays in |
| `Safety.StepKeeps` | internal/raft/replication.go:82-236 | every enabled step of any kind keeps the cluster invariant |
| `Safety.ReachableOk` | internal/raft/node.go:90-167 | every state reachable from freshly started nodes satisfies the invariant |
| `Safety.LaterKeeps` | internal/raft/node.go:117-145 | along a run nothing that was sent, voted, acknowledged or written by a leader is ever taken back, restarts included |
| `ElectionSteps.BecomeCandidateKeeps` | internal/raft/election.go:65-98 | a new candidacy keeps the invariant: one ballot per term and candidate, one vote per term and node |
| `ElectionSteps.GrantVoteKeeps` | internal/raft/election.go:135-172 | a granted vote keeps it: a vote vouches for everything the voter acknowledged that may be committed |
| `ElectionSteps.ObserveTermKeeps` | internal/raft/election.go:193-202 | adopting a newer term keeps it |
| `LeaderSteps.FreshTerm` | internal/raft/election.go:36-58 | a candidate with a majority stands in a term that nobody has led |
| `LeaderSteps.WinnerCarries` | internal/raft/election.go:152-160 | the log of a candidate with a majority contains whatever an earlier term committed or could still commit |
| `LeaderSteps.BecomeLeaderKeeps` | internal/raft/election.go:102-132 | taking over keeps the invariant |
| `LeaderSteps.ProposeKeeps` | internal/raft/client.go:185-207 | appending a client entry keeps it, also on a node that has been superseded unknowingly |
| `LeaderSteps.DeposedProposal` | internal/raft/client.go:189-198 | an entry appended by a leader after a later leader was elected can never be committed in its term |
| `SendSteps.SendAppendKeeps` | internal/raft/replication.go:167-196 | a request as built from `nextIndex` keeps the invariant: it is part of the leader's log and bounds where the follower can diverge |
| `SendSteps.SendSnapshotKeeps` | internal/raft/replication.go:198-215 | shipping the stored snapshot keeps it |
| `SendSteps.RejectKeeps` | internal/raft/follower.go:31-44 | a refusal with its hint keeps it |
| `AppendSteps.AcceptKeeps` | internal/raft/follower.go:46-58 | storing a batch, following the commit index and acknowledging keep it |
| `AppendSteps.CutKeeps` | internal/raft/follower.go:132-137 | so does the state between dropping a conflicting suffix and writing the new entries |
| `AppendSteps.CommitCapSound` | internal/raft/follower.go:148-159 | after acceptance the committed part is in the leader's log and the commit index neither fell nor passed the announced one |
| `InstallSteps.InstallForward` | internal/raft/follower.go:82-98 | an effective install lands at or above the commit index |
| `InstallSteps.InstallKeeps` | internal/raft/follower.go:63-105 | installing or ignoring a snapshot keeps the invariant |
| `ReplySteps.RecordReplyKeeps` | internal/raft/replication.go:146-161 | reading an answer, accepted or refused, keeps it |
| `ReplySteps.RecordInstallKeeps` | internal/raft/replication.go:225-236 | reading the answer to a snapshot keeps it |
| `ReplySteps.LowerNextKeeps` | internal/raft/replication.go:167-177 | lowering `nextIndex` keeps it, both from beyond the leader's own log and from inside a snapshot taken since the peer was found to need none |
| `LocalSteps.CountedIsChosen` | internal/raft/replication.go:249-291 | an index the majority rule counts is one of the leader's own term that a majority acknowledged while it was still there |
| `LocalSteps.AdvanceCommitKeeps` | internal/raft/replication.go:249-279 | moving the commit index by that rule keeps the invariant |
| `LocalSteps.ApplyNextKeeps` | internal/raft/replication.go:294-321 | applying one entry keeps it |
| `LocalSteps.CompactKeeps` | internal/raft/replication.go:347-370 | taking a snapshot keeps it, for leaders and followers |
| `LocalSteps.RestartKeeps` | internal/raft/node.go:117-145 | losing everything that is not on disk keeps it |
| `LocalSteps.StepDownKeeps` | internal/raft/node.go:306-326 | becoming a follower within a term keeps it |
| `LocalSteps.GiveUpKeeps` | internal/raft/replication.go:136-141 | a call that fails or times out keeps it |
| `Consequences.QuorumsMeet` | internal/raft/node.go:339-341 | two majorities share a node |
| `Logs.MergeExact` | internal/raft/follower.go:110-144 | storing a batch keeps the log if every entry is there already, and otherwise cuts at the first index that is free or has another term and appends the rest; the cut alone is what a crash between the two transactions leaves |
| `Logs.MergeAgain` | internal/raft/follower.go:110-144 | storing a batch twice is storing it once |
| `Logs.MergeAfterCut` | internal/raft/follower.go:132-142 | storing a batch after a crash that lost only the writes gives the log the uninterrupted call gives |
| `Logs.ReplayExact` | internal/storage/storage.go:287-307 | a key is in the replay of a log exactly if the last command on it is a set, and then with its value |
| `Clients.DurableAcknowledgement` | internal/raft/client.go:163-242 | a write acknowledged while its node still leads the proposing term is at its index in the log of every leader of that or a later term, and in every node that commits that index, at any later time |
| `Clients.AcknowledgementExact` | internal/raft/client.go:211-242 | an acknowledged write is what every node commits at its index, and every later leader holds there, if the acknowledging node still shows the proposing term at the index; otherwise no node and no such leader has it |
| `Scenario.FalseAcknowledgement` | internal/raft/client.go:219-230 | every three node cluster has a run in which the write path acknowledges `x` although its index holds `y` |
| `Clients.ConfirmedIsLatest` | internal/raft/client.go:246-264 | a leader confirmed by a majority of answers to calls made since the read arrived had not been superseded when it arrived |
| `Clients.ConfirmedHolds` | internal/raft/client.go:57-84 | such a leader's log holds everything any leader had committed before, and its commit index covers it except possibly for entries it was elected with |
| `Clients.CoversExactly` | internal/raft/client.go:246-264 | the commit index of a leader covers the log it was elected with if and only if the entry after it, which is never compacted, is of its own term or missing |
| `Clients.ReadFreshness` | internal/raft/client.go:57-84 | if the entry after the commit index is the leader's own or missing, the map a read is answered from is the replay of everything any leader had committed before the read, followed by newer entries |
| `StaleReads.UncoveredIsStale` | internal/raft/client.go:57-84 | the other half: for every leader that can occur and does not meet that condition there is a run in which a confirmed leader with the same term, log and commit index, everything committed applied, misses an entry committed before the read |
| `StaleReads.StaleWhenever` | internal/raft/election.go:102-132 | such a run for every term, every log with rising terms and every commit index for which the condition fails |
| `Clients.LeaderCommitGrows` | internal/raft/replication.go:249-279 | a leader's commit index never falls while it leads one term |
| `Clients.AppliedGrows` | internal/raft/replication.go:294-323 | the applied position of a process that stays up never falls |
| `Scenario.StaleRead` | internal/raft/client.go:57-84 | every three node cluster has a run in which a confirmed leader answers that a key does not exist although a leader had committed a write to it before the read |
| `Scenario.UnguardedSend` | internal/raft/replication.go:123-127 | if a node could build a request after it stopped leading, a follower would accept one that replaces a committed entry |
| `Scenario.GapSend` | internal/raft/replication.go:167-196 | if a leader compacts between the snapshot check and building the request, a request for position zero carries lines from behind the snapshot, and a peer without a log stores them there and confirms an index below which it holds nothing |
| `Scenario.EmptyGapSend` | internal/raft/follower.go:146-159 | the same with nothing behind the snapshot: a peer with another first entry accepts the request and commits that entry |
| `Backoff.BackoffExact` | internal/raft/replication.go:82-108 | the search from behind the leader's last entry ends, within three rounds, if and only if the logs match at the leader's end (longer follower), or at the follower's end or one below, or that end is compacted; otherwise no number of rounds ends it |
| `Backoff.BackoffUncompacted` | internal/raft/replication.go:409-420 | the same for logs without snapshots, where ending means being accepted |
| `Backoff.BackoffCycles` | internal/raft/replication.go:412-420 | a search that does not end repeats itself: between the follower's end and the position above it in turn, or, for a longer follower, up to its hint and down to the leader's end again, with the exact period |
| `Backoff.RetryIsRun` | internal/raft/replication.go:123-162 | a round that ends in a retry is a run of cluster steps that changes nothing but `nextIndex`, to the value the search computes |
| `Backoff.AcceptedIsRun` | internal/raft/replication.go:123-162 | a round that ends in acceptance is a run of cluster steps: shipped, stored, recorded, with both records |
| `Backoff.ShippedIsRun` | internal/raft/replication.go:198-236 | a round that needs a snapshot is a run: shipped, installed, recorded, with both records |
| `Backoff.StuckForever` | internal/raft/replication.go:412-420 | for a follower outside the condition the cluster has a run of any number of rounds that leaves follower and leader log as they are |
| `Backoff.StuckFollower` | internal/raft/follower.go:161-169 | such a follower is reachable in every three node cluster |
| `Replication.ReplicatePeer` | internal/raft/replication.go:82-108 | the loop between two node objects succeeds if and only if the search ends within 32 rounds, which from behind the last entry is the condition above; on success both records are those after the call at the position the search ended at, on failure the follower is unchanged |
| `Replication.ShipSnapshot` | internal/raft/replication.go:198-236 | ships the stored snapshot, with the resulting records of both nodes |
| `Compare.ComparableRange` | cmd/raftctl/main.go:153-160 | the window lies above every snapshot and within every commit index and cannot be widened |
| `Compare.DescribeEntries` | cmd/raftctl/main.go:162-171 | exactly the reported entries inside the window, in order |
| `Compare.FirstDifference` | cmd/raftctl/main.go:173-183 | a difference is found if and only if the lists differ, at the position where they stop being equal |
| `Compare.CompareLogs` | cmd/raftctl/main.go:114-149 | the verdict is agreement if and only if all windows are equal, whatever the order of the map; a difference names two reports and where their windows part; reports collected while the cluster ran always agree |
| `Compare.NamedIndex` | cmd/raftctl/main.go:141-143 | for reports of nodes the named index is the first one at which their logs differ |
| `Compare.ReportsAgree` | internal/raft/client.go:129-160 | the reports of any two nodes, taken at any two times of a run, show the same window |
| `Compare.NeverAccused` | cmd/raftctl/main.go:114-149 | the same for all reports of one collection, each taken at its own moment |
| `Storage.Store.LastIndexAndTerm` | internal/storage/storage.go:144-154 | the end of the uncompacted log, also when every row is compacted |
| `Storage.Store.TermOf` | internal/storage/storage.go:184-208 | known exactly for zero, the snapshot's index and the rows above it; on a log without gaps with the uncompacted log's term, exactly for what is not compacted |
| `Storage.Store.EntryAt` | internal/storage/storage.go:210-222 | the uncompacted log's entry, exactly for the stored indices |
| `Storage.Store.EntriesFrom` | internal/storage/storage.go:226-256 | the consecutive entries of the uncompacted log from the start, or from the first stored index: as many as the limit allows, and all of them if the limit is not positive |
| `Storage.Store.AppendEntries` | internal/storage/storage.go:260-275 | every line written, the last for an index winning; consecutive lines from a stored index or the end overwrite the uncompacted log there |
| `Storage.UpsertedExact` | internal/storage/storage.go:260-275 | what is stored at an index afterwards is the last line for it, and an index without a line is as before |
| `Storage.Store.DeleteFrom` | internal/storage/storage.go:279-284 | exactly the rows below the index are left; the uncompacted log is cut there, never into the snapshot |
| `Storage.Store.ApplyCommand` | internal/storage/storage.go:287-307 | a set puts its value at its key, a delete removes its key, no other key changes, and the applied position moves in the same transaction |
| `Storage.Store.Get` | internal/storage/storage.go:317-328 | the value at a key, exactly if the state machine has the key |
| `Storage.Store.CreateSnapshot` | internal/storage/storage.go:350-375 | the map is the new snapshot and the rows it covers are gone; for an index of the log with its term the uncompacted log is the same |
| `Storage.Store.InstallSnapshot` | internal/storage/storage.go:378-421 | map, snapshot and applied position are the leader's and rows above it stay; the rows are those of the overlaid log if and only if the snapshot is not older than the stored one |
| `Storage.StoredRowsMerge` | internal/raft/follower.go:110-144 | what the store loop does to the rows is, for consecutive lines after a stored position, the merge of the log with their entries |
| `Storage.StoredRowsAbove` | internal/raft/follower.go:110-144 | whatever lines a leader sends, nothing at or below the snapshot is written or dropped |
| `Storage.LinesConfirmExact` | internal/raft/follower.go:110-144 | the index confirmed is the highest of the previous position and the lines above the snapshot |
| `Storage.Mirror` | internal/storage/storage.go:423-428 | after any operations, a store that takes snapshots and one that never does stand for the same log and map and hold the same row at every index above the snapshot |
| `RaftNodes.RaftNode.constructor` | internal/raft/node.go:117-145 | a node started on a store is the restarted form of any node that left that store behind |
| `RaftNodes.RaftNode.StepDown` | internal/raft/node.go:306-326 | the role becomes follower; a newer term is adopted with its vote cleared, both on disk, and an older one changes neither |
| `RaftNodes.RaftNode.BecomeCandidate` | internal/raft/election.go:65-98 | the record of a standing node and its ballot, nothing for a leader |
| `RaftNodes.RaftNode.RequestVote` | internal/raft/election.go:135-172 | a vote is granted if and only if the term is not older, the node has no other vote in it, and the candidate's last term is higher or equal with a log no shorter; the answer's term, the role and the stored vote in every case |
| `RaftNodes.RaftNode.StartElection` | internal/raft/election.go:20-61 | the node leads if and only if the peers that granted before the first answer from a newer term are, with itself, more than half; otherwise it follows that newer term, or is still candidate if no answer shows one |
| `RaftNodes.TallyExact` | internal/raft/election.go:26-58 | the count ends as won, with a newer term or lost exactly by the number of distinct granters before the first answer from a newer term, and by whether there is one |
| `RaftNodes.WonByMajority` | internal/raft/election.go:26-58 | a tally is won only if the distinct peers that granted their vote and the candidate are a majority |
| `RaftNodes.WonMayLead` | internal/raft/election.go:50-57 | a won tally of recorded votes is what the cluster step of taking over requires |
| `RaftNodes.RaftNode.BecomeLeader` | internal/raft/election.go:102-132 | fresh progress for every peer, and a cluster of one commits at once; nothing if the node has moved on |
| `RaftNodes.RaftNode.StoreLeaderEntries` | internal/raft/follower.go:110-144 | for any lines the rows the loop leaves and the index it confirms; for consecutive lines after a stored position the merged log |
| `RaftNodes.RaftNode.FollowLeaderCommit` | internal/raft/follower.go:148-159 | the commit index capped by the own last index, and everything committed applied |
| `RaftNodes.RaftNode.AppendEntries` | internal/raft/follower.go:11-59 | an older term is refused and changes nothing; any other request is answered in its own term, by a follower of it, with success if and only if the node has the previous position with its term; log, commit index and confirmed or hinted index in both cases |
| `Handlers.AppendExact` | internal/raft/follower.go:11-59 | the same of the handler as a function, for every record and request |
| `RaftNodes.RaftNode.InstallSnapshot` | internal/raft/follower.go:63-105 | an older term changes nothing; otherwise the node follows, and a snapshot ahead of its own replaces map, snapshot and log up to it, keeps what lies above, and never moves the commit index or the applied position back |
| `RaftNodes.RaftNode.ReplicaCount` | internal/raft/replication.go:283-291 | the count is one more than the number of peers known to store the index, and reaching the majority is that set being a quorum |
| `RaftNodes.RaftNode.AdvanceCommit` | internal/raft/replication.go:249-279 | every entry of the current term that more than half of the cluster stores, itself included, ends up committed, and the commit index moves to such an entry only; then everything committed is applied |
| `Handlers.BestCommit` | internal/raft/replication.go:257-272 | the chosen index is countable and no higher one is; what is countable is written out by `RaftNodes.CountableExact` |
| `RaftNodes.CountableExact` | internal/raft/replication.go:257-291 | an index is countable if and only if it is not below the snapshot, its entry is of the current term, and twice the nodes storing it are more than the cluster |
| `RaftNodes.AdvancedExact` | internal/raft/replication.go:249-279 | the new commit index is at or above every index that rule allows, and is one of them or the old one |
| `RaftNodes.RaftNode.HighestCommittable` | internal/raft/replication.go:257-272 | the loop finds that index |
| `RaftNodes.RaftNode.ApplyCommitted` | internal/raft/replication.go:294-323 | the loop applies every committed entry in order, skips what a snapshot covers, stops at a missing entry, and compacts only if it reached the end |
| `Handlers.DrainedExact` | internal/raft/replication.go:294-323 | where the loop stops, for every record, and that the map afterwards is the replay of the log through there if it was one before |
| `Handlers.SettledExact` | internal/raft/replication.go:294-370 | the snapshot moves to the applied position if and only if everything committed is applied and at least a positive threshold of entries lies between |
| `RaftNodes.RaftNode.SkipCompacted` | internal/raft/replication.go:327-343 | moves the applied position to the snapshot exactly if that covers the index |
| `RaftNodes.RaftNode.CompactIfNeeded` | internal/raft/replication.go:347-370 | the snapshot moves to the applied position, with the map as its image, exactly if at least a positive threshold of entries lies between and the position is in the log |
| `RaftNodes.RaftNode.BuildAppendRequest` | internal/raft/replication.go:167-196 | the request for a peer, now in flight, with its lines, or a lowered `nextIndex` if its position is unknown |
| `RaftNodes.RaftNode.SendSnapshot` | internal/raft/replication.go:198-215 | the stored snapshot as the call in flight |
| `RaftNodes.ContiguousExactly` | internal/raft/replication.go:167-185 | a request's entries continue its previous position if and only if that is not inside the snapshot or there is nothing to send |
| `RaftNodes.RaftNode.RecordPeerProgress` | internal/raft/replication.go:372-383 | the match index never falls and `nextIndex` is one above it; no other peer's progress changes |
| `RaftNodes.RaftNode.BackOff` | internal/raft/replication.go:405-420 | `nextIndex` is right behind the hint if that is ahead of it, and otherwise lower, right behind the hint if that is lower still, and never below one |
| `RaftNodes.RaftNode.ReadAppendAnswer` | internal/raft/replication.go:142-161 | a newer term makes the node its follower; an answer that comes too late changes nothing; a refusal moves `nextIndex` back; an accepted call raises match and next index and commits everything a majority now stores; accepted exactly if successful, current and still leading |
| `RaftNodes.RaftNode.ReadSnapshotAnswer` | internal/raft/replication.go:221-236 | the same for the answer to a snapshot |
| `RaftNodes.RaftNode.AppendClientEntry` | internal/raft/client.go:185-207 | leaders only: the log grows by the entry in the current term and its index is returned; a cluster of one commits it at once, any other does not yet |
| `Handlers.ProposedExact` | internal/raft/client.go:185-207 | the same of the handler as a function |
| `RaftNodes.WaitForCommit` | internal/raft/client.go:211-242 | every look before the deciding one shows a node that leads the proposing term and has not committed the index; the deciding one acknowledges if and only if it shows the index committed and otherwise shows the leadership lost; without one the deadline ends the polling |
| `RaftNodes.RaftNode.PollCommit` | internal/raft/client.go:219-230 | committed, or uncommitted and leadership of the term lost, or uncommitted and still leading it: each verdict exactly in its case |
| `RaftNodes.RaftNode.ConfirmLeadership` | internal/raft/client.go:246-264 | a read goes ahead exactly if the node leads and the peers whose round succeeded are, with it, more than half of the cluster, which is what a quorum is |
| `RaftNodes.RaftNode.Read` | internal/raft/client.go:57-84 | an empty key is refused, a leader without a majority serves nothing, and otherwise the answer is the state machine's value or that there is none |
| `RaftNodes.RaftNode.InspectLog` | internal/raft/client.go:129-160 | the report holds every stored entry with its index, however many there are, and the state machine |
| `RaftNodes.RaftNode.ReplicateAll` | internal/raft/replication.go:61-78 | the count is the number of nodes in sync: the node itself and the peers whose round succeeded |
| `RaftNodes.RoundConfirms` | internal/raft/client.go:246-264 | a round whose answers were all given to calls made since the read arrived is the confirmation the freshness theorem asks for |
| `Link.VoteRuns` | internal/raft/election.go:135-172 | the vote handler is a run of cluster steps, a granted answer is a recorded vote, and it is granted if and only if the cluster step of granting is enabled once the term is joined |
| `Link.AppendRuns` | internal/raft/follower.go:11-59 | the append handler is a run; every request that is not of an older term is answered in the network, by the outcome `Handlers.AppendExact` states, and a success agrees with the log of the term's leader through the confirmed index; everything committed is left applied |
| `Link.InstallRuns` | internal/raft/follower.go:63-105 | so is the snapshot handler, after which the snapshot and the applied position are not behind the ones sent |
| `Link.SettleRuns` | internal/raft/replication.go:294-370 | so is applying and compacting: everything committed is applied, the map is the replay through the commit index, and the snapshot is there if and only if a positive threshold of entries was committed since the last one |
| `Link.AdvanceRuns` | internal/raft/replication.go:249-279 | so is the leader's commit rule: it lands on an index the cluster step allows, and no allowed index is higher |
| `Link.AdvanceRule` | internal/raft/replication.go:257-291 | the cluster step allows an index if and only if it is above the commit index, its entry is of the leader's term, and more than half of the nodes, the leader included, are known to store it |
| `Link.ReplyRuns` | internal/raft/replication.go:146-161 | so is reading an answer to an append |
| `Link.AnswerRuns` | internal/raft/replication.go:142-161 | so is reading any answer: one that shows a newer term deposes the leader, one that comes too late changes nothing |
| `Link.InstalledRuns` | internal/raft/replication.go:225-236 | so is reading an answer to a snapshot |
| `Link.SnapshotAnswerRuns` | internal/raft/replication.go:221-236 | so is reading any answer to a snapshot, with the same effect of a newer term |
| `Link.ProposeRuns` | internal/raft/client.go:185-207 | so is appending a client entry, which a cluster of one commits at once |
| `Link.TakeOverRuns` | internal/raft/election.go:102-132 | so is taking over after a won election: the node leads with its log, every peer expected behind its end and nothing matched |
| `Link.JoinRuns` | internal/raft/node.go:306-326 | so is stepping down to the term of a message |
| `Link.StandRuns` | internal/raft/election.go:65-98 | so is standing for election, with ballot and own vote recorded |
| `Link.BuildRuns` | internal/raft/replication.go:167-196 | so is building a request, sent or with a lowered `nextIndex`, for every position but zero under a snapshot |
| `Link.SendSnapshotRuns` | internal/raft/replication.go:198-215 | so is shipping the stored snapshot |
| `Link.FailRuns` | internal/raft/replication.go:136-141 | so is a call that fails |
| `Link.RestartRuns` | internal/raft/node.go:117-145 | so is a restart |

## Left out

- RaftNodes.WaitForCommit: the looks are a parameter, as records of the node at those moments; the ticker, the clock and the caller's cancellation are not modelled.
- RaftNodes.RaftNode.StartElection: the answers are a parameter, in order of arrival, and nothing else reaches the node meanwhile; the cluster steps cover the interleavings.
- Replication.ReplicatePeer: every call arrives and nothing else changes the two nodes meanwhile; the cluster steps cover the interleavings.
- SendSteps.SendAppendKeeps: the leader check is part of the step, and a position of zero under a snapshot is not sent; see the assumptions for what happens otherwise.
- SendSteps.SendSnapshotKeeps: the leader check is part of the step, as above.
- RaftNodes.RaftNode.ReplicateAll: which peers' rounds succeeded is a parameter; the goroutines are not modelled.
- Liveness under timing: election timers, random deadlines, heartbeat intervals, call timeouts. Starting an election and giving up a call are steps that may happen at any time.
- Partial storage failures and persistence errors that the source logs and ignores.
- SQL text, pragmas and driver behaviour; JSON encoding of commands and snapshots; the textual form of compared entries, which is taken to be injective.
- 64 bit wrap-around of terms and indices.
- Client forwarding, `Status`, leader hints and error codes; metrics, logging and reachability notes.
- gRPC and HTTP servers, dialling, shutdown, configuration parsing, and the printing and dispatch of `raftctl`.
