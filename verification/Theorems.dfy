module Theorems {
  // What the protocol guarantees, stated over every run: any interleaving of steps with lost,
  // late, reordered and repeated messages, and with nodes that crash and restart.

  import opened Logs
  import opened Cluster
  import opened Invariants
  import opened Consequences
  import opened AppendSteps
  import opened InstallSteps
  import opened LeaderSteps
  import opened LocalSteps
  import opened Safety

  // ---------------------------------------------------------------- elections and logs

  /** Election safety: nobody else ever leads a term that somebody leads. */
  lemma ElectionSafety(s: State, s2: State, l: Id, l2: Id)
    requires Reachable(s) && LeadsTo(s, s2)
    requires IsLeader(s, l) && IsLeader(s2, l2) && s.nodes[l].term == s2.nodes[l2].term
    ensures l == l2
  {
    ReachableOk(s);
    LaterKeeps(s, s2);
    LeaderOfReign(s, l);
    LeaderOfReign(s2, l2);
  }

  /** Log matching: two nodes that store the same term at an index store the same command there,
      and equal entries at every lower index both still hold. */
  lemma LogMatching(s: State, p: Id, q: Id, k: nat, j: nat)
    requires Reachable(s) && p in s.nodes && q in s.nodes
    requires s.nodes[p].snap < j <= k <= |s.nodes[p].log| && s.nodes[q].snap < j <= k <= |s.nodes[q].log|
    requires TermAt(s.nodes[p].log, k) == TermAt(s.nodes[q].log, k)
    ensures s.nodes[p].log[k - 1] == s.nodes[q].log[k - 1]
    ensures s.nodes[p].log[j - 1] == s.nodes[q].log[j - 1]
  {
    ReachableOk(s);
    assert NodeOk(s, p, s.nodes[p]) && NodeOk(s, q, s.nodes[q]);
    assert StoredOk(s, s.nodes[p], k) && StoredOk(s, s.nodes[q], k);
    StoredSorted(s, s.nodes[p], k, k);
    StoredSorted(s, s.nodes[q], k, k);
    StoredSorted(s, s.nodes[p], j, k);
    StoredSorted(s, s.nodes[q], j, k);
  }

  /** Leader completeness: what a leader may commit by the majority rule for its own term is in
      the log of every leader of a later term, from then on. */
  lemma LeaderCompleteness(s: State, l: Id, k: nat, s2: State, l2: Id)
    requires Reachable(s) && CanAdvanceCommit(s, l, k) && LeadsTo(s, s2)
    requires IsLeader(s2, l2) && s2.nodes[l2].term > s.nodes[l].term
    ensures Agree(s2.nodes[l2].log, s.nodes[l].log, k)
  {
    hide Extends, NodesOk, VotesOk, AcksOk, MessagesOk, PairsOk, ReignsOk, Chosen, Choosable, Quorum, CanAdvanceCommit, Reachable, LeadsTo;
    ReachableOk(s);
    LaterKeeps(s, s2);
    CountedIsChosen(s, l, k);
    CountedLeads(s, l, k);
    LeaderLog(s, l);
    LeaderLog(s2, l2);
    var t := s.nodes[l].term;
    ChosenStays(s, s2, t, k);
    ChosenIsChoosable(s2, t, k);
    assert Carries(s2, s2.nodes[l2].term, t, k);
    ReignGrows(s, s2, t);
    assert s2.reigns[t].log[..k] == s.reigns[t].log[..k];
  }

  lemma CountedLeads(s: State, l: Id, k: nat)
    requires CanAdvanceCommit(s, l, k)
    ensures IsLeader(s, l) && k <= |s.nodes[l].log|
  {}

  lemma ReignGrows(s: State, s2: State, t: nat)
    requires Extends(s, s2) && t in s.reigns
    ensures t in s2.reigns && s.reigns[t].log <= s2.reigns[t].log && s2.reigns[t].leader == s.reigns[t].leader
    ensures s2.reigns[t].base == s.reigns[t].base
  {}

  // ---------------------------------------------------------------- the state machine

  /** Whatever two nodes committed, now or at different times, is one log cut at two places. */
  lemma CommittedAgree(s: State, s2: State, p: Id, q: Id, k: nat)
    requires Inv(s) && Inv(s2) && Extends(s, s2) && p in s.nodes && q in s2.nodes
    requires k <= s.nodes[p].commit && k <= s2.nodes[q].commit
    ensures k <= |s.nodes[p].log| && k <= |s2.nodes[q].log|
    ensures s.nodes[p].log[..k] == s2.nodes[q].log[..k]
  {
    hide Extends, VotesOk, AcksOk, MessagesOk, PairsOk;
    var n, m := s.nodes[p], s2.nodes[q];
    assert NodeOk(s, p, n) && NodeOk(s2, q, m);
    CommittedStays(s, s2, n.log[..n.commit], n.term, n.term);
    CommittedComparable(s2, n.log[..n.commit], n.term, m.log[..m.commit], m.term);
    assert n.log[..k] == n.log[..n.commit][..k];
    assert m.log[..k] == m.log[..m.commit][..k];
  }

  /** State machine safety: a node that has applied index `k`, and any node that has applied it
      at that time or later, applied the same terms and commands through `k`. */
  lemma StateMachineSafety(s: State, s2: State, p: Id, q: Id, k: nat)
    requires Reachable(s) && LeadsTo(s, s2) && p in s.nodes && q in s2.nodes
    requires k <= s.nodes[p].applied && k <= s2.nodes[q].applied
    ensures k <= |s.nodes[p].log| && k <= |s2.nodes[q].log|
    ensures s.nodes[p].log[..k] == s2.nodes[q].log[..k]
  {
    hide Extends;
    ReachableOk(s);
    LaterKeeps(s, s2);
    assert NodeOk(s, p, s.nodes[p]) && NodeOk(s2, q, s2.nodes[q]);
    CommittedAgree(s, s2, p, q, k);
  }

  /** Exactly-once replay: in memory and on disk, the state machine is the result of running the
      commands 1 to `applied` once each, whatever was compacted, installed or lost in a crash. */
  lemma ExactlyOnce(s: State, p: Id)
    requires Reachable(s) && p in s.nodes
    ensures s.nodes[p].disk == s.nodes[p].applied <= |s.nodes[p].log|
    ensures s.nodes[p].kv == Replay(s.nodes[p].log[..s.nodes[p].applied])
    ensures s.nodes[p].snap <= |s.nodes[p].log| && s.nodes[p].image == Replay(s.nodes[p].log[..s.nodes[p].snap])
  {
    ReachableOk(s);
    assert NodeOk(s, p, s.nodes[p]);
  }

  /** What a read returns: a node has a key exactly if the last of the commands it applied on that
      key is a set, and then with the value set there. */
  lemma LastWriteWins(s: State, p: Id, key: string)
    requires Reachable(s) && p in s.nodes
    ensures s.nodes[p].applied <= |s.nodes[p].log|
    ensures var done := s.nodes[p].log[..s.nodes[p].applied];
            && (key in s.nodes[p].kv <==> exists i: nat :: LastOn(done, key, i) && done[i].command.Set?)
            && forall i: nat :: LastOn(done, key, i) && done[i].command.Set? ==>
                 key in s.nodes[p].kv && s.nodes[p].kv[key] == done[i].command.value
  {
    hide Reachable;
    ExactlyOnce(s, p);
    ReplayExact(s.nodes[p].log[..s.nodes[p].applied], key);
  }

  /** Nodes that applied equally far hold equal state machines, at any two times of a run. */
  lemma SameState(s: State, s2: State, p: Id, q: Id)
    requires Reachable(s) && LeadsTo(s, s2) && p in s.nodes && q in s2.nodes
    requires s.nodes[p].applied == s2.nodes[q].applied
    ensures s.nodes[p].kv == s2.nodes[q].kv
  {
    StateMachineSafety(s, s2, p, q, s.nodes[p].applied);
    ExactlyOnce(s, p);
    LaterReachable(s, s2);
    ExactlyOnce(s2, q);
  }

  lemma {:induction false} LeadsJoin(s: State, run: seq<Action>, s2: State, run2: seq<Action>, s3: State)
    requires Leads(s, run, s2) && Leads(s2, run2, s3)
    ensures Leads(s, run + run2, s3)
    decreases |run|
  {
    if run == [] {
      assert run + run2 == run2;
    } else {
      LeadsJoin(Apply(s, run[0]), run[1..], s2, run2, s3);
      assert (run + run2)[1..] == run[1..] + run2;
    }
  }

  lemma LeadsToJoin(s: State, s2: State, s3: State)
    requires LeadsTo(s, s2) && LeadsTo(s2, s3)
    ensures LeadsTo(s, s3)
  {
    var run :| Leads(s, run, s2);
    var run2 :| Leads(s2, run2, s3);
    LeadsJoin(s, run, s2, run2, s3);
  }

  lemma Continue(s: State, s2: State, a: Action)
    requires LeadsTo(s, s2) && Enabled(s2, a)
    ensures LeadsTo(s, Apply(s2, a))
  {
    var run :| Leads(s, run, s2);
    assert Leads(s2, [a], Apply(s2, a));
    LeadsJoin(s, run, s2, [a], Apply(s2, a));
  }

  lemma LeadsSelf(s: State)
    ensures LeadsTo(s, s)
  {
    assert Leads(s, [], s);
  }

  lemma LaterReachable(s: State, s2: State)
    requires Reachable(s) && LeadsTo(s, s2)
    ensures Reachable(s2)
  {
    var s0 :| Init(s0) && LeadsTo(s0, s);
    var run :| Leads(s0, run, s);
    var run2 :| Leads(s, run2, s2);
    LeadsJoin(s0, run, s, run2, s2);
  }

  /** Every index is where it should be. */
  lemma IndexOrder(s: State, p: Id)
    requires Reachable(s) && p in s.nodes
    ensures s.nodes[p].snap <= s.nodes[p].applied <= s.nodes[p].commit <= |s.nodes[p].log|
    ensures !CanSkip(s, p)
  {
    ReachableOk(s);
    assert NodeOk(s, p, s.nodes[p]);
  }

  /** No step but a restart lowers a commit index or changes a committed entry; a restart falls
      back to the applied position. */
  lemma CommitStays(s: State, a: Action, p: Id)
    requires Reachable(s) && Enabled(s, a) && p in s.nodes
    ensures p in Apply(s, a).nodes
    ensures a != Restart(p) ==> s.nodes[p].commit <= Apply(s, a).nodes[p].commit
    ensures a == Restart(p) ==> Apply(s, a).nodes[p].commit == s.nodes[p].applied
    ensures s.nodes[p].commit <= |s.nodes[p].log| && s.nodes[p].commit <= |Apply(s, a).nodes[p].log|
    ensures Apply(s, a).nodes[p].log[..s.nodes[p].commit] == s.nodes[p].log[..s.nodes[p].commit]
  {
    ReachableOk(s);
    NodesInv(s, p);
    if a.AcceptAppend? && a.p == p {
      AcceptPrefix(s, p, a.append);
    } else if a.CutConflict? && a.p == p {
      CutPrefix(s, p, a.append);
    } else if a.InstallSnapshot? && a.p == p {
      InstallPrefix(s, p, a.snapshot);
    } else {
      OtherPrefix(s, a, p);
    }
  }

  lemma OtherPrefix(s: State, a: Action, p: Id)
    requires Enabled(s, a) && p in s.nodes && NodeOk(s, p, s.nodes[p])
    requires !((a.AcceptAppend? || a.CutConflict? || a.InstallSnapshot?) && a.p == p)
    ensures p in Apply(s, a).nodes && s.nodes[p].log <= Apply(s, a).nodes[p].log
    ensures a != Restart(p) ==> s.nodes[p].commit <= Apply(s, a).nodes[p].commit
    ensures a == Restart(p) ==> Apply(s, a).nodes[p].commit == s.nodes[p].applied
  {
    hide NodeOk;
    assert s.nodes[p].disk == s.nodes[p].applied by {
      DiskIsApplied(s, p);
    }
    if ByLeader(a) {
      LeaderStepNode(s, a, p);
    } else if ByElection(a) {
      ElectionStepNode(s, a, p);
    }
  }

  lemma DiskIsApplied(s: State, p: Id)
    requires p in s.nodes && NodeOk(s, p, s.nodes[p])
    ensures s.nodes[p].disk == s.nodes[p].applied
  {}

  lemma AcceptPrefix(s: State, p: Id, r: AppendRequest)
    requires Inv(s) && CanAccept(s, p, r)
    ensures var n, n2 := s.nodes[p], Accepted(s.nodes[p], r);
            && n.commit <= n2.commit && n.commit <= |n.log| && n.commit <= |n2.log|
            && n2.log[..n.commit] == n.log[..n.commit]
  {
    hide VotesOk, AcksOk, PairsOk;
    assert AppendOk(s, r) && NodeOk(s, p, s.nodes[p]);
    CommitAgrees(s, p);
    CommitCapSound(s, p, r);
    AgreeLower(Accepted(s.nodes[p], r).log, s.reigns[r.term].log, Accepted(s.nodes[p], r).commit, s.nodes[p].commit);
  }

  lemma CutPrefix(s: State, p: Id, r: AppendRequest)
    requires Inv(s) && CanAccept(s, p, r)
    ensures var n := s.nodes[p];
            var log2 := Cut(n.log, r.prev, r.entries);
            n.commit <= |n.log| && n.commit <= |log2| && log2[..n.commit] == n.log[..n.commit]
  {
    hide VotesOk, AcksOk, PairsOk;
    var n := s.nodes[p];
    var log2 := Cut(n.log, r.prev, r.entries);
    assert AppendOk(s, r) && NodeOk(s, p, n);
    CommitAgrees(s, p);
    CutLog(s, p, r);
    assert Agree(log2, s.reigns[r.term].log, n.commit);
  }

  lemma InstallPrefix(s: State, p: Id, r: SnapshotRequest)
    requires Inv(s) && CanInstall(s, p, r)
    ensures var n, n2 := s.nodes[p], Installed(s.nodes[p], r);
            && n.commit <= n2.commit && n.commit <= |n.log| && n.commit <= |n2.log|
            && n2.log[..n.commit] == n.log[..n.commit]
  {
    hide VotesOk, AcksOk, PairsOk;
    var n, n2 := s.nodes[p], Installed(s.nodes[p], r);
    assert NodeOk(s, p, n) && SnapshotOk(s, r);
    if n.snap < r.Index() {
      CommitAgrees(s, p);
      EffectiveLog(s, p, r);
      assert Agree(n2.log, s.reigns[r.term].log, n.commit);
    }
  }

  // ---------------------------------------------------------------- where the code departs from the paper

  /** The follower's commit cap: although it is the follower's own last index, no accepted request
      makes it commit past its agreement with the sending leader's log. */
  lemma CommitCap(s: State, p: Id, r: AppendRequest)
    requires Reachable(s) && CanAccept(s, p, r)
    ensures r.term in s.reigns
    ensures var n2 := Accepted(s.nodes[p], r);
            Agree(n2.log, s.reigns[r.term].log, n2.commit)
    ensures forall l :: IsLeader(s, l) && s.nodes[l].term == r.term ==>
              Agree(Accepted(s.nodes[p], r).log, s.nodes[l].log, Accepted(s.nodes[p], r).commit)
  {
    ReachableOk(s);
    assert AppendOk(s, r);
    CommitCapSound(s, p, r);
    forall l | IsLeader(s, l) && s.nodes[l].term == r.term
      ensures s.nodes[l].log == s.reigns[r.term].log
    {
      assert NodeOk(s, l, s.nodes[l]);
    }
  }

  /** An entry that disagrees with the leader of any term from the node's own on is neither committed
      nor applied. */
  lemma TailNotCommitted(s: State, p: Id, u: nat, k: nat)
    requires Reachable(s) && p in s.nodes && u in s.reigns && s.nodes[p].term <= u
    requires !Agree(s.nodes[p].log, s.reigns[u].log, k)
    ensures s.nodes[p].applied <= s.nodes[p].commit < k
  {
    hide Reachable, IsCommitted;
    ReachableOk(s);
    var n := s.nodes[p];
    assert NodeOk(s, p, n);
    CommittedInReign(s, n.log[..n.commit], n.term, u);
    if k <= n.commit {
      PrefixAgree(n.log[..n.commit], s.reigns[u].log, n.commit);
      assert n.log[..n.commit][..n.commit] == n.log[..n.commit];
      AgreeLower(n.log, s.reigns[u].log, n.commit, k);
    }
  }

  /** A tail kept above an installed snapshot is left over when the leader that wrote its last
      entry does not carry the snapshot. */
  predicate LeftOverTail(s: State, p: Id)
    requires p in s.nodes
  {
    var n := s.nodes[p];
    && n.snap < |n.log| && LastTerm(n.log) in s.reigns
    && !Agree(n.log, s.reigns[LastTerm(n.log)].log, n.snap)
  }

  /** Installing a snapshot over a log that disagrees with it leaves exactly such a tail. */
  lemma TailIsLeftOver(s: State, p: Id, r: SnapshotRequest)
    requires Reachable(s) && CanInstall(s, p, r) && s.nodes[p].snap < r.Index() < |s.nodes[p].log|
    requires r.term in s.reigns && !Agree(s.nodes[p].log, s.reigns[r.term].log, r.Index())
    ensures LeftOverTail(DoInstall(s, p, r), p)
  {
    hide VotesOk, AcksOk, PairsOk, Complete, IsCommitted, Replay;
    ReachableOk(s);
    var n, n2, i := s.nodes[p], Installed(s.nodes[p], r), r.Index();
    var leader := s.reigns[r.term].log;
    assert NodeOk(s, p, n) && SnapshotOk(s, r);
    assert StoredOk(s, n, |n.log|);
    assert n2.log[|n2.log| - 1] == n.log[|n.log| - 1];
    CommitAgrees(s, p);
    AgreeLower(n.log, leader, n.commit, n.snap);
    var writer := s.reigns[LastTerm(n.log)].log;
    if Agree(n2.log, writer, i) {
      assert n2.log[..i] == r.history == leader[..i];
      StretchJoins(n.log, writer, leader, n.snap, i);
    }
  }

  lemma StretchJoins(log: seq<Entry>, writer: seq<Entry>, leader: seq<Entry>, i: nat, k: nat)
    requires i <= k <= |log| <= |writer| && log[i..] == writer[i..|log|]
    requires Agree(log, leader, i) && Agree(writer, leader, k)
    ensures Agree(log, leader, k)
  {
    AgreeStretch(writer, leader, i, k);
    forall j | i <= j < k
      ensures log[j] == writer[j]
    {
      assert log[j] == log[i..][j - i] == writer[i..|log|][j - i];
    }
    AgreeJoin(log, leader, i, k);
  }

  /** A left-over tail stays one until its last entry is replaced, whatever happens meanwhile. */
  lemma TailStaysLeftOver(s: State, a: Action, p: Id)
    requires Reachable(s) && Enabled(s, a) && p in s.nodes && LeftOverTail(s, p) && p in Apply(s, a).nodes
    requires var n, n2 := s.nodes[p], Apply(s, a).nodes[p];
             |n2.log| == |n.log| && LastTerm(n2.log) == LastTerm(n.log) && n2.snap < |n2.log|
    ensures LeftOverTail(Apply(s, a), p)
  {
    hide Inv, Extends, Enabled, Apply, NodeOk;
    ReachableOk(s);
    NodesInv(s, p);
    SnapGrows(s, a, p);
    StepExtends(s, a);
    CommitStays(s, a, p);
    var s2, u := Apply(s, a), LastTerm(s.nodes[p].log);
    ReignGrows(s, s2, u);
    TailWriter(s, p);
    if Agree(s2.nodes[p].log, s2.reigns[u].log, s2.nodes[p].snap) {
      TailTrace(s.nodes[p], s2.nodes[p], s.reigns[u].log, s2.reigns[u].log);
    }
  }

  lemma SnapGrows(s: State, a: Action, p: Id)
    requires Enabled(s, a) && p in s.nodes && NodeOk(s, p, s.nodes[p])
    ensures p in Apply(s, a).nodes && s.nodes[p].snap <= Apply(s, a).nodes[p].snap
  {
    hide NodeOk;
    assert s.nodes[p].snap <= s.nodes[p].applied by {
      SnapApplied(s, p);
    }
    if ByLeader(a) {
      LeaderStepNode(s, a, p);
    } else if ByElection(a) {
      ElectionStepNode(s, a, p);
    } else {
      match a
      case InstallSnapshot(_, _) =>
      case _ =>
    }
  }

  lemma SnapApplied(s: State, p: Id)
    requires p in s.nodes && NodeOk(s, p, s.nodes[p])
    ensures s.nodes[p].snap <= s.nodes[p].applied
  {}

  /** Along `run` the log of `p` keeps its length and its last term, and ends above its snapshot. */
  ghost predicate KeepsTail(s: State, run: seq<Action>, p: Id)
    requires p in s.nodes
    decreases |run|
  {
    run == [] ||
    (&& Enabled(s, run[0]) && p in Apply(s, run[0]).nodes
     && var n, n2 := s.nodes[p], Apply(s, run[0]).nodes[p];
     && |n2.log| == |n.log| && LastTerm(n2.log) == LastTerm(n.log) && n2.snap < |n2.log|
     && KeepsTail(Apply(s, run[0]), run[1..], p))
  }

  /** Over a whole run: until it is replaced or covered by a snapshot, a left-over tail stays one, so
      nothing of it is ever committed or applied, and its holder never wins an election. */
  lemma {:induction false} TailLasts(s: State, run: seq<Action>, s2: State, p: Id)
    requires Reachable(s) && Leads(s, run, s2) && p in s.nodes && LeftOverTail(s, p) && KeepsTail(s, run, p)
    ensures Reachable(s2) && p in s2.nodes && LeftOverTail(s2, p)
    ensures s2.nodes[p].snap == s2.nodes[p].applied == s2.nodes[p].commit
    ensures forall voters :: !CanBecomeLeader(s2, p, voters)
    decreases |run|
  {
    hide LeftOverTail, Reachable, CanBecomeLeader;
    if run == [] {
      TailUncommitted(s, p);
      forall voters
        ensures !CanBecomeLeader(s2, p, voters)
      {
        TailNeverWins(s, p, voters);
      }
    } else {
      StepReachable(s, run[0]);
      TailStaysLeftOver(s, run[0], p);
      TailLasts(Apply(s, run[0]), run[1..], s2, p);
    }
  }

  lemma StepReachable(s: State, a: Action)
    requires Reachable(s) && Enabled(s, a)
    ensures Reachable(Apply(s, a))
  {
    hide Leads, LeadsTo;
    var s0 :| Init(s0) && LeadsTo(s0, s);
    Continue(s0, s, a);
  }

  lemma TailWriter(s: State, p: Id)
    requires Inv(s) && p in s.nodes && s.nodes[p].snap < |s.nodes[p].log|
    ensures s.nodes[p].snap <= s.nodes[p].commit
    ensures var u := LastTerm(s.nodes[p].log); u in s.reigns && |s.nodes[p].log| <= |s.reigns[u].log|
  {
    NodesInv(s, p);
    assert StoredOk(s, s.nodes[p], |s.nodes[p].log|);
  }

  lemma TailTrace(n: Node, n2: Node, writer: seq<Entry>, writer2: seq<Entry>)
    requires n.snap <= n.commit <= |n.log| && n.commit <= |n2.log| && n2.log[..n.commit] == n.log[..n.commit]
    requires n.snap <= n2.snap && n.snap <= |writer| && writer <= writer2 && Agree(n2.log, writer2, n2.snap)
    ensures Agree(n.log, writer, n.snap)
  {
    AgreeLower(n2.log, writer2, n2.snap, n.snap);
    AgreeLower(n2.log, n.log, n.commit, n.snap);
    assert writer2[..n.snap] == writer[..n.snap];
  }

  /** No entry of a left-over tail is committed or applied: both indices stand at the snapshot. */
  lemma TailUncommitted(s: State, p: Id)
    requires Reachable(s) && p in s.nodes && LeftOverTail(s, p)
    ensures s.nodes[p].snap == s.nodes[p].applied == s.nodes[p].commit
  {
    hide VotesOk, AcksOk, MessagesOk, PairsOk, Complete, Reachable;
    ReachableOk(s);
    var n := s.nodes[p];
    assert NodeOk(s, p, n);
    if n.snap < n.commit {
      CommittedUnderTail(s, n);
      AgreeLower(n.log, s.reigns[LastTerm(n.log)].log, n.commit, n.snap);
    }
  }

  /** What a node committed above its snapshot is in the log of the leader that wrote its last entry. */
  lemma CommittedUnderTail(s: State, n: Node)
    requires ReignsOk(s) && n.snap < n.commit <= |n.log| && IsCommitted(s, n.log[..n.commit], n.term)
    requires StoredOk(s, n, |n.log|)
    ensures Agree(n.log, s.reigns[LastTerm(n.log)].log, n.commit)
  {
    hide IsCommitted;
    var last, u := LastTerm(n.log), TermAt(n.log, n.commit);
    CommittedWriter(s, n.log[..n.commit], n.term);
    StoredSorted(s, n, n.commit, |n.log|);
    assert ReignOk(s, last) && EntryOk(s, last, n.commit);
    AgreeTrans(n.log, s.reigns[u].log, s.reigns[last].log, n.commit);
  }

  /** A committed log is what the leader that wrote its last entry had. */
  lemma CommittedWriter(s: State, log: seq<Entry>, t: nat)
    requires ReignsOk(s) && IsCommitted(s, log, t) && log != []
    ensures LastTerm(log) in s.reigns && Agree(log, s.reigns[LastTerm(log)].log, |log|)
  {
    var u: nat, k: nat :| Commits(s, log, t, u, k);
    assert ReignOk(s, u) && EntryOk(s, u, |log|);
    assert TermAt(s.reigns[u].log, |log|) == LastTerm(log);
    PrefixAgree(log, s.reigns[u].log, |log|);
    AgreeTrans(log, s.reigns[u].log, s.reigns[LastTerm(log)].log, |log|);
  }

  /** Whoever still holds a left-over tail cannot win an election. */
  lemma TailNeverWins(s: State, p: Id, voters: set<Id>)
    requires Reachable(s) && p in s.nodes && LeftOverTail(s, p)
    ensures !CanBecomeLeader(s, p, voters)
  {
    ReachableOk(s);
    if CanBecomeLeader(s, p, voters) {
      FreshTerm(s, p, voters);
      assert NodeOk(s, p, s.nodes[p]);
      assert StoredOk(s, s.nodes[p], |s.nodes[p].log|);
      SnapshotUnderTail(s, p, voters);
    }
  }

  /** Effective installs never go backwards, so memory and disk agree afterwards. */
  lemma InstallNeverBackwards(s: State, p: Id, r: SnapshotRequest)
    requires Reachable(s) && CanInstall(s, p, r) && r.Index() > s.nodes[p].snap
    ensures r.Index() >= s.nodes[p].applied
    ensures Installed(s.nodes[p], r).applied == Installed(s.nodes[p], r).disk == r.Index()
    ensures Installed(s.nodes[p], r).kv == Replay(r.history)
  {
    ReachableOk(s);
    InstallForward(s, p, r);
    assert SnapshotOk(s, r);
  }

  // ---------------------------------------------------------------- what a leader knows of a peer

  /** Match index soundness: while `l` leads, a follower in its term agrees with it through its
      match index. */
  lemma MatchIndexSound(s: State, l: Id, p: Id)
    requires Reachable(s) && IsLeader(s, l) && IsPeer(s, l, p) && s.nodes[p].term == s.nodes[l].term
    ensures Agree(s.nodes[p].log, s.nodes[l].log, Matched(s.nodes[l], p))
  {
    ReachableOk(s);
    assert PairOk(s, l, p) && NodeOk(s, l, s.nodes[l]);
  }

  /** ... and a follower keeps agreeing with the leader of its term for as long as it stays in it,
      whether or not that leader is still up. */
  lemma AgreementStays(s: State, a: Action, p: Id, k: nat)
    requires Inv(s) && Enabled(s, a) && p in s.nodes && s.nodes[p].term in s.reigns
    requires Agree(s.nodes[p].log, s.reigns[s.nodes[p].term].log, k)
    ensures var s2 := Apply(s, a);
            && p in s2.nodes && s.nodes[p].term in s2.reigns
            && (s2.nodes[p].term == s.nodes[p].term ==>
                  Agree(s2.nodes[p].log, s2.reigns[s.nodes[p].term].log, k))
  {
    hide Inv, Extends;
    var s2, t := Apply(s, a), s.nodes[p].term;
    StepExtends(s, a);
    ReignGrows(s, s2, t);
    if a.AcceptAppend? && a.p == p {
      AcceptAgreement(s, p, a.append, k);
    } else if a.CutConflict? && a.p == p {
      CutAgreement(s, p, a.append, k);
    } else if a.InstallSnapshot? && a.p == p {
      InstallAgreement(s, p, a.snapshot, k);
    } else {
      NodesInv(s, p);
      OtherPrefix(s, a, p);
      assert s2.nodes[p].log[..k] == s.nodes[p].log[..k];
      AgreeGrow(s.nodes[p].log, s.reigns[t].log, s2.reigns[t].log, k);
    }
  }

  lemma AcceptAgreement(s: State, p: Id, r: AppendRequest, k: nat)
    requires Inv(s) && CanAccept(s, p, r) && r.term in s.reigns && Agree(s.nodes[p].log, s.reigns[r.term].log, k)
    ensures Agree(Accepted(s.nodes[p], r).log, s.reigns[r.term].log, k)
  {
    hide VotesOk, AcksOk, PairsOk;
    assert AppendOk(s, r);
    AcceptedLog(s, p, r);
  }

  lemma CutAgreement(s: State, p: Id, r: AppendRequest, k: nat)
    requires Inv(s) && CanAccept(s, p, r) && r.term in s.reigns && Agree(s.nodes[p].log, s.reigns[r.term].log, k)
    ensures Agree(Cut(s.nodes[p].log, r.prev, r.entries), s.reigns[r.term].log, k)
  {
    hide VotesOk, AcksOk, PairsOk;
    assert AppendOk(s, r);
    CutLog(s, p, r);
  }

  lemma InstallAgreement(s: State, p: Id, r: SnapshotRequest, k: nat)
    requires Inv(s) && CanInstall(s, p, r) && r.term in s.reigns && Agree(s.nodes[p].log, s.reigns[r.term].log, k)
    ensures Agree(Installed(s.nodes[p], r).log, s.reigns[r.term].log, k)
  {
    hide VotesOk, AcksOk, PairsOk;
    assert SnapshotOk(s, r);
    if s.nodes[p].snap < r.Index() {
      EffectiveLog(s, p, r);
    }
  }

  lemma {:induction false} AgreementLasts(s: State, run: seq<Action>, s2: State, p: Id, k: nat)
    requires Inv(s) && Leads(s, run, s2) && p in s.nodes && p in s2.nodes && s.nodes[p].term in s.reigns
    requires s2.nodes[p].term == s.nodes[p].term && Agree(s.nodes[p].log, s.reigns[s.nodes[p].term].log, k)
    ensures s.nodes[p].term in s2.reigns && Agree(s2.nodes[p].log, s2.reigns[s.nodes[p].term].log, k)
    decreases |run|
  {
    hide Inv, Extends;
    if run != [] {
      var s1 := Apply(s, run[0]);
      StepKeeps(s, run[0]);
      StepExtends(s, run[0]);
      RunKeeps(s1, run[1..], s2);
      TermsGrow(s, s1, p);
      TermsGrow(s1, s2, p);
      AgreementStays(s, run[0], p, k);
      AgreementLasts(s1, run[1..], s2, p, k);
    }
  }

  lemma TermsGrow(s: State, s2: State, p: Id)
    requires Extends(s, s2) && p in s.nodes
    ensures p in s2.nodes && s.nodes[p].term <= s2.nodes[p].term
  {}

  /** A matched follower still holds what it matched at any later time of the term, and the leader
      recorded for the term, at that later time, agrees with it. */
  lemma MatchIndexLasts(s: State, s2: State, l: Id, p: Id)
    requires Reachable(s) && LeadsTo(s, s2) && IsLeader(s, l) && IsPeer(s, l, p)
    requires p in s2.nodes && s.nodes[p].term == s.nodes[l].term == s2.nodes[p].term
    ensures Agree(s2.nodes[p].log, s.nodes[l].log, Matched(s.nodes[l], p))
  {
    hide Extends;
    ReachableOk(s);
    LaterKeeps(s, s2);
    var k, t := Matched(s.nodes[l], p), s.nodes[l].term;
    MatchIndexSound(s, l, p);
    LeaderLog(s, l);
    var run :| Leads(s, run, s2);
    AgreementLasts(s, run, s2, p, k);
    ReignGrows(s, s2, t);
    assert s2.reigns[t].log[..k] == s.reigns[t].log[..k];
  }

  lemma LeaderLog(s: State, l: Id)
    requires Inv(s) && IsLeader(s, l)
    ensures s.nodes[l].term in s.reigns && s.reigns[s.nodes[l].term].log == s.nodes[l].log
    ensures s.reigns[s.nodes[l].term].leader == l
  {
    assert NodeOk(s, l, s.nodes[l]);
  }
}
