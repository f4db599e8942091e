module Safety {
  // The invariants hold in every reachable state, and what that means for the cluster.

  import opened Logs
  import opened Cluster
  import opened Invariants
  import opened Consequences
  import opened LocalSteps
  import opened ReplySteps
  import opened SendSteps
  import opened ElectionSteps
  import opened LeaderSteps
  import opened AppendSteps
  import opened InstallSteps
  import opened FollowerFrame

  lemma InitOk(s: State)
    requires Init(s)
    ensures Inv(s)
  {
    forall q, t
      ensures AckOk(s, q, t)
    {
    }
    forall p | p in s.nodes
      ensures NodeOk(s, p, s.nodes[p])
    {
    }
  }

  lemma StepKeeps(s: State, a: Action)
    requires Inv(s) && Enabled(s, a)
    ensures Inv(Apply(s, a))
  {
    hide Inv;
    match a
    case BecomeCandidate(c) => BecomeCandidateKeeps(s, c);
    case ObserveTerm(p, t) => ObserveTermKeeps(s, p, t);
    case StepDown(p) => StepDownKeeps(s, p);
    case GrantVote(p, v) => GrantVoteKeeps(s, p, v);
    case BecomeLeader(c, voters) => BecomeLeaderKeeps(s, c, voters);
    case Propose(l, command) => ProposeKeeps(s, l, command);
    case RejectAppend(p, r) => RejectKeeps(s, p, r);
    case CutConflict(p, r) => CutKeeps(s, p, r);
    case AcceptAppend(p, r) => AcceptKeeps(s, p, r);
    case ApplyNext(p) => ApplyNextKeeps(s, p);
    case SkipCompacted(p) => SkipCompactedNever(s, p);
    case Compact(p) => CompactKeeps(s, p);
    case InstallSnapshot(p, r) => InstallKeeps(s, p, r);
    case Restart(p) => RestartKeeps(s, p);
    case _ => LeaderStepKeeps(s, a);
  }

  lemma LeaderStepKeeps(s: State, a: Action)
    requires Inv(s) && Enabled(s, a) && ByLeader(a)
    ensures Inv(Apply(s, a))
  {
    hide Inv;
    match a
    case SendAppend(l, p) => SendAppendKeeps(s, l, p);
    case LowerNext(l, p) => LowerNextKeeps(s, l, p);
    case RecordReply(l, p, reply) => RecordReplyKeeps(s, l, p, reply);
    case AdvanceCommit(l, k) => AdvanceCommitKeeps(s, l, k);
    case SendSnapshot(l, p) => SendSnapshotKeeps(s, l, p);
    case RecordInstall(l, p, r) => RecordInstallKeeps(s, l, p, r);
    case GiveUp(l, p) => GiveUpKeeps(s, l, p);
  }

  // ---------------------------------------------------------------- runs

  lemma StepExtends(s: State, a: Action)
    requires Inv(s) && Enabled(s, a)
    ensures Extends(s, Apply(s, a))
  {
    hide Inv, Extends;
    match a
    case BecomeLeader(c, voters) => WinExtends(s, c, voters);
    case Propose(l, command) => AppendExtends(s, l, command);
    case AcceptAppend(p, r) => StoreExtends(s, p, r);
    case _ =>
      if ByLeader(a) {
        LeaderStepExtends(s, a);
      } else {
        MemberStepExtends(s, a);
      }
  }

  /** Steps a leader takes that touch its view of its peers or its commit index only. */
  predicate ByLeader(a: Action) {
    || a.SendAppend? || a.LowerNext? || a.SendSnapshot? || a.RecordReply? || a.RecordInstall?
    || a.AdvanceCommit? || a.GiveUp?
  }

  lemma LeaderStepExtends(s: State, a: Action)
    requires Enabled(s, a) && ByLeader(a)
    ensures Extends(s, Apply(s, a))
  {
    hide Extends;
    ExtendsByNode(s, Apply(s, a), a.l);
  }

  /** Role, term, log, snapshot and applied position are as before, and the commit index did not fall. */
  predicate Steady(n: Node, n2: Node) {
    && n2.role == n.role && n2.term == n.term && n2.log == n.log && n2.snap == n.snap && n2.applied == n.applied
    && n.commit <= n2.commit
  }

  lemma LeaderStepNode(s: State, a: Action, p: Id)
    requires Enabled(s, a) && ByLeader(a) && p in s.nodes
    ensures p in Apply(s, a).nodes && Steady(s.nodes[p], Apply(s, a).nodes[p])
  {
    if a.RecordReply? || a.RecordInstall? || a.AdvanceCommit? {
      ReadingStepNode(s, a, p);
    } else {
      hide NextAfterRejection, Batch, Replicas, Quorum;
    }
  }

  lemma ReadingStepNode(s: State, a: Action, p: Id)
    requires Enabled(s, a) && (a.RecordReply? || a.RecordInstall? || a.AdvanceCommit?) && p in s.nodes
    ensures p in Apply(s, a).nodes && Steady(s.nodes[p], Apply(s, a).nodes[p])
  {
    hide NextAfterRejection, Batch, Replicas, Quorum;
  }

  /** Steps of an election, and proposals. */
  predicate ByElection(a: Action) {
    a.BecomeCandidate? || a.ObserveTerm? || a.StepDown? || a.GrantVote? || a.BecomeLeader? || a.Propose?
  }

  /** They touch no index, and the log only at its end. */
  lemma ElectionStepNode(s: State, a: Action, p: Id)
    requires Enabled(s, a) && ByElection(a) && p in s.nodes
    ensures p in Apply(s, a).nodes
    ensures var n, n2 := s.nodes[p], Apply(s, a).nodes[p];
            n2.snap == n.snap && n2.applied == n.applied && n2.commit == n.commit && n.log <= n2.log
  {}

  lemma MemberStepExtends(s: State, a: Action)
    requires Enabled(s, a) && !ByLeader(a) && !a.BecomeLeader? && !a.Propose? && !a.AcceptAppend?
    ensures Extends(s, Apply(s, a))
  {
    hide Extends;
    ExtendsByNode(s, Apply(s, a), if a.BecomeCandidate? then a.c else a.p);
  }

  lemma WinExtends(s: State, c: Id, voters: set<Id>)
    requires Inv(s) && CanBecomeLeader(s, c, voters)
    ensures s.nodes[c].term !in s.reigns
    ensures Extends(s, DoBecomeLeader(s, c, voters))
  {
    hide Extends;
    FreshTerm(s, c, voters);
    BecomeLeaderExtends(s, c, voters);
  }

  lemma AppendExtends(s: State, l: Id, e: Command)
    requires Inv(s) && CanPropose(s, l)
    ensures Extends(s, DoPropose(s, l, e))
  {
    hide Extends;
    ProposeReady(s, l);
    ProposeExtends(s, l, e);
  }

  lemma StoreExtends(s: State, p: Id, r: AppendRequest)
    requires Inv(s) && CanAccept(s, p, r)
    ensures Extends(s, DoAccept(s, p, r))
  {
    hide Extends, ReignsOk, Complete, NodesOk, FollowerStep;
    assert AppendOk(s, r);
    AcceptStep(s, p, r);
    FollowerExtends(s, DoAccept(s, p, r), p);
  }

  lemma ExtendsTrans(s: State, s2: State, s3: State)
    requires Extends(s, s2) && Extends(s2, s3)
    ensures Extends(s, s3)
  {
    forall q, t
      ensures AckGrows(s, s3, q, t)
    {
      assert AckGrows(s, s2, q, t) && AckGrows(s2, s3, q, t);
    }
  }

  lemma ExtendsSelf(s: State)
    ensures Extends(s, s)
  {}

  /** Every run keeps the invariants and takes nothing back. */
  lemma {:induction false} RunKeeps(s: State, run: seq<Action>, s2: State)
    requires Inv(s) && Leads(s, run, s2)
    ensures Inv(s2) && Extends(s, s2)
    decreases |run|
  {
    hide Inv, Extends;
    if run == [] {
      ExtendsSelf(s);
    } else {
      var s1 := Apply(s, run[0]);
      StepKeeps(s, run[0]);
      StepExtends(s, run[0]);
      RunKeeps(s1, run[1..], s2);
      ExtendsTrans(s, s1, s2);
    }
  }

  lemma LaterKeeps(s: State, s2: State)
    requires Inv(s) && LeadsTo(s, s2)
    ensures Inv(s2) && Extends(s, s2)
  {
    hide Inv, Extends;
    var run :| Leads(s, run, s2);
    RunKeeps(s, run, s2);
  }

  lemma ReachableOk(s: State)
    requires Reachable(s)
    ensures Inv(s)
  {
    hide Inv;
    var s0 :| Init(s0) && LeadsTo(s0, s);
    InitOk(s0);
    LaterKeeps(s0, s);
  }
}
