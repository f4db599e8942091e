module Link {
  // Every handler, run to completion under the lock, is a sequence of cluster steps.

  import opened Logs
  import opened Cluster
  import opened Invariants
  import opened Consequences
  import opened Safety
  import opened Theorems
  import opened Handlers

  /** `s2` follows from `s` and differs in the record of `p` only as far as nodes go; nothing sent
      is lost. */
  ghost predicate Ran(s: State, p: Id, n: Node, s2: State) {
    && LeadsTo(s, s2) && s2.nodes == s.nodes[p := n]
    && s.appends <= s2.appends && s.snapshots <= s2.snapshots && s.voteRequests <= s2.voteRequests
    && s.replies <= s2.replies && s.installed <= s2.installed && s.votes <= s2.votes
  }

  /** Everything committed is applied; so it is whenever the lock is free. */
  predicate Quiet(n: Node) { n.applied == n.commit }

  lemma RanNothing(s: State, p: Id)
    requires p in s.nodes
    ensures Ran(s, p, s.nodes[p], s)
  {
    hide LeadsTo;
    LeadsSelf(s);
    assert s.nodes[p := s.nodes[p]] == s.nodes;
  }

  lemma RanThen(s: State, p: Id, n: Node, s2: State, n2: Node, s3: State)
    requires Ran(s, p, n, s2) && Ran(s2, p, n2, s3)
    ensures Ran(s, p, n2, s3)
  {
    hide LeadsTo;
    LeadsToJoin(s, s2, s3);
    assert s.nodes[p := n][p := n2] == s.nodes[p := n2];
  }

  lemma RanOne(s: State, p: Id, a: Action)
    requires p in s.nodes && Enabled(s, a) && p in Apply(s, a).nodes
    requires Apply(s, a).nodes == s.nodes[p := Apply(s, a).nodes[p]]
    ensures Ran(s, p, Apply(s, a).nodes[p], Apply(s, a))
  {
    hide Leads, LeadsTo;
    LeadsSelf(s);
    Continue(s, s, a);
  }

  // ---------------------------------------------------------------- applying and compacting

  lemma {:induction false} DrainRuns(s: State, p: Id) returns (s2: State)
    requires Inv(s) && p in s.nodes
    ensures Ran(s, p, Drained(s.nodes[p]), s2) && Inv(s2) && Drained(s.nodes[p]).applied == s.nodes[p].commit
    ensures Drained(s.nodes[p]).commit == s.nodes[p].commit
    decreases s.nodes[p].commit - s.nodes[p].applied
  {
    hide Inv, LeadsTo, Ran;
    NodesInv(s, p);
    InOrder(s, p);
    if s.nodes[p].applied == s.nodes[p].commit {
      RanNothing(s, p);
      s2 := s;
    } else {
      var s1 := DoApply(s, p);
      RanOne(s, p, ApplyNext(p));
      StepKeeps(s, ApplyNext(p));
      s2 := DrainRuns(s1, p);
      RanThen(s, p, AppliedNext(s.nodes[p]), s1, Drained(s1.nodes[p]), s2);
    }
  }

  lemma InOrder(s: State, p: Id)
    requires p in s.nodes && NodeOk(s, p, s.nodes[p])
    ensures s.nodes[p].snap <= s.nodes[p].applied <= s.nodes[p].commit <= |s.nodes[p].log|
  {}

  /** Applying everything and compacting if due. */
  lemma SettleRuns(s: State, p: Id, threshold: nat) returns (s2: State)
    requires Inv(s) && p in s.nodes
    ensures Ran(s, p, Settled(s.nodes[p], threshold), s2) && Inv(s2)
    ensures Quiet(Settled(s.nodes[p], threshold)) && SettledAt(s.nodes[p], threshold, Settled(s.nodes[p], threshold))
  {
    hide Inv, LeadsTo, Ran, Drained, SettledAt;
    NodesInv(s, p);
    SettlesAt(s, p, threshold);
    s2 := DrainRuns(s, p);
    RanNode(s, p, Drained(s.nodes[p]), s2);
    if Due(Drained(s.nodes[p]), threshold) {
      var s1 := s2;
      s2 := DoCompact(s1, p);
      RanOne(s1, p, Compact(p));
      StepKeeps(s1, Compact(p));
      RanThen(s, p, s1.nodes[p], s1, s2.nodes[p], s2);
    }
  }

  /** Everything committed is applied, and the snapshot is where it was unless `threshold` entries, if
      positive, have been committed since: then it is at the commit index. */
  predicate SettledAt(n: Node, threshold: nat, r: Node) {
    && r.applied == r.disk == n.commit <= |n.log| && r.kv == Replay(n.log[..n.commit])
    && r.snap == if 0 < threshold && n.commit - n.snap >= threshold then n.commit else n.snap
  }

  lemma SettlesAt(s: State, p: Id, threshold: nat)
    requires p in s.nodes && NodeOk(s, p, s.nodes[p])
    ensures SettledAt(s.nodes[p], threshold, Settled(s.nodes[p], threshold))
  {
    hide Drained;
    DrainedExact(s.nodes[p]);
  }

  lemma RanNode(s: State, p: Id, n: Node, s2: State)
    requires Ran(s, p, n, s2)
    ensures p in s2.nodes && s2.nodes[p] == n && LeadsTo(s, s2)
  {}

  // ---------------------------------------------------------------- answering other nodes

  /** Joining the term of a message one has received. */
  lemma JoinRuns(s: State, p: Id, t: nat) returns (s2: State)
    requires Inv(s) && p in s.nodes && t >= s.nodes[p].term && TermReached(s, t)
    requires t == s.nodes[p].term && s.nodes[p].role != Follower ==> HeardFromLeader(s, p, t)
    ensures Ran(s, p, SteppedDown(s.nodes[p], t), s2) && Inv(s2)
  {
    hide Inv, LeadsTo, Ran, TermReached, HeardFromLeader;
    if t > s.nodes[p].term {
      s2 := DoObserveTerm(s, p, t);
      RanOne(s, p, ObserveTerm(p, t));
      StepKeeps(s, ObserveTerm(p, t));
    } else if s.nodes[p].role != Follower {
      s2 := DoStepDown(s, p);
      RanOne(s, p, StepDown(p));
      StepKeeps(s, StepDown(p));
    } else {
      RanNothing(s, p);
      s2 := s;
    }
  }

  lemma VoteRuns(s: State, p: Id, v: VoteRequest) returns (s2: State)
    requires Inv(s) && p in s.nodes && v in s.voteRequests
    ensures Ran(s, p, HandledVote(s.nodes[p], v).0, s2) && Inv(s2)
    ensures HandledVote(s.nodes[p], v).1.granted ==> Vote(v, p) in s2.votes
    ensures var n, a := s.nodes[p], HandledVote(s.nodes[p], v).1;
            && a.term == Max(n.term, v.term)
            && (a.granted <==> v.term >= n.term && CanGrantVote(if v.term > n.term then DoObserveTerm(s, p, v.term) else s, p, v))
            && (a.granted <==>
                  && v.term >= n.term && (v.term > n.term || n.vote == None || n.vote == Some(v.candidate))
                  && (v.lastTerm > LastTerm(n.log) || (v.lastTerm == LastTerm(n.log) && v.lastIndex >= |n.log|)))
  {
    hide Inv, LeadsTo, Ran, TermReached;
    BallotReached(s, v);
    var n := s.nodes[p];
    if v.term < n.term {
      RanNothing(s, p);
      s2 := s;
    } else {
      var s1 := s;
      if v.term > n.term {
        s1 := DoObserveTerm(s, p, v.term);
        RanOne(s, p, ObserveTerm(p, v.term));
        StepKeeps(s, ObserveTerm(p, v.term));
      } else {
        RanNothing(s, p);
      }
      s2 := s1;
      if CanGrantVote(s1, p, v) {
        s2 := DoGrantVote(s1, p, v);
        RanOne(s1, p, GrantVote(p, v));
        StepKeeps(s1, GrantVote(p, v));
        RanThen(s, p, s1.nodes[p], s1, s2.nodes[p], s2);
      }
    }
  }

  lemma BallotReached(s: State, v: VoteRequest)
    requires Inv(s) && v in s.voteRequests
    ensures TermReached(s, v.term)
  {
    assert BallotOk(s, v);
  }

  lemma LeaderReached(s: State, t: nat)
    requires Inv(s) && t in s.reigns
    ensures TermReached(s, t)
  {
    assert ReignOk(s, t);
  }

  lemma RequestOk(s: State, r: AppendRequest)
    requires Inv(s) && r in s.appends
    ensures r.term in s.reigns && TermReached(s, r.term) && HeardFromLeader(s, r.to, r.term)
  {
    assert AppendOk(s, r);
    LeaderReached(s, r.term);
  }

  lemma AppendRuns(s: State, p: Id, r: AppendRequest, threshold: nat) returns (s2: State)
    requires Inv(s) && p in s.nodes && r in s.appends && r.to == p
    ensures Ran(s, p, HandledAppend(s.nodes[p], r, threshold).0, s2) && Inv(s2)
    ensures Quiet(s.nodes[p]) ==> Quiet(HandledAppend(s.nodes[p], r, threshold).0)
    ensures var (m, a) := HandledAppend(s.nodes[p], r, threshold);
            && AppendOutcome(s.nodes[p], r, m, a)
            && (r.term >= s.nodes[p].term ==> AppendReply(r, a.success, a.match_) in s2.replies)
            && (a.success ==> r.term in s2.reigns && Agree(m.log, s2.reigns[r.term].log, r.End()))
  {
    hide Inv, LeadsTo, TermReached, HeardFromLeader, Followed, Matches, Hint, AppendOutcome, Agree;
    AppendExact(s.nodes[p], r, threshold);
    if r.term < s.nodes[p].term {
      RanNothing(s, p);
      s2 := s;
    } else {
      RequestOk(s, r);
      var s1 := JoinRuns(s, p, r.term);
      s2 := JoinedRuns(s1, p, r, threshold);
      RanThen(s, p, s1.nodes[p], s1, s2.nodes[p], s2);
      AppendTerms(s.nodes[p], r, threshold);
      if HandledAppend(s.nodes[p], r, threshold).1.success {
        AcceptedAgrees(s2, p, r);
      }
    }
  }

  lemma AppendTerms(n: Node, r: AppendRequest, threshold: nat)
    requires r.term >= n.term
    ensures HandledAppend(n, r, threshold).0.term == r.term
    ensures HandledAppend(n, r, threshold).1.success ==> HandledAppend(n, r, threshold).1.match_ == r.End()
  {
    hide Followed;
    AppendExact(n, r, threshold);
  }

  lemma AcceptedAgrees(s: State, p: Id, r: AppendRequest)
    requires Inv(s) && r.to == p && p in s.nodes && s.nodes[p].term == r.term && AppendReply(r, true, r.End()) in s.replies
    ensures r.term in s.reigns && Agree(s.nodes[p].log, s.reigns[r.term].log, r.End())
  {
    assert ReplyOk(s, AppendReply(r, true, r.End()));
  }

  lemma JoinedRuns(s: State, p: Id, r: AppendRequest, threshold: nat) returns (s2: State)
    requires Inv(s) && r in s.appends && Receives(s, p, r.to, r.term)
    ensures Ran(s, p, if Matches(s.nodes[p], r) then Followed(s.nodes[p], r, threshold) else s.nodes[p], s2) && Inv(s2)
    ensures Matches(s.nodes[p], r) && Quiet(s.nodes[p]) ==> Quiet(Followed(s.nodes[p], r, threshold))
    ensures AppendReply(r, Matches(s.nodes[p], r), if Matches(s.nodes[p], r) then r.End() else Hint(s.nodes[p], r)) in s2.replies
  {
    hide Inv, LeadsTo, Ran, Settled, Matches, Merge, Hint;
    if Matches(s.nodes[p], r) {
      var s1 := DoAccept(s, p, r);
      RanOne(s, p, AcceptAppend(p, r));
      StepKeeps(s, AcceptAppend(p, r));
      s2 := s1;
      if r.commit > s.nodes[p].commit {
        s2 := SettleRuns(s1, p, threshold);
        RanThen(s, p, s1.nodes[p], s1, Settled(s1.nodes[p], threshold), s2);
        RanReplies(s1, p, Settled(s1.nodes[p], threshold), s2);
      }
    } else {
      s2 := DoReject(s, p, r);
      assert s.nodes[p := s.nodes[p]] == s.nodes;
      RanOne(s, p, RejectAppend(p, r));
      StepKeeps(s, RejectAppend(p, r));
    }
  }

  lemma RanReplies(s: State, p: Id, n: Node, s2: State)
    requires Ran(s, p, n, s2)
    ensures s.replies <= s2.replies
  {}

  lemma InstallRuns(s: State, p: Id, r: SnapshotRequest) returns (s2: State)
    requires Inv(s) && p in s.nodes && r in s.snapshots && r.to == p
    ensures Ran(s, p, HandledInstall(s.nodes[p], r), s2) && Inv(s2)
    ensures Quiet(s.nodes[p]) ==> Quiet(HandledInstall(s.nodes[p], r))
    ensures r.term >= s.nodes[p].term ==> r in s2.installed
    ensures var n, m := s.nodes[p], HandledInstall(s.nodes[p], r);
            if r.term < n.term then m == n
            else m.role == Follower && m.term == r.term && m.snap == Max(n.snap, r.Index()) && m.applied >= r.Index()
  {
    hide Inv, LeadsTo, TermReached, HeardFromLeader, Installed;
    NodesInv(s, p);
    InstallExact(s.nodes[p], r);
    if r.term < s.nodes[p].term {
      RanNothing(s, p);
      s2 := s;
    } else {
      SnapshotRequestOk(s, r);
      var s1 := JoinRuns(s, p, r.term);
      s2 := DoInstall(s1, p, r);
      RanOne(s1, p, InstallSnapshot(p, r));
      StepKeeps(s1, InstallSnapshot(p, r));
      RanThen(s, p, s1.nodes[p], s1, s2.nodes[p], s2);
    }
  }

  lemma SnapshotRequestOk(s: State, r: SnapshotRequest)
    requires Inv(s) && r in s.snapshots
    ensures r.term in s.reigns && TermReached(s, r.term) && HeardFromLeader(s, r.to, r.term)
  {
    assert SnapshotOk(s, r);
    LeaderReached(s, r.term);
  }

  // ---------------------------------------------------------------- leading

  lemma AdvanceRuns(s: State, l: Id, threshold: nat) returns (s2: State)
    requires Inv(s) && IsLeader(s, l)
    ensures Ran(s, l, Advanced(s.Ids(), l, s.nodes[l], threshold), s2) && Inv(s2)
    ensures Quiet(s.nodes[l]) ==> Quiet(Advanced(s.Ids(), l, s.nodes[l], threshold))
    ensures var k := Advanced(s.Ids(), l, s.nodes[l], threshold).commit; k != s.nodes[l].commit ==> CanAdvanceCommit(s, l, k)
    ensures forall k: nat :: CanAdvanceCommit(s, l, k) ==> k <= Advanced(s.Ids(), l, s.nodes[l], threshold).commit
  {
    hide Inv, LeadsTo, Ran, Settled, Replicas, Quorum, BestCommit;
    NodesInv(s, l);
    InOrder(s, l);
    var n := s.nodes[l];
    var k := BestCommit(s.Ids(), l, n, |n.log|);
    forall j: nat | CanAdvanceCommit(s, l, j)
      ensures j <= k
    {
      assert Countable(s.Ids(), l, n, j);
    }
    if k == n.commit {
      RanNothing(s, l);
      s2 := s;
    } else {
      var s1 := DoAdvanceCommit(s, l, k);
      RanOne(s, l, AdvanceCommit(l, k));
      StepKeeps(s, AdvanceCommit(l, k));
      s2 := SettleRuns(s1, l, threshold);
      RanThen(s, l, s1.nodes[l], s1, Settled(s1.nodes[l], threshold), s2);
    }
  }

  /** The leader's rule written out: an entry of its own term that more than half of the cluster,
      itself included, is known to store. */
  lemma AdvanceRule(s: State, l: Id, k: nat)
    requires IsLeader(s, l)
    ensures var n := s.nodes[l];
            CanAdvanceCommit(s, l, k) <==>
            && n.commit < k <= |n.log| && n.log[k - 1].term == n.term
            && 2 * |set p | p in s.nodes && (p == l || (p in n.matched && n.matched[p] >= k))| > |s.nodes|
  {
    var n := s.nodes[l];
    if k > 0 {
      assert Replicas(s.Ids(), l, n, k) == set p | p in s.nodes && (p == l || (p in n.matched && n.matched[p] >= k));
    }
  }

  /** Reading the answer a peer gave in the term of the call. */
  lemma ReplyRuns(s: State, l: Id, p: Id, y: AppendReply, threshold: nat) returns (s2: State)
    requires Inv(s) && CanRecordReply(s, l, p, y)
    ensures Ran(s, l, HandledReply(s.Ids(), l, s.nodes[l], p, y.request, AppendAnswer(y.request.term, y.success, y.match_), threshold), s2)
    ensures Quiet(s.nodes[l]) ==>
              Quiet(HandledReply(s.Ids(), l, s.nodes[l], p, y.request, AppendAnswer(y.request.term, y.success, y.match_), threshold))
    ensures Inv(s2)
  {
    hide Inv, LeadsTo, Ran, Recorded, Advanced;
    var s1 := DoRecordReply(s, l, p, y);
    RanOne(s, l, RecordReply(l, p, y));
    StepKeeps(s, RecordReply(l, p, y));
    s2 := s1;
    if y.success {
      StillLeads(s.nodes[l], p, Max(y.match_, y.request.End()));
      assert s1.Ids() == s.Ids();
      s2 := AdvanceRuns(s1, l, threshold);
      RanThen(s, l, s1.nodes[l], s1, Advanced(s.Ids(), l, s1.nodes[l], threshold), s2);
    }
  }

  lemma StillLeads(n: Node, p: Id, m: nat)
    ensures Recorded(n, p, m).role == n.role && Recorded(n, p, m).term == n.term && Quiet(Recorded(n, p, m)) == Quiet(n)
  {}

  lemma InstalledRuns(s: State, l: Id, p: Id, r: SnapshotRequest, threshold: nat) returns (s2: State)
    requires Inv(s) && CanRecordInstall(s, l, p, r)
    ensures Ran(s, l, HandledInstalled(s.Ids(), l, s.nodes[l], p, r, r.term, threshold), s2) && Inv(s2)
    ensures Quiet(s.nodes[l]) ==> Quiet(HandledInstalled(s.Ids(), l, s.nodes[l], p, r, r.term, threshold))
  {
    hide Inv, LeadsTo, Ran, Recorded, Advanced;
    var s1 := DoRecordInstall(s, l, p, r);
    RanOne(s, l, RecordInstall(l, p, r));
    StepKeeps(s, RecordInstall(l, p, r));
    StillLeads(s.nodes[l], p, r.Index());
    assert s1.Ids() == s.Ids();
    s2 := AdvanceRuns(s1, l, threshold);
    RanThen(s, l, s1.nodes[l], s1, Advanced(s.Ids(), l, s1.nodes[l], threshold), s2);
  }

  lemma ProposeRuns(s: State, l: Id, c: Command, threshold: nat) returns (s2: State)
    requires Inv(s) && IsLeader(s, l)
    ensures Ran(s, l, Proposed(s.Ids(), l, s.nodes[l], c, threshold), s2) && Inv(s2)
    ensures Quiet(s.nodes[l]) ==> Quiet(Proposed(s.Ids(), l, s.nodes[l], c, threshold))
    ensures var n, m := s.nodes[l], Proposed(s.Ids(), l, s.nodes[l], c, threshold);
            m.log == n.log + [Entry(n.term, c)] && m.commit == if s.Ids() == {l} then |n.log| + 1 else n.commit
  {
    hide Inv, LeadsTo, Ran, Advanced;
    NodesInv(s, l);
    InOrder(s, l);
    ProposedExact(s.Ids(), l, s.nodes[l], c, threshold);
    LeaderLog(s, l);
    var s1 := DoPropose(s, l, c);
    RanOne(s, l, Propose(l, c));
    StepKeeps(s, Propose(l, c));
    s2 := s1;
    assert s1.Ids() == s.Ids();
    if s.Ids() == {l} {
      s2 := AdvanceRuns(s1, l, threshold);
      RanThen(s, l, s1.nodes[l], s1, Advanced(s.Ids(), l, s1.nodes[l], threshold), s2);
    }
  }

  lemma TakeOverRuns(s: State, c: Id, voters: set<Id>, threshold: nat) returns (s2: State)
    requires Inv(s) && CanBecomeLeader(s, c, voters)
    ensures Ran(s, c, TookOver(s.Ids(), c, s.nodes[c], threshold), s2) && Inv(s2)
    ensures Quiet(s.nodes[c]) ==> Quiet(TookOver(s.Ids(), c, s.nodes[c], threshold))
    ensures var n, m := s.nodes[c], TookOver(s.Ids(), c, s.nodes[c], threshold);
            && m.role == Leader && m.term == n.term && m.log == n.log
            && forall p :: IsPeer(s, c, p) ==> NextIndex(m, p) == |n.log| + 1 && Matched(m, p) == 0
  {
    hide Inv, LeadsTo, Ran, Advanced;
    TookOverLeads(s.Ids(), c, s.nodes[c], threshold);
    var s1 := DoBecomeLeader(s, c, voters);
    RanOne(s, c, BecomeLeader(c, voters));
    StepKeeps(s, BecomeLeader(c, voters));
    s2 := s1;
    assert s1.Ids() == s.Ids();
    if s.Ids() == {c} {
      s2 := AdvanceRuns(s1, c, threshold);
      RanThen(s, c, s1.nodes[c], s1, Advanced(s.Ids(), c, s1.nodes[c], threshold), s2);
    }
  }

  /** Reading any answer to a call: one that shows a newer term, one that comes too late, or the one
      the leader is waiting for. */
  lemma AnswerRuns(s: State, l: Id, p: Id, r: AppendRequest, a: AppendAnswer, threshold: nat) returns (s2: State)
    requires Inv(s) && l in s.nodes && IsPeer(s, l, p) && TermReached(s, a.term)
    requires a.term <= s.nodes[l].term && IsLeader(s, l) && s.nodes[l].term == r.term ==>
               AppendReply(r, a.success, a.match_) in s.replies && a.term == r.term && p in s.nodes[l].out && s.nodes[l].out[p] == AppendRpc(r)
    ensures Ran(s, l, HandledReply(s.Ids(), l, s.nodes[l], p, r, a, threshold), s2) && Inv(s2)
    ensures a.term > s.nodes[l].term ==>
              HandledReply(s.Ids(), l, s.nodes[l], p, r, a, threshold) == s.nodes[l].(role := Follower, term := a.term, vote := None)
  {
    hide Inv, LeadsTo, Ran, TermReached, Advanced, HeardFromLeader;
    if a.term > s.nodes[l].term {
      s2 := JoinRuns(s, l, a.term);
    } else if s.nodes[l].role != Leader || s.nodes[l].term != r.term {
      RanNothing(s, l);
      s2 := s;
    } else {
      s2 := ReplyRuns(s, l, p, AppendReply(r, a.success, a.match_), threshold);
    }
  }

  /** The same for the answer, a term, to a snapshot. */
  lemma SnapshotAnswerRuns(s: State, l: Id, p: Id, r: SnapshotRequest, t: nat, threshold: nat) returns (s2: State)
    requires Inv(s) && l in s.nodes && IsPeer(s, l, p) && TermReached(s, t)
    requires t <= s.nodes[l].term && IsLeader(s, l) && s.nodes[l].term == r.term ==>
               r in s.installed && t == r.term && p in s.nodes[l].out && s.nodes[l].out[p] == SnapshotRpc(r)
    ensures Ran(s, l, HandledInstalled(s.Ids(), l, s.nodes[l], p, r, t, threshold), s2) && Inv(s2)
    ensures t > s.nodes[l].term ==>
              HandledInstalled(s.Ids(), l, s.nodes[l], p, r, t, threshold) == s.nodes[l].(role := Follower, term := t, vote := None)
  {
    hide Inv, LeadsTo, Ran, TermReached, Advanced, HeardFromLeader;
    if t > s.nodes[l].term {
      s2 := JoinRuns(s, l, t);
    } else if s.nodes[l].role != Leader || s.nodes[l].term != r.term {
      RanNothing(s, l);
      s2 := s;
    } else {
      s2 := InstalledRuns(s, l, p, r, threshold);
    }
  }

  // ---------------------------------------------------------------- standing and sending

  lemma StandRuns(s: State, c: Id) returns (s2: State)
    requires Inv(s) && c in s.nodes && s.nodes[c].role != Leader
    ensures Ran(s, c, Standing(s.nodes[c], c), s2) && Inv(s2)
    ensures Candidacy(s.nodes[c], c) in s2.voteRequests && Vote(Candidacy(s.nodes[c], c), c) in s2.votes
  {
    hide Inv, LeadsTo, Ran;
    s2 := DoBecomeCandidate(s, c);
    RanOne(s, c, BecomeCandidate(c));
    StepKeeps(s, BecomeCandidate(c));
  }

  /** Building a call is the step that sends it, or the one that lowers the next index. The one
      position for which it is neither is zero under a snapshot. */
  lemma BuildRuns(s: State, l: Id, p: Id) returns (s2: State)
    requires Inv(s) && IsLeader(s, l) && IsPeer(s, l, p) && p !in s.nodes[l].out
    requires NextIndex(s.nodes[l], p) == 1 ==> s.nodes[l].snap == 0
    ensures Ran(s, l, Built(s.nodes[l], l, p, s.calls).0, s2) && Inv(s2)
    ensures var r := Built(s.nodes[l], l, p, s.calls).1; r.Some? ==> r.value in s2.appends && s2.calls == s.calls + 1
  {
    hide Inv, LeadsTo, Ran, Batch;
    NodesInv(s, l);
    InOrder(s, l);
    var n, prev := s.nodes[l], NextIndex(s.nodes[l], p) - 1;
    if n.snap <= prev <= |n.log| {
      s2 := DoSendAppend(s, l, p);
      RanOne(s, l, SendAppend(l, p));
      StepKeeps(s, SendAppend(l, p));
    } else {
      s2 := DoLowerNext(s, l, p);
      RanOne(s, l, LowerNext(l, p));
      StepKeeps(s, LowerNext(l, p));
    }
  }

  lemma SendSnapshotRuns(s: State, l: Id, p: Id) returns (s2: State)
    requires Inv(s) && IsLeader(s, l) && IsPeer(s, l, p) && NextIndex(s.nodes[l], p) <= s.nodes[l].snap <= |s.nodes[l].log|
    ensures var r := SnapshotFor(s, l, p);
            Ran(s, l, s.nodes[l].(out := s.nodes[l].out[p := SnapshotRpc(r)]), s2) && r in s2.snapshots && s2.calls == s.calls + 1
    ensures Inv(s2)
  {
    hide Inv, LeadsTo, Ran;
    s2 := DoSendSnapshot(s, l, p);
    RanOne(s, l, SendSnapshot(l, p));
    StepKeeps(s, SendSnapshot(l, p));
  }

  lemma FailRuns(s: State, l: Id, p: Id) returns (s2: State)
    requires Inv(s) && l in s.nodes
    ensures Ran(s, l, s.nodes[l].(out := s.nodes[l].out - {p}), s2) && Inv(s2)
  {
    hide Inv, LeadsTo, Ran;
    s2 := DoGiveUp(s, l, p);
    RanOne(s, l, GiveUp(l, p));
    StepKeeps(s, GiveUp(l, p));
  }

  lemma RestartRuns(s: State, p: Id) returns (s2: State)
    requires Inv(s) && p in s.nodes
    ensures Ran(s, p, Restarted(s.nodes[p]), s2) && Inv(s2)
  {
    hide Inv, LeadsTo, Ran;
    s2 := DoRestart(s, p);
    RanOne(s, p, Restart(p));
    StepKeeps(s, Restart(p));
  }
}
