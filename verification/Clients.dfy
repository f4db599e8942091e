module Clients {
  // Client requests: when an acknowledged write is safe, and when a read is fresh.

  import opened Logs
  import opened Cluster
  import opened Invariants
  import opened Consequences
  import opened LeaderSteps
  import opened Safety
  import opened Theorems

  // ---------------------------------------------------------------- acknowledged writes

  datatype WaitVerdict = Acknowledged | LostLeadership | KeepWaiting

  /** One poll of the write path: the commit index is looked at before the loss of leadership. */
  function WaitCheck(n: Node, index: nat, term: nat): WaitVerdict {
    if n.commit >= index then Acknowledged
    else if n.role != Leader || n.term != term then LostLeadership
    else KeepWaiting
  }

  /** Durable acknowledgement: a write acknowledged while its node still leads the proposing term
      is in the log of every leader from then on, and is what any node commits or applies at its
      index. */
  lemma DurableAcknowledgement(s: State, l: Id, c: Command, s2: State, s3: State)
    requires Reachable(s) && CanPropose(s, l)
    requires LeadsTo(DoPropose(s, l, c), s2) && LeadsTo(s2, s3)
    requires IsLeader(s2, l) && s2.nodes[l].term == s.nodes[l].term
    requires WaitCheck(s2.nodes[l], |s.nodes[l].log| + 1, s.nodes[l].term) == Acknowledged
    ensures var k, e := |s.nodes[l].log| + 1, Entry(s.nodes[l].term, c);
            && (forall u :: u in s3.reigns && u >= s.nodes[l].term ==>
                  k <= |s3.reigns[u].log| && s3.reigns[u].log[k - 1] == e)
            && (forall q :: q in s3.nodes && s3.nodes[q].commit >= k ==>
                  k <= |s3.nodes[q].log| && s3.nodes[q].log[k - 1] == e)
  {
    hide Inv, Extends, Reachable, LeadsTo, DoPropose, IsCommitted, WaitCheck;
    var t, k, e := s.nodes[l].term, |s.nodes[l].log| + 1, Entry(s.nodes[l].term, c);
    var log := AcknowledgedLog(s, l, c, s2, s3);
    assert log[|log| - 1] == e;
    CommittedEverywhere(s3, log, t);
  }

  /** The log through an acknowledged write is committed for good. */
  lemma AcknowledgedLog(s: State, l: Id, c: Command, s2: State, s3: State) returns (log: seq<Entry>)
    requires Reachable(s) && CanPropose(s, l)
    requires LeadsTo(DoPropose(s, l, c), s2) && LeadsTo(s2, s3)
    requires IsLeader(s2, l) && s2.nodes[l].term == s.nodes[l].term
    requires WaitCheck(s2.nodes[l], |s.nodes[l].log| + 1, s.nodes[l].term) == Acknowledged
    ensures |log| == |s.nodes[l].log| + 1 && log[|log| - 1] == Entry(s.nodes[l].term, c)
    ensures Inv(s3) && IsCommitted(s3, log, s.nodes[l].term)
  {
    hide Inv, Extends, Reachable, LeadsTo, IsCommitted;
    ReachableOk(s);
    var t, k := s.nodes[l].term, |s.nodes[l].log| + 1;
    ProposedEntry(s, l, c, s2);
    LaterKeeps(s2, s3);
    AcknowledgedCommitted(s2, l, k);
    log := s2.nodes[l].log[..k];
    CommittedStays(s2, s3, log, t, t);
  }

  /** A leader that still leads the term it proposed in still holds its proposal. */
  lemma ProposedEntry(s: State, l: Id, c: Command, s2: State)
    requires Inv(s) && CanPropose(s, l) && LeadsTo(DoPropose(s, l, c), s2)
    ensures Inv(s2) && s.nodes[l].term in s2.reigns
    ensures |s.nodes[l].log| < |s2.reigns[s.nodes[l].term].log|
    ensures s2.reigns[s.nodes[l].term].log[|s.nodes[l].log|] == Entry(s.nodes[l].term, c)
    ensures l in s2.nodes && (IsLeader(s2, l) && s2.nodes[l].term == s.nodes[l].term ==>
              s2.nodes[l].log == s2.reigns[s.nodes[l].term].log)
  {
    hide Inv, Extends;
    var s1, t := DoPropose(s, l, c), s.nodes[l].term;
    LeaderLog(s, l);
    ProposeKeeps(s, l, c);
    LaterKeeps(s1, s2);
    ReignGrows(s1, s2, t);
    TermsGrow(s1, s2, l);
    if IsLeader(s2, l) {
      LeaderLog(s2, l);
    }
  }

  lemma AcknowledgedCommitted(s: State, l: Id, k: nat)
    requires Inv(s) && l in s.nodes && k <= s.nodes[l].commit
    ensures k <= |s.nodes[l].log| && IsCommitted(s, s.nodes[l].log[..k], s.nodes[l].term)
  {
    var n := s.nodes[l];
    assert NodeOk(s, l, n);
    CommittedPrefix(s, n.log[..n.commit], n.term, k);
    assert n.log[..n.commit][..k] == n.log[..k];
  }

  /** A log committed by terms up to `t` is in every leader's log from `t` on, and in every node's
      log as far as that node committed. */
  lemma CommittedEverywhere(s: State, log: seq<Entry>, t: nat)
    requires Inv(s) && IsCommitted(s, log, t) && log != []
    ensures forall u :: u in s.reigns && u >= t ==> |log| <= |s.reigns[u].log| && s.reigns[u].log[|log| - 1] == log[|log| - 1]
    ensures forall q :: q in s.nodes && s.nodes[q].commit >= |log| ==>
              |log| <= |s.nodes[q].log| && s.nodes[q].log[|log| - 1] == log[|log| - 1]
  {
    hide VotesOk, AcksOk, MessagesOk, PairsOk;
    forall u | u in s.reigns && u >= t
      ensures |log| <= |s.reigns[u].log| && s.reigns[u].log[|log| - 1] == log[|log| - 1]
    {
      CommittedInReign(s, log, t, u);
    }
    forall q | q in s.nodes && s.nodes[q].commit >= |log|
      ensures |log| <= |s.nodes[q].log| && s.nodes[q].log[|log| - 1] == log[|log| - 1]
    {
      var m := s.nodes[q];
      assert NodeOk(s, q, m);
      CommittedComparable(s, log, t, m.log[..m.commit], m.term);
      assert m.log[..m.commit][|log| - 1] == m.log[|log| - 1];
    }
  }

  /** Without the same-term hypothesis an acknowledgement can be for another write. It is for the
      proposed one exactly when the node's log still shows the proposing term at that index, which it
      can look up for as long as the index is not below its snapshot: then every node that ever
      commits the index, and every later leader, has the write there, and otherwise none has. */
  lemma AcknowledgementExact(s: State, l: Id, c: Command, s2: State, s3: State)
    requires Reachable(s) && CanPropose(s, l)
    requires LeadsTo(DoPropose(s, l, c), s2) && LeadsTo(s2, s3) && l in s2.nodes
    requires WaitCheck(s2.nodes[l], |s.nodes[l].log| + 1, s.nodes[l].term) == Acknowledged
    ensures |s.nodes[l].log| + 1 <= |s2.nodes[l].log|
    ensures var k, e := |s.nodes[l].log| + 1, Entry(s.nodes[l].term, c);
            var kept := TermAt(s2.nodes[l].log, k) == s.nodes[l].term;
            && (forall u :: u in s3.reigns && u >= s2.nodes[l].term ==>
                  k <= |s3.reigns[u].log| && (s3.reigns[u].log[k - 1] == e <==> kept))
            && (forall q :: q in s3.nodes && s3.nodes[q].commit >= k ==>
                  k <= |s3.nodes[q].log| && (s3.nodes[q].log[k - 1] == e <==> kept))
  {
    hide Inv, Extends, NodeOk, IsCommitted;
    ReachableOk(s);
    ProposedEntry(s, l, c, s2);
    LaterKeeps(s2, s3);
    var k, n := |s.nodes[l].log| + 1, s2.nodes[l];
    NodesInv(s2, l);
    CommitWithinLog(s2, l);
    if TermAt(n.log, k) == s.nodes[l].term {
      EntryOfTerm(s2, l, k);
    }
    AcknowledgedCommitted(s2, l, k);
    CommittedStays(s2, s3, n.log[..k], n.term, n.term);
    assert n.log[..k][k - 1] == n.log[k - 1];
    CommittedEverywhere(s3, n.log[..k], n.term);
  }

  lemma CommitWithinLog(s: State, p: Id)
    requires p in s.nodes && NodeOk(s, p, s.nodes[p])
    ensures s.nodes[p].commit <= |s.nodes[p].log|
  {}

  /** An entry is determined by its index and its term. */
  lemma EntryOfTerm(s: State, p: Id, k: nat)
    requires Inv(s) && p in s.nodes && 1 <= k <= |s.nodes[p].log|
    ensures var t := TermAt(s.nodes[p].log, k);
            t in s.reigns && k <= |s.reigns[t].log| && s.nodes[p].log[k - 1] == s.reigns[t].log[k - 1]
  {
    hide VotesOk, AcksOk, MessagesOk, PairsOk;
    var n := s.nodes[p];
    assert NodeOk(s, p, n);
    if n.snap < k {
      assert StoredOk(s, n, k);
      StoredSorted(s, n, k, k);
    } else {
      var log := n.log[..n.commit];
      var u: nat, j: nat :| Commits(s, log, n.term, u, j);
      assert log[k - 1] == n.log[k - 1];
      assert ReignOk(s, u) && EntryOk(s, u, k);
      AgreeTerm(s.reigns[u].log, s.reigns[TermAt(s.reigns[u].log, k)].log, k, k);
    }
  }

  // ---------------------------------------------------------------- fresh reads

  /** By `s2`, `p` answered a call that `l` made, as leader of whatever term, after `s`. */
  ghost predicate AnsweredSince(s: State, s2: State, l: Id, p: Id) {
    || (exists y :: y in s2.replies && y.success && y.request.leader == l && y.request.to == p && y.request.id >= s.calls)
    || (exists r :: r in s2.installed && r.leader == l && r.to == p && r.id >= s.calls)
  }

  /** The confirmation round of a read that reached `l` in `s` has succeeded by `s2`: `l` leads,
      and with the peers that answered since makes a majority. Terms are not compared. */
  ghost predicate Confirmed(s: State, s2: State, l: Id, inSync: set<Id>) {
    && l in s.nodes && IsLeader(s2, l) && Quorum(s.Ids(), inSync)
    && forall p :: p in inSync && p != l ==> AnsweredSince(s, s2, l, p)
  }

  /** Answers to later calls come from nodes that had not passed the term when the read began. */
  ghost predicate AnswersTimely(s: State, s2: State) {
    && (forall y :: y in s2.replies && y.request.id >= s.calls && y.request.to in s.nodes ==>
          s.nodes[y.request.to].term <= y.request.term)
    && (forall r :: r in s2.installed && r.id >= s.calls && r.to in s.nodes ==> s.nodes[r.to].term <= r.term)
  }

  lemma TimelyStep(s: State, s2: State, a: Action)
    requires AnswersTimely(s, s2) && Extends(s, s2) && Enabled(s2, a)
    ensures AnswersTimely(s, Apply(s2, a))
  {
    hide AnswersTimely;
    AnsweredNow(s2, a);
    TimelyGrows(s, s2, Apply(s2, a));
  }

  /** A new answer comes from a node in the term of the call. */
  ghost predicate NewAnswers(s: State, s2: State) {
    && (forall y :: y in s2.replies && y !in s.replies ==>
          y.request.to in s.nodes && s.nodes[y.request.to].term == y.request.term)
    && (forall r :: r in s2.installed && r !in s.installed ==> r.to in s.nodes && s.nodes[r.to].term == r.term)
  }

  lemma AnsweredNow(s: State, a: Action)
    requires Enabled(s, a)
    ensures NewAnswers(s, Apply(s, a))
  {}

  lemma TimelyGrows(s: State, s2: State, s3: State)
    requires AnswersTimely(s, s2) && Extends(s, s2) && NewAnswers(s2, s3)
    ensures AnswersTimely(s, s3)
  {}

  lemma {:induction false} TimelyRun(s: State, s1: State, run: seq<Action>, s2: State)
    requires Inv(s1) && Extends(s, s1) && AnswersTimely(s, s1) && Leads(s1, run, s2)
    ensures AnswersTimely(s, s2)
    decreases |run|
  {
    hide Inv, Extends, AnswersTimely;
    if run != [] {
      StepKeeps(s1, run[0]);
      StepExtends(s1, run[0]);
      TimelyStep(s, s1, run[0]);
      ExtendsTrans(s, s1, Apply(s1, run[0]));
      TimelyRun(s, Apply(s1, run[0]), run[1..], s2);
    }
  }

  lemma TimelyStart(s: State)
    requires Inv(s)
    ensures AnswersTimely(s, s)
  {
    forall y | y in s.replies
      ensures y.request.id < s.calls
    {
      assert ReplyOk(s, y) && AppendOk(s, y.request);
    }
    forall r | r in s.installed
      ensures r.id < s.calls
    {
      assert InstalledOk(s, r) && SnapshotOk(s, r);
    }
  }

  /** A confirmed leader had not been superseded when the read began. */
  lemma ConfirmedIsLatest(s: State, s2: State, l: Id, inSync: set<Id>)
    requires Inv(s) && LeadsTo(s, s2) && Confirmed(s, s2, l, inSync)
    ensures forall u :: u in s.reigns ==> u <= s2.nodes[l].term
  {
    hide Inv, Extends, AnswersTimely, Confirmed;
    ConfirmedLeads(s, s2, l, inSync);
    LaterKeeps(s, s2);
    var run :| Leads(s, run, s2);
    TimelyStart(s);
    ExtendsSelf(s);
    TimelyRun(s, s, run, s2);
    forall u | u in s.reigns
      ensures u <= s2.nodes[l].term
    {
      var q := VoterInRound(s, u, inSync);
      NotPassed(s, s2, l, inSync, q);
    }
  }

  lemma NotPassed(s: State, s2: State, l: Id, inSync: set<Id>, q: Id)
    requires AnswersTimely(s, s2) && Confirmed(s, s2, l, inSync) && q in inSync
    requires Inv(s2) && Extends(s, s2)
    ensures q in s.nodes && s.nodes[q].term <= s2.nodes[l].term
  {
    hide VotesOk, AcksOk, PairsOk, NodesOk, Bounded, IsCommitted, Capped;
    if q != l {
      assert AnsweredSince(s, s2, l, q);
      if y :| y in s2.replies && y.success && y.request.leader == l && y.request.to == q && y.request.id >= s.calls {
        assert ReplyOk(s2, y) && AppendOk(s2, y.request) && ReignOk(s2, y.request.term);
      } else {
        var r :| r in s2.installed && r.leader == l && r.to == q && r.id >= s.calls;
        assert InstalledOk(s2, r) && SnapshotOk(s2, r) && ReignOk(s2, r.term);
      }
    }
  }

  lemma VoterInRound(s: State, u: nat, inSync: set<Id>) returns (q: Id)
    requires Inv(s) && u in s.reigns && Quorum(s.Ids(), inSync)
    ensures q in inSync && q in s.nodes && s.nodes[q].term >= u
  {
    assert ReignOk(s, u);
    q := QuorumsMeet(s.Ids(), s.reigns[u].voters, inSync);
    assert VoterOk(s, q, s.reigns[u].leader, u);
  }

  /** A leader's commit index never falls while it leads one term. */
  lemma {:induction false} LeaderCommitGrows(s: State, run: seq<Action>, s2: State, l: Id, t: nat, k: nat)
    requires Inv(s) && Leads(s, run, s2) && l in s.nodes && t in s.reigns
    requires s.nodes[l].role == Leader && s.nodes[l].term == t ==> k <= s.nodes[l].commit
    requires l in s2.nodes && s2.nodes[l].role == Leader && s2.nodes[l].term == t
    ensures k <= s2.nodes[l].commit
    decreases |run|
  {
    hide Inv, Extends;
    if run != [] {
      var s1 := Apply(s, run[0]);
      StepKeeps(s, run[0]);
      StepExtends(s, run[0]);
      ReignGrows(s, s1, t);
      TermsGrow(s, s1, l);
      LeaderCommitStep(s, run[0], l, t, k);
      LeaderCommitGrows(s1, run[1..], s2, l, t, k);
    }
  }

  lemma LeaderCommitStep(s: State, a: Action, l: Id, t: nat, k: nat)
    requires Inv(s) && Enabled(s, a) && l in s.nodes && t in s.reigns
    requires s.nodes[l].role == Leader && s.nodes[l].term == t ==> k <= s.nodes[l].commit
    ensures var s2 := Apply(s, a);
            l in s2.nodes && (s2.nodes[l].role == Leader && s2.nodes[l].term == t ==> k <= s2.nodes[l].commit)
  {
    hide Inv;
    if ByLeader(a) {
      LeaderStepNode(s, a, l);
    } else if a.BecomeLeader? {
      WinExtends(s, a.c, a.voters);
    }
  }

  /** A confirmed leader holds every write any leader had committed before the read began; the
      only ones its commit index may not cover are among those it was elected with. */
  lemma ConfirmedHolds(s0: State, l0: Id, k: nat, s: State, s2: State, l: Id, inSync: set<Id>)
    requires Inv(s0) && IsLeader(s0, l0) && k <= s0.nodes[l0].commit
    requires LeadsTo(s0, s) && LeadsTo(s, s2) && Confirmed(s, s2, l, inSync)
    ensures s2.nodes[l].term in s2.reigns && k <= Max(s2.reigns[s2.nodes[l].term].base, s2.nodes[l].commit)
    ensures Agree(s0.nodes[l0].log, s2.nodes[l].log, k)
  {
    hide Inv, Extends, Confirmed;
    LaterKeeps(s0, s);
    LaterKeeps(s, s2);
    ExtendsTrans(s0, s, s2);
    ConfirmedLeads(s, s2, l, inSync);
    ConfirmedIsLatest(s, s2, l, inSync);
    LeaderLog(s0, l0);
    LeaderLog(s2, l);
    var t0, t := s0.nodes[l0].term, s2.nodes[l].term;
    ReignGrows(s0, s, t0);
    ReignGrows(s0, s2, t0);
    AcknowledgedCommitted(s0, l0, k);
    if t0 == t {
      LeadsToJoin(s0, s, s2);
      var run :| Leads(s0, run, s2);
      LeaderCommitGrows(s0, run, s2, l0, t, k);
      PrefixAgree(s0.nodes[l0].log, s2.nodes[l].log, k);
    } else {
      CommittedStays(s0, s2, s0.nodes[l0].log[..k], t0, t0);
      EarlierTermBelowBase(s2, s0.nodes[l0].log[..k], t0, t);
    }
  }

  lemma ConfirmedLeads(s: State, s2: State, l: Id, inSync: set<Id>)
    requires Confirmed(s, s2, l, inSync)
    ensures l in s.nodes && IsLeader(s2, l) && Quorum(s.Ids(), inSync)
  {}

  /** A process that does not restart never forgets that it applied an index. */
  lemma {:induction false} AppliedGrows(s: State, run: seq<Action>, s2: State, p: Id)
    requires Inv(s) && Leads(s, run, s2) && p in s.nodes && Restart(p) !in run
    ensures p in s2.nodes && s.nodes[p].applied <= s2.nodes[p].applied
    decreases |run|
  {
    hide Inv, Extends;
    if run != [] {
      StepKeeps(s, run[0]);
      AppliedStep(s, run[0], p);
      AppliedGrows(Apply(s, run[0]), run[1..], s2, p);
    }
  }

  lemma AppliedStep(s: State, a: Action, p: Id)
    requires Enabled(s, a) && p in s.nodes && a != Restart(p)
    ensures p in Apply(s, a).nodes && s.nodes[p].applied <= Apply(s, a).nodes[p].applied
  {
    if ByLeader(a) {
      LeaderStepNode(s, a, p);
    } else if ByElection(a) {
      ElectionStepNode(s, a, p);
    } else {
      match a
      case InstallSnapshot(_, _) =>
      case _ =>
    }
  }

  /** The commit index covers the log the leader was elected with. It is something the leader can
      look up: the entry after the commit index, which is never compacted, is its own or missing. */
  predicate CoversElection(n: Node)
    requires n.commit <= |n.log|
  {
    n.commit == |n.log| || TermAt(n.log, n.commit + 1) == n.term
  }

  lemma CoversExactly(s: State, l: Id)
    requires Reachable(s) && IsLeader(s, l)
    ensures s.nodes[l].snap <= s.nodes[l].commit <= |s.nodes[l].log| && s.nodes[l].term in s.reigns
    ensures CoversElection(s.nodes[l]) <==> s.reigns[s.nodes[l].term].base <= s.nodes[l].commit
  {
    hide VotesOk, AcksOk, MessagesOk, PairsOk, Complete, Reachable, IsCommitted;
    ReachableOk(s);
    var n, t := s.nodes[l], s.nodes[l].term;
    assert NodeOk(s, l, n);
    assert ReignOk(s, t);
    if n.commit < |n.log| {
      assert EntryOk(s, t, n.commit + 1);
    }
  }

  /** Read freshness. A read reaches `l` in `s`, its confirmation round succeeds by `s2`, and the
      value is looked up in `s3`, the process having stayed up. If at the check the commit index
      covers the log the leader was elected with, the value reflects every write that any leader
      had committed before the read began. */
  lemma ReadFreshness(s0: State, l0: Id, k: nat, s: State, s2: State, l: Id, inSync: set<Id>,
                      run: seq<Action>, s3: State)
    requires Reachable(s0) && IsLeader(s0, l0) && k <= s0.nodes[l0].commit
    requires LeadsTo(s0, s) && LeadsTo(s, s2) && Confirmed(s, s2, l, inSync)
    requires s2.nodes[l].applied == s2.nodes[l].commit <= |s2.nodes[l].log| && CoversElection(s2.nodes[l])
    requires Leads(s2, run, s3) && Restart(l) !in run
    ensures l in s3.nodes && k <= |s0.nodes[l0].log| && k <= s3.nodes[l].applied <= |s3.nodes[l].log|
    ensures s3.nodes[l].log[..k] == s0.nodes[l0].log[..k]
    ensures s3.nodes[l].kv == Replay(s0.nodes[l0].log[..k] + s3.nodes[l].log[k..s3.nodes[l].applied])
  {
    hide Inv, Extends, Confirmed, Leads, NodeOk;
    ReachableOk(s0);
    ConfirmedLeads(s, s2, l, inSync);
    ConfirmedHolds(s0, l0, k, s, s2, l, inSync);
    LeadsToJoin(s0, s, s2);
    LaterReachable(s0, s2);
    CoversExactly(s2, l);
    LaterKeeps(s0, s2);
    AppliedGrows(s2, run, s3, l);
    assert LeadsTo(s2, s3);
    LeadsToJoin(s0, s2, s3);
    LaterKeeps(s0, s3);
    NodesInv(s3, l);
    ReplayedThrough(s3, l);
    CommittedAgree(s0, s3, l0, l, k);
    assert s3.nodes[l].log[..s3.nodes[l].applied] == s3.nodes[l].log[..k] + s3.nodes[l].log[k..s3.nodes[l].applied];
  }

  lemma ReplayedThrough(s: State, p: Id)
    requires p in s.nodes && NodeOk(s, p, s.nodes[p])
    ensures s.nodes[p].applied <= s.nodes[p].commit <= |s.nodes[p].log|
    ensures s.nodes[p].kv == Replay(s.nodes[p].log[..s.nodes[p].applied])
  {}

  lemma EarlierTermBelowBase(s: State, log: seq<Entry>, t0: nat, t: nat)
    requires Inv(s) && IsCommitted(s, log, t0) && t in s.reigns && t0 < t
    ensures |log| <= s.reigns[t].base && log <= s.reigns[t].log
  {
    hide VotesOk, AcksOk, MessagesOk, PairsOk, NodesOk;
    CommittedInReign(s, log, t0, t);
  }
}
