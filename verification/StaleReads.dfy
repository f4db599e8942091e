module StaleReads {
  // The other half of read freshness: a leader whose commit index does not cover the log it was
  // elected with cannot know that it is fresh. For every term, log and commit index of such a
  // leader there is a run that gives them to a confirmed leader after somebody else committed the
  // next entry.

  import opened Logs
  import opened Cluster
  import opened Invariants
  import opened Consequences
  import opened Safety
  import opened Theorems
  import opened Clients
  import opened Scenario
  import opened Backoff
  import opened Handlers
  import opened Link

  // ---------------------------------------------------------------- three nodes in step

  predicate EvenNode(n: Node, t: nat, log: seq<Entry>) {
    n.snap == 0 && n.log == log && n.term <= t
  }

  /** All three nodes hold `log`, uncompacted, and none is past term `t`. */
  predicate Even(s: State, x: Id, y: Id, z: Id, t: nat, log: seq<Entry>) {
    && Members(s, x, y, z)
    && EvenNode(s.nodes[x], t, log) && EvenNode(s.nodes[y], t, log) && EvenNode(s.nodes[z], t, log)
  }

  predicate Following(s: State, x: Id, p: Id, t: nat)
    requires x in s.nodes && p in s.nodes
  {
    && s.nodes[p].role == Follower && s.nodes[p].term == t
    && NextIndex(s.nodes[x], p) == |s.nodes[x].log| + 1 && Matched(s.nodes[x], p) <= |s.nodes[x].log| && p !in s.nodes[x].out
  }

  /** ... and `x` leads term `t` with both others following closely. */
  predicate Led(s: State, x: Id, y: Id, z: Id, t: nat, log: seq<Entry>) {
    && Even(s, x, y, z, t, log) && s.nodes[x].role == Leader && s.nodes[x].term == t
    && Following(s, x, y, t) && Following(s, x, z, t)
  }

  /** What a phase does to the positions of a node that does not lead: nothing. */
  predicate Still(n: Node, n2: Node) {
    n2.commit == n.commit && n2.applied == n.applied && n2.disk == n.disk
  }

  /** ... and of the one that leads: its commit index may fall back to what is on disk. */
  predicate Resumed(n: Node, n2: Node) {
    (n2.commit == n.commit || n2.commit == n.disk) && (n2.applied == n.applied || n2.applied == n.disk) && n2.disk == n.disk
  }

  // ---------------------------------------------------------------- elections

  lemma {:induction false} Climb(s: State, x: Id, t: nat) returns (s2: State)
    requires x in s.nodes && s.nodes[x].role != Leader && s.nodes[x].term <= t
    ensures LeadsTo(s, s2) && x in s2.nodes && s2.nodes == s.nodes[x := s2.nodes[x]]
    ensures s2.nodes[x] == s.nodes[x].(role := s2.nodes[x].role, term := t, vote := s2.nodes[x].vote) && s2.nodes[x].role != Leader
    decreases t - s.nodes[x].term
  {
    hide Leads, LeadsTo;
    LeadsSelf(s);
    if s.nodes[x].term == t {
      s2 := s;
    } else {
      var s1 := DoBecomeCandidate(s, x);
      Continue(s, s, BecomeCandidate(x));
      s2 := Climb(s1, x, t);
      LeadsToJoin(s, s1, s2);
    }
  }

  /** `x` restarts and is elected in term `t2`. */
  lemma Lead(s: State, x: Id, y: Id, z: Id, t: nat, log: seq<Entry>, t2: nat) returns (s2: State)
    requires Even(s, x, y, z, t, log) && t < t2
    ensures LeadsTo(s, s2) && Led(s2, x, y, z, t2, log)
    ensures Resumed(s.nodes[x], s2.nodes[x]) && Still(s.nodes[y], s2.nodes[y]) && Still(s.nodes[z], s2.nodes[z])
  {
    hide Leads, LeadsTo, Led;
    LeadsSelf(s);
    var s1 := DoRestart(s, x);
    Continue(s, s, Restart(x));
    var s3 := Climb(s1, x, t2 - 1);
    LeadsToJoin(s, s1, s3);
    assert s3.Ids() == s.Ids();
    s2 := Win(s3, x, y, z, log, t2);
    LeadsToJoin(s, s3, s2);
  }

  lemma Win(s: State, x: Id, y: Id, z: Id, log: seq<Entry>, t: nat) returns (s2: State)
    requires 1 <= t && Even(s, x, y, z, t - 1, log) && s.nodes[x].role != Leader && s.nodes[x].term == t - 1
    ensures LeadsTo(s, s2) && Led(s2, x, y, z, t, log)
    ensures Still(s.nodes[x], s2.nodes[x]) && Still(s.nodes[y], s2.nodes[y]) && Still(s.nodes[z], s2.nodes[z])
  {
    hide Leads, LeadsTo, LastTerm, Elected;
    var s1 := Elect(s, x, y, z);
    ElectedIsFresh(s.Ids(), x, s.nodes[x].(term := t, vote := Some(x)), y);
    ElectedIsFresh(s.Ids(), x, s.nodes[x].(term := t, vote := Some(x)), z);
    assert s1.Ids() == s.Ids();
    assert s1.nodes[z] == s.nodes[z] && s1.nodes[y] == Voted(s.nodes[y], x, t);
    assert TermReached(s1, t) by { assert s1.nodes[x].term >= t; }
    s2 := DoObserveTerm(s1, z, t);
    Continue(s, s1, ObserveTerm(z, t));
    assert s2.Ids() == s.Ids();
  }

  lemma ElectedIsFresh(ids: set<Id>, c: Id, n: Node, p: Id)
    requires p in ids && p != c
    ensures var n2 := Elected(ids, c, n);
            && n2 == n.(role := Leader, next := n2.next, matched := n2.matched, out := map[])
            && NextIndex(n2, p) == |n.log| + 1 && Matched(n2, p) == 0
  {}

  // ---------------------------------------------------------------- replication

  /** A follower that is close takes what the leader has beyond it, at most one entry. */
  lemma Feed(s: State, l: Id, p: Id) returns (s2: State)
    requires l in s.nodes && p in s.nodes && l != p && s.nodes[l].role == Leader && s.nodes[l].snap == 0 == s.nodes[p].snap
    requires s.nodes[p].role == Follower && s.nodes[p].term == s.nodes[l].term && p !in s.nodes[l].out
    requires s.nodes[p].log <= s.nodes[l].log && |s.nodes[l].log| <= |s.nodes[p].log| + 1
    requires NextIndex(s.nodes[l], p) == |s.nodes[p].log| + 1 && Matched(s.nodes[l], p) <= |s.nodes[p].log|
    ensures LeadsTo(s, s2)
    ensures var n, m := s.nodes[l], s.nodes[p];
            s2.nodes == s.nodes[p := m.(log := n.log, commit := FollowCommit(m.commit, n.commit, |n.log|))][l := Recorded(n, p, |n.log|)]
  {
    hide Leads, LeadsTo;
    var n, m := s.nodes[l], s.nodes[p];
    PrefixAgree(m.log, n.log, |m.log|);
    AgreeTerm(m.log, n.log, |m.log|, |m.log|);
    s2 := AcceptedIsRun(s, l, p);
    var r := AppendFor(s, l, p);
    assert r.entries == n.log[|m.log|..];
    assert Merge(m.log, |m.log|, r.entries) == m.log + r.entries == n.log;
  }

  lemma Grow(s: State, x: Id, y: Id, z: Id, t: nat, log: seq<Entry>, e: Entry) returns (s2: State)
    requires Reachable(s) && Led(s, x, y, z, t, log) && e.term == t
    requires s.nodes[x].commit <= s.nodes[y].commit
    ensures LeadsTo(s, s2) && Led(s2, x, y, z, t, log + [e])
    ensures Matched(s2.nodes[x], y) == |log| + 1 == Matched(s2.nodes[x], z)
    ensures Still(s.nodes[x], s2.nodes[x]) && Still(s.nodes[y], s2.nodes[y])
    ensures s2.nodes[z].disk == s.nodes[z].disk && s2.nodes[z].applied == s.nodes[z].applied
  {
    hide Leads, LeadsTo, Reachable, Inv;
    ReachableOk(s);
    LeaderLog(s, x);
    LeadsSelf(s);
    var s1 := DoPropose(s, x, e.command);
    Continue(s, s, Propose(x, e.command));
    assert s1.nodes[x].log == log + [e];
    var s3 := Feed(s1, x, y);
    LeadsToJoin(s, s1, s3);
    assert s3.Ids() == s.Ids();
    s2 := Feed(s3, x, z);
    LeadsToJoin(s, s3, s2);
    assert s2.Ids() == s.Ids();
  }

  // ---------------------------------------------------------------- writing a log

  ghost predicate Rising(es: seq<Entry>, t: nat) {
    (forall i :: 0 <= i < |es| ==> t <= es[i].term) && (forall i, j :: 0 <= i <= j < |es| ==> es[i].term <= es[j].term)
  }

  /** `x` writes `es` after `log`, standing for election whenever the term rises, and the others
      follow. */
  lemma {:induction false} WriteAll(s: State, x: Id, y: Id, z: Id, t: nat, log: seq<Entry>, es: seq<Entry>) returns (s2: State, t2: nat)
    requires Reachable(s) && Even(s, x, y, z, t, log) && Rising(es, t)
    requires es != [] && es[0].term == t ==> Led(s, x, y, z, t, log)
    requires s.nodes[x].commit <= s.nodes[y].commit && s.nodes[x].disk <= s.nodes[y].commit
    ensures LeadsTo(s, s2) && Reachable(s2) && Even(s2, x, y, z, t2, log + es)
    ensures t2 == if es == [] then t else es[|es| - 1].term
    ensures es == [] ==> s2 == s
    ensures es != [] ==>
              && Led(s2, x, y, z, t2, log + es)
              && Matched(s2.nodes[x], y) == |log + es| == Matched(s2.nodes[x], z)
    ensures Resumed(s.nodes[x], s2.nodes[x]) && Still(s.nodes[y], s2.nodes[y])
    decreases |es|
  {
    hide Leads, LeadsTo, Reachable;
    if es == [] {
      LeadsSelf(s);
      s2, t2 := s, t;
      assert log + es == log;
    } else {
      var last := |es| - 1;
      var s1, t1 := WriteAll(s, x, y, z, t, log, es[..last]);
      s2 := WriteOne(s1, x, y, z, t1, log + es[..last], es[last]);
      t2 := es[last].term;
      LeadsToJoin(s, s1, s2);
      LaterReachable(s, s2);
      assert log + es[..last] + [es[last]] == log + es;
    }
  }

  lemma WriteOne(s: State, x: Id, y: Id, z: Id, t: nat, log: seq<Entry>, e: Entry) returns (s2: State)
    requires Reachable(s) && Even(s, x, y, z, t, log) && t <= e.term
    requires e.term == t ==> Led(s, x, y, z, t, log)
    requires s.nodes[x].commit <= s.nodes[y].commit && s.nodes[x].disk <= s.nodes[y].commit
    ensures LeadsTo(s, s2) && Led(s2, x, y, z, e.term, log + [e])
    ensures Matched(s2.nodes[x], y) == |log| + 1 == Matched(s2.nodes[x], z)
    ensures Resumed(s.nodes[x], s2.nodes[x]) && Still(s.nodes[y], s2.nodes[y])
  {
    hide Leads, LeadsTo, Reachable, Led;
    LeadsSelf(s);
    var s1 := s;
    if t < e.term {
      s1 := Lead(s, x, y, z, t, log, e.term);
      LaterReachable(s, s1);
    }
    s2 := Grow(s1, x, y, z, e.term, log, e);
    LeadsToJoin(s, s1, s2);
  }

  // ---------------------------------------------------------------- committing

  /** The leader commits index `k`, which is of its term and stored by all. */
  lemma Commit(s: State, x: Id, y: Id, z: Id, t: nat, log: seq<Entry>, k: nat) returns (s2: State)
    requires Led(s, x, y, z, t, log) && s.nodes[x].commit < k <= |log| && TermAt(log, k) == t
    requires Matched(s.nodes[x], y) >= k && Matched(s.nodes[x], z) >= k
    ensures LeadsTo(s, s2) && s2.nodes == s.nodes[x := s.nodes[x].(commit := k)]
    ensures Led(s2, x, y, z, t, log)
  {
    hide Leads, LeadsTo, Quorum;
    LeadsSelf(s);
    TwoOfThree(s, x, y, z);
    LargerQuorum(s.Ids(), {x, y}, Replicas(s.Ids(), x, s.nodes[x], k));
    s2 := DoAdvanceCommit(s, x, k);
    Continue(s, s, AdvanceCommit(x, k));
    assert s2.Ids() == s.Ids();
  }

  /** The leader's commit index, covering the whole log, reaches `y`, which applies everything. */
  lemma Announce(s: State, x: Id, y: Id, z: Id, t: nat, log: seq<Entry>) returns (s2: State)
    requires Reachable(s) && Led(s, x, y, z, t, log) && s.nodes[x].commit == |log| && s.nodes[y].commit <= |log|
    ensures LeadsTo(s, s2) && Reachable(s2) && Led(s2, x, y, z, t, log)
    ensures Still(s.nodes[x], s2.nodes[x])
    ensures s2.nodes[y].commit == s2.nodes[y].applied == s2.nodes[y].disk == |log|
  {
    hide Leads, LeadsTo, Reachable, Inv, Drained;
    var s1 := Feed(s, x, y);
    LaterReachable(s, s1);
    assert s1.Ids() == s.Ids();
    ReachableOk(s1);
    s2 := DrainRuns(s1, y);
    LeadsToJoin(s, s1, s2);
    LaterReachable(s, s2);
    NodesInv(s2, y);
    DiskIsApplied(s2, y);
    assert s2.Ids() == s.Ids();
  }

  // ---------------------------------------------------------------- the run

  /** Phase one: `b` writes `log`, commits all of it and tells `l`. */
  lemma PhaseOne(s0: State, l: Id, b: Id, r: Id, log: seq<Entry>) returns (s: State, t: nat)
    requires Init(s0) && Members(s0, b, l, r) && Rising(log, 1)
    ensures Reachable(s) && Even(s, b, l, r, t, log) && t == LastTerm(log) && (log != [] ==> Led(s, b, l, r, t, log))
    ensures s.nodes[b].commit <= |log| && s.nodes[b].disk == 0
    ensures s.nodes[l].commit == s.nodes[l].applied == s.nodes[l].disk == |log|
  {
    hide Leads, LeadsTo, Reachable, Led;
    StartReachable(s0);
    s, t := WriteAll(s0, b, l, r, 0, [], log);
    assert [] + log == log;
    if log != [] {
      var s1 := s;
      s := Informed(s1, l, b, r, t, log);
      LaterReachable(s1, s);
      LedIsEven(s, b, l, r, t, log);
    }
  }

  /** Phase two: `b` writes more, all in one term, and commits the first of it. `l` holds everything
      and knows only that `log` is committed. */
  lemma PhaseTwo(s: State, l: Id, b: Id, r: Id, t: nat, log: seq<Entry>, es: seq<Entry>) returns (s2: State)
    requires Reachable(s) && Even(s, b, l, r, t, log) && (log != [] ==> Led(s, b, l, r, t, log)) && (log == [] ==> t == 0)
    requires es != [] && Rising(es, Max(t, 1)) && es[|es| - 1].term == es[0].term
    requires s.nodes[b].commit <= |log| && s.nodes[b].disk == 0
    requires s.nodes[l].commit == s.nodes[l].applied == s.nodes[l].disk == |log|
    ensures Reachable(s2) && Even(s2, b, l, r, es[0].term, log + es) && IsLeader(s2, b) && s2.nodes[b].commit == |log| + 1
    ensures s2.nodes[l].commit == s2.nodes[l].applied == s2.nodes[l].disk == |log|
  {
    hide Leads, LeadsTo, Reachable, Led;
    var s1, w := WriteAll(s, b, l, r, t, log, es);
    s2 := Commit(s1, b, l, r, w, log + es, |log| + 1);
    LaterReachable(s1, s2);
    LedIsEven(s2, b, l, r, w, log + es);
  }

  lemma StartReachable(s0: State)
    requires Init(s0)
    ensures Reachable(s0)
  {
    LeadsSelf(s0);
  }

  lemma LedIsEven(s: State, x: Id, y: Id, z: Id, t: nat, log: seq<Entry>)
    requires Led(s, x, y, z, t, log)
    ensures Even(s, x, y, z, t, log) && IsLeader(s, x) && s.nodes[x].term == t
  {}

  /** `b` commits the whole log and tells `l`. */
  lemma Informed(s: State, l: Id, b: Id, r: Id, t: nat, log: seq<Entry>) returns (s2: State)
    requires Reachable(s) && Led(s, b, l, r, t, log) && log != [] && LastTerm(log) == t
    requires s.nodes[b].commit == 0 && s.nodes[l].commit == 0
    requires Matched(s.nodes[b], l) == |log| == Matched(s.nodes[b], r)
    ensures LeadsTo(s, s2) && Led(s2, b, l, r, t, log)
    ensures s2.nodes[b].commit == |log| && s2.nodes[b].disk == s.nodes[b].disk
    ensures s2.nodes[l].commit == s2.nodes[l].applied == s2.nodes[l].disk == |log|
  {
    hide Leads, LeadsTo, Reachable, Led;
    var s1 := Commit(s, b, l, r, t, log, |log|);
    LaterReachable(s, s1);
    LedIsEven(s, b, l, r, t, log);
    LedIsEven(s1, b, l, r, t, log);
    s2 := Announce(s1, b, l, r, t, log);
    LeadsToJoin(s, s1, s2);
  }

  /** Where the entries of the term of index `c + 1` end. */
  function TermEnd(log: seq<Entry>, c: nat, e: nat): (r: nat)
    requires c < e <= |log| && (forall i :: c <= i < e ==> log[i].term == log[c].term)
    ensures e <= r <= |log| && (forall i :: c <= i < r ==> log[i].term == log[c].term)
    ensures r < |log| ==> log[r].term != log[c].term
    decreases |log| - e
  {
    if e < |log| && log[e].term == log[c].term then TermEnd(log, c, e + 1) else e
  }

  /** For every term, log and commit index for which `CoversElection` fails there is a run in which a
      leader with exactly these, confirmed by a majority and with everything it knows to be committed
      applied, misses an entry that another leader had committed before the read began. */
  lemma StaleWhenever(s0: State, l: Id, b: Id, r: Id, term: nat, log: seq<Entry>, c: nat) returns (s1: State, s: State, s2: State)
    requires Init(s0) && Members(s0, b, l, r) && Rising(log, 1) && c < |log|
    requires log[|log| - 1].term <= term && log[c].term < term
    ensures Reachable(s1) && IsLeader(s1, b) && s1.nodes[b].commit == c + 1
    ensures LeadsTo(s1, s) && LeadsTo(s, s2) && Confirmed(s, s2, l, {l, r})
    ensures s2.nodes[l].term == term && s2.nodes[l].log == log && s2.nodes[l].commit == s2.nodes[l].applied == c
    ensures !CoversElection(s2.nodes[l])
  {
    hide Leads, LeadsTo, Reachable, Led, Confirmed, Even, CoversElection, Rising;
    var low, mid, high := Parts(log, c);
    var s3, t := PhaseOne(s0, l, b, r, low);
    s1 := PhaseTwo(s3, l, b, r, t, low, mid);
    s, s2 := PhaseThree(s1, l, b, r, mid[0].term, low + mid, high, term);
    NotCovered(s2.nodes[l], c);
  }

  /** The log through `c`, the rest of the term of index `c + 1`, and the later terms. */
  lemma Parts(log: seq<Entry>, c: nat) returns (low: seq<Entry>, mid: seq<Entry>, high: seq<Entry>)
    requires Rising(log, 1) && c < |log|
    ensures |low| == c && low + mid + high == log && mid != [] && mid[0] == log[c] && mid[|mid| - 1].term == mid[0].term
    ensures Rising(low, 1) && Rising(mid, Max(LastTerm(low), 1)) && Rising(high, mid[0].term + 1)
    ensures high != [] ==> high[|high| - 1] == log[|log| - 1]
  {
    hide Rising, TermEnd;
    var e := TermEnd(log, c, c + 1);
    low, mid, high := log[..c], log[c..e], log[e..];
    SplitThree(log, c, e);
    PartsRise(log, c, e);
  }

  lemma SplitThree(log: seq<Entry>, c: nat, e: nat)
    requires c < e <= |log|
    ensures log[..c] + log[c..e] + log[e..] == log && log[c..e][0] == log[c] && log[c..e][e - c - 1] == log[e - 1]
    ensures e < |log| ==> log[e..][|log| - e - 1] == log[|log| - 1]
  {
    assert log[..c] + log[c..e] == log[..e];
    assert log[..e] + log[e..] == log;
  }

  lemma PartsRise(log: seq<Entry>, c: nat, e: nat)
    requires Rising(log, 1) && c < e <= |log| && log[e - 1].term == log[c].term && (e < |log| ==> log[e].term != log[c].term)
    ensures Rising(log[..c], 1) && Rising(log[c..e], Max(LastTerm(log[..c]), 1)) && Rising(log[e..], log[c].term + 1)
  {
    hide Rising;
    TermsRise(log, 0);
    TermsRise(log, c);
    RisingPart(log, 0, c, 1);
    RisingPart(log, c, e, Max(LastTerm(log[..c]), 1));
    if e < |log| {
      TermsRise(log, e);
    }
    RisingPart(log, e, |log|, log[c].term + 1);
    assert log[0..c] == log[..c] && log[e..|log|] == log[e..];
  }

  lemma RisingPart(log: seq<Entry>, i: nat, j: nat, t: nat)
    requires Rising(log, 1) && i <= j <= |log| && (i < j ==> t <= log[i].term)
    ensures Rising(log[i..j], t)
  {
    forall k | i <= k < j
      ensures t <= log[k].term
    {
      assert log[i].term <= log[k].term;
    }
  }

  lemma TermsRise(log: seq<Entry>, k: nat)
    requires Rising(log, 1) && k < |log|
    ensures 1 <= log[k].term && (0 < k ==> log[k - 1].term <= log[k].term)
  {}

  lemma NotCovered(n: Node, c: nat)
    requires c < |n.log| && n.commit == c && n.log[c].term < n.term
    ensures !CoversElection(n)
  {}

  /** Phase three: `l` leads every later term, writes the rest, and is confirmed in the last one. */
  lemma PhaseThree(s1: State, l: Id, b: Id, r: Id, w: nat, log: seq<Entry>, es: seq<Entry>, term: nat) returns (s: State, s2: State)
    requires Reachable(s1) && Even(s1, b, l, r, w, log) && Rising(es, w + 1) && w < term
    requires es != [] ==> es[|es| - 1].term <= term
    requires s1.nodes[l].commit == s1.nodes[l].applied == s1.nodes[l].disk <= s1.nodes[b].commit
    ensures LeadsTo(s1, s) && LeadsTo(s, s2) && Confirmed(s, s2, l, {l, r}) && l in s2.nodes
    ensures s2.nodes[l].term == term && s2.nodes[l].log == log + es
    ensures s2.nodes[l].commit == s2.nodes[l].applied == s1.nodes[l].disk
  {
    hide Leads, LeadsTo, Reachable, Led, Confirmed;
    assert Even(s1, l, b, r, w, log);
    var s3, t := WriteAll(s1, l, b, r, w, log, es);
    s := s3;
    if t < term {
      s := Lead(s3, l, b, r, t, log + es, term);
      LeadsToJoin(s1, s3, s);
    }
    LedIsEven(s, l, b, r, term, log + es);
    s2 := Beaten(s, l, b, r, term, log + es);
  }

  /** With `Clients.ReadFreshness` this makes the condition exact. Take any leader that can occur. If
      `CoversElection` holds of it, its confirmed reads are fresh in every run. If not, there is a run
      in which a leader with the same term, log and commit index serves a stale one. */
  lemma UncoveredIsStale(s: State, p: Id, s0: State, l: Id, b: Id, r: Id) returns (s1: State, s3: State, s2: State)
    requires Reachable(s) && IsLeader(s, p) && s.nodes[p].commit <= |s.nodes[p].log| && !CoversElection(s.nodes[p])
    requires Init(s0) && Members(s0, b, l, r)
    ensures Reachable(s1) && IsLeader(s1, b) && s1.nodes[b].commit == s.nodes[p].commit + 1
    ensures LeadsTo(s1, s3) && LeadsTo(s3, s2) && Confirmed(s3, s2, l, {l, r})
    ensures s2.nodes[l].term == s.nodes[p].term && s2.nodes[l].log == s.nodes[p].log
    ensures s2.nodes[l].commit == s2.nodes[l].applied == s.nodes[p].commit
  {
    hide Leads, LeadsTo, Reachable, Confirmed;
    LeaderLogRises(s, p);
    s1, s3, s2 := StaleWhenever(s0, l, b, r, s.nodes[p].term, s.nodes[p].log, s.nodes[p].commit);
  }

  /** The terms in a leader's log start at 1, never fall and never pass its own. */
  lemma LeaderLogRises(s: State, p: Id)
    requires Reachable(s) && IsLeader(s, p)
    ensures var log := s.nodes[p].log; Rising(log, 1) && forall i :: 0 <= i < |log| ==> log[i].term <= s.nodes[p].term
  {
    hide VotesOk, AcksOk, MessagesOk, PairsOk, Complete, Reachable, IsCommitted;
    ReachableOk(s);
    LeaderLog(s, p);
    var log, t := s.nodes[p].log, s.nodes[p].term;
    assert ReignOk(s, t);
    forall i | 0 <= i < |log|
      ensures 1 <= log[i].term <= t
    {
      assert EntryOk(s, t, i + 1);
    }
    forall i, j | 0 <= i <= j < |log|
      ensures log[i].term <= log[j].term
    {
      assert TermAt(log, i + 1) <= TermAt(log, j + 1);
    }
  }

  lemma Beaten(s: State, l: Id, b: Id, r: Id, t: nat, log: seq<Entry>) returns (s2: State)
    requires Led(s, l, b, r, t, log)
    ensures LeadsTo(s, s2) && Confirmed(s, s2, l, {l, r})
    ensures l in s2.nodes && s2.nodes[l] == s.nodes[l].(out := s2.nodes[l].out)
  {
    hide Leads, LeadsTo, Quorum, Batch, Merge;
    TwoOfThree(s, l, r, b);
    var q := AppendFor(s, l, r);
    s2 := Ship(s, l, r, q);
    assert AppendReply(q, true, q.End()) in s2.replies;
    assert AnsweredSince(s, s2, l, r);
  }
}
