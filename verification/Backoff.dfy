module Backoff {
  // How a leader looks for the position from which a follower's log continues its own. One
  // round is one pass of the retry loop: ship a snapshot, lower the index, or ask and read the
  // answer.

  import opened Logs
  import opened Cluster
  import opened Theorems
  import opened Scenario

  datatype Outcome = Accepted | NeedsSnapshot | Retry(next: nat)

  /** The question a leader with log `log` puts to a follower about position `prev`. */
  function Question(log: seq<Entry>, prev: nat): AppendRequest
    requires prev <= |log|
  {
    AppendRequest(0, 0, "", "", prev, TermAt(log, prev), [], 0)
  }

  function Probe(n: Node, m: Node, next: nat): Outcome
    requires 1 <= next
  {
    if next <= n.snap then NeedsSnapshot
    else if next - 1 > |n.log| then Retry(Max(next - 1, 1))
    else if Matches(m, Question(n.log, next - 1)) then Accepted
    else Retry(NextAfterRejection(next, Hint(m, Question(n.log, next - 1))))
  }

  /** The outcome after `k` rounds that start at `next`, nothing else changing meanwhile. */
  function After(n: Node, m: Node, next: nat, k: nat): (r: Outcome)
    requires 1 <= next
    ensures r.Retry? ==> 1 <= r.next
  {
    if k == 0 then Retry(next)
    else
      var r := After(n, m, next, k - 1);
      if r.Retry? then Probe(n, m, r.next) else r
  }

  predicate SameTerm(n: Node, m: Node, k: nat) {
    k <= |n.log| && k <= |m.log| && TermAt(n.log, k) == TermAt(m.log, k)
  }

  /** What the search that starts behind the leader's last entry can cope with: a follower that is
      longer must match at the leader's end; one that is not must match at its own end or one entry
      below it, unless the leader has compacted that end away. */
  predicate CanSettle(n: Node, m: Node) {
    if |m.log| > |n.log| then m.snap <= |n.log| && SameTerm(n, m, |n.log|)
    else
      || |m.log| <= n.snap
      || SameTerm(n, m, |m.log|)
      || (m.snap < |m.log| && SameTerm(n, m, |m.log| - 1))
  }

  /** The search that starts behind the leader's last entry is not over after `k` rounds. */
  predicate Searching(n: Node, m: Node, k: nat) {
    After(n, m, |n.log| + 1, k).Retry?
  }

  /** The search ends if and only if `CanSettle`, and then within three rounds; otherwise no number
      of rounds ends it. */
  lemma BackoffExact(n: Node, m: Node)
    requires n.snap <= |n.log| && m.snap <= |m.log|
    ensures CanSettle(n, m) ==> !Searching(n, m, 3)
    ensures !CanSettle(n, m) ==> forall k :: Searching(n, m, k)
  {
    if CanSettle(n, m) {
      SettlesInThree(n, m);
    } else {
      forall k
        ensures Searching(n, m, k)
      {
        NeverSettles(n, m, k);
      }
    }
  }

  /** Without compaction the search never asks for a snapshot: it is accepted exactly when the logs
      match at the leader's end, for a longer follower, or at the follower's end or one below it. */
  lemma BackoffUncompacted(n: Node, m: Node)
    requires n.snap == 0 && m.snap == 0
    ensures After(n, m, |n.log| + 1, 3) == Accepted <==>
              if |m.log| > |n.log| then SameTerm(n, m, |n.log|)
              else SameTerm(n, m, |m.log|) || (1 <= |m.log| && SameTerm(n, m, |m.log| - 1))
  {
    BackoffExact(n, m);
    NoSnapshotNeeded(n, m, |n.log| + 1, 3);
    assert Searching(n, m, 3) <==> After(n, m, |n.log| + 1, 3) != Accepted;
  }

  lemma {:induction false} NoSnapshotNeeded(n: Node, m: Node, next: nat, k: nat)
    requires n.snap == 0 && 1 <= next
    ensures After(n, m, next, k) != NeedsSnapshot
  {
    if k > 0 {
      NoSnapshotNeeded(n, m, next, k - 1);
    }
  }

  lemma SettlesInThree(n: Node, m: Node)
    requires n.snap <= |n.log| && m.snap <= |m.log| && CanSettle(n, m)
    ensures !Searching(n, m, 3)
  {
    hide Probe, CanSettle;
    var start := |n.log| + 1;
    AfterOneMore(n, m, start, 1);
    AfterOneMore(n, m, start, 2);
    AfterOneMore(n, m, start, 3);
    assert After(n, m, start, 0) == Retry(start);
    FirstRound(n, m);
    if |m.log| <= |n.log| {
      AtItsEnd(n, m);
      BelowItsEnd(n, m);
    }
  }

  /** The first question either settles the matter or leads to the end of a shorter follower. */
  lemma FirstRound(n: Node, m: Node)
    requires n.snap <= |n.log| && m.snap <= |m.log| && CanSettle(n, m)
    ensures var r := Probe(n, m, |n.log| + 1);
            r == Accepted || (r == Retry(|m.log| + 1) && |m.log| < |n.log|)
            || (r == Probe(n, m, |m.log| + 1) && |m.log| == |n.log|)
  {}

  lemma AtItsEnd(n: Node, m: Node)
    requires n.snap <= |n.log| && m.snap <= |m.log| && |m.log| <= |n.log|
    ensures var r := Probe(n, m, |m.log| + 1);
            if |m.log| < n.snap then r == NeedsSnapshot
            else if SameTerm(n, m, |m.log|) then r == Accepted
            else r == Retry(|m.log|) && 1 <= |m.log|
  {}

  lemma BelowItsEnd(n: Node, m: Node)
    requires n.snap <= |n.log| && m.snap <= |m.log| && |m.log| <= |n.log|
    requires CanSettle(n, m)
    ensures 1 <= |m.log| && n.snap <= |m.log| && !SameTerm(n, m, |m.log|) ==> !Probe(n, m, |m.log|).Retry?
  {}

  lemma AfterOneMore(n: Node, m: Node, next: nat, k: nat)
    requires 1 <= next && 1 <= k
    ensures var r := After(n, m, next, k - 1);
            After(n, m, next, k) == if r.Retry? then Probe(n, m, r.next) else r
  {}

  /** The positions a search that cannot settle keeps visiting. */
  predicate Visited(n: Node, m: Node, next: nat) {
    if |m.log| > |n.log| then next > |n.log|
    else next == |n.log| + 1 || next == |m.log| + 1 || (next == |m.log| && 1 <= next)
  }

  lemma VisitsOnly(n: Node, m: Node, next: nat)
    requires n.snap <= |n.log| && m.snap <= |m.log| && !CanSettle(n, m)
    requires 1 <= next && Visited(n, m, next)
    ensures Probe(n, m, next).Retry? && Visited(n, m, Probe(n, m, next).next)
  {}

  lemma {:induction false} NeverSettles(n: Node, m: Node, k: nat)
    requires n.snap <= |n.log| && m.snap <= |m.log| && !CanSettle(n, m)
    ensures var r := After(n, m, |n.log| + 1, k); r.Retry? && Visited(n, m, r.next)
  {
    if k > 0 {
      NeverSettles(n, m, k - 1);
      VisitsOnly(n, m, After(n, m, |n.log| + 1, k - 1).next);
    }
  }

  /** Rounds after which a search that does not end is where it was. */
  function Period(n: Node, m: Node): nat {
    if |m.log| > |n.log| then Hint(m, Question(n.log, |n.log|)) - |n.log| + 1 else 2
  }

  /** What such a search does from the first round on. Against a follower that is not longer it
      alternates between the follower's end and the position above it. Against a longer one it jumps
      above the follower's hint and walks down to the leader's end again. */
  lemma {:induction false} BackoffCycles(n: Node, m: Node, k: nat)
    requires n.snap <= |n.log| && m.snap <= |m.log| && !CanSettle(n, m) && 1 <= k
    ensures Period(n, m) >= 2
    ensures After(n, m, |n.log| + 1, k + Period(n, m)) == After(n, m, |n.log| + 1, k)
    ensures |m.log| <= |n.log| ==>
              var at := After(n, m, |n.log| + 1, k);
              && (at == Retry(|m.log|) || at == Retry(|m.log| + 1))
              && After(n, m, |n.log| + 1, k + 1) == Retry(if at == Retry(|m.log|) then |m.log| + 1 else |m.log|)
  {
    hide Probe, CanSettle;
    var start := |n.log| + 1;
    if |m.log| <= |n.log| {
      if k == 1 {
        FirstRefusal(n, m);
      } else {
        BackoffCycles(n, m, k - 1);
      }
      TwoPositions(n, m);
      AfterOneMore(n, m, start, k + 1);
      AfterOneMore(n, m, start, k + 2);
    } else {
      Descends(n, m, Period(n, m));
      LongerSearch(n, m, start);
      Repeats(n, m, start, Period(n, m), k);
    }
  }

  lemma FirstRefusal(n: Node, m: Node)
    requires n.snap <= |n.log| && m.snap <= |m.log| <= |n.log| && !CanSettle(n, m)
    ensures After(n, m, |n.log| + 1, 1) == Retry(if |m.log| < |n.log| then |m.log| + 1 else |m.log|)
  {
    AfterOneMore(n, m, |n.log| + 1, 1);
    assert After(n, m, |n.log| + 1, 0) == Retry(|n.log| + 1);
  }

  lemma TwoPositions(n: Node, m: Node)
    requires n.snap <= |n.log| && m.snap <= |m.log| <= |n.log| && !CanSettle(n, m)
    ensures 1 <= |m.log| && Probe(n, m, |m.log|) == Retry(|m.log| + 1) && Probe(n, m, |m.log| + 1) == Retry(|m.log|)
  {}

  /** Against a longer follower: up to the hint from the leader's end, one down from anywhere above. */
  lemma LongerSearch(n: Node, m: Node, next: nat)
    requires n.snap <= |n.log| && m.snap <= |m.log| && |m.log| > |n.log| && !CanSettle(n, m) && next > |n.log|
    ensures Hint(m, Question(n.log, |n.log|)) > |n.log|
    ensures Probe(n, m, next) ==
            Retry(if next == |n.log| + 1 then Hint(m, Question(n.log, |n.log|)) + 1 else next - 1)
  {}

  lemma {:induction false} Descends(n: Node, m: Node, k: nat)
    requires n.snap <= |n.log| && m.snap <= |m.log| && |m.log| > |n.log| && !CanSettle(n, m)
    requires 1 <= k <= Period(n, m)
    ensures Period(n, m) >= 2
    ensures After(n, m, |n.log| + 1, k) == Retry(Hint(m, Question(n.log, |n.log|)) + 2 - k)
  {
    hide Probe, CanSettle;
    var start := |n.log| + 1;
    LongerSearch(n, m, start);
    AfterOneMore(n, m, start, k);
    if k == 1 {
      assert After(n, m, start, 0) == Retry(start);
    } else {
      Descends(n, m, k - 1);
      LongerSearch(n, m, After(n, m, start, k - 1).next);
    }
  }

  lemma {:induction false} Repeats(n: Node, m: Node, next: nat, p: nat, k: nat)
    requires 1 <= next && After(n, m, next, p) == Retry(next)
    ensures After(n, m, next, k + p) == After(n, m, next, k)
  {
    if k > 0 {
      Repeats(n, m, next, p, k - 1);
      AfterOneMore(n, m, next, k + p);
    }
  }

  // ---------------------------------------------------------------- the same rounds in the cluster

  /** `p` follows `l` and no call to it is in flight. */
  predicate Idle(s: State, l: Id, p: Id) {
    && IsLeader(s, l) && IsPeer(s, l, p) && p !in s.nodes[l].out && s.nodes[l].snap <= |s.nodes[l].log|
    && s.nodes[p].role == Follower && s.nodes[p].term == s.nodes[l].term
  }

  /** `s2` is `s` after a round that only moved the next index. */
  predicate Moved(s: State, l: Id, p: Id, next: nat, s2: State)
    requires l in s.nodes
  {
    s2.nodes == s.nodes[l := s.nodes[l].(next := s.nodes[l].next[p := next])]
  }

  /** A round that ends in a retry is a sequence of cluster steps that changes the next index only. */
  lemma RetryIsRun(s: State, l: Id, p: Id) returns (s2: State)
    requires Idle(s, l, p) && Probe(s.nodes[l], s.nodes[p], NextIndex(s.nodes[l], p)).Retry?
    ensures LeadsTo(s, s2)
    ensures Moved(s, l, p, Probe(s.nodes[l], s.nodes[p], NextIndex(s.nodes[l], p)).next, s2)
  {
    hide Leads, LeadsTo;
    LeadsSelf(s);
    if NextIndex(s.nodes[l], p) > |s.nodes[l].log| + 1 {
      s2 := DoLowerNext(s, l, p);
      Continue(s, s, LowerNext(l, p));
    } else {
      s2 := RefusedRun(s, l, p);
    }
  }

  lemma RefusedRun(s: State, l: Id, p: Id) returns (s2: State)
    requires Idle(s, l, p) && s.nodes[l].snap < NextIndex(s.nodes[l], p) <= |s.nodes[l].log| + 1
    requires !Matches(s.nodes[p], Question(s.nodes[l].log, NextIndex(s.nodes[l], p) - 1))
    ensures LeadsTo(s, s2)
    ensures Moved(s, l, p, Probe(s.nodes[l], s.nodes[p], NextIndex(s.nodes[l], p)).next, s2)
  {
    hide Leads, LeadsTo, Batch;
    LeadsSelf(s);
    var n, r := s.nodes[l], AppendFor(s, l, p);
    var s1 := DoSendAppend(s, l, p);
    Continue(s, s, SendAppend(l, p));
    var s3 := DoReject(s1, p, r);
    Continue(s, s1, RejectAppend(p, r));
    var y := AppendReply(r, false, Hint(s.nodes[p], r));
    s2 := DoRecordReply(s3, l, p, y);
    Continue(s, s3, RecordReply(l, p, y));
    assert n.out[p := AppendRpc(r)] - {p} == n.out;
  }

  /** A round that ends in acceptance is the run that ships the entries, stores them and records it. */
  lemma AcceptedIsRun(s: State, l: Id, p: Id) returns (s2: State)
    requires Idle(s, l, p) && Probe(s.nodes[l], s.nodes[p], NextIndex(s.nodes[l], p)) == Accepted
    ensures NextIndex(s.nodes[l], p) <= |s.nodes[l].log| + 1
    ensures var r := AppendFor(s, l, p);
            && Matches(s.nodes[p], r) && LeadsTo(s, s2)
            && s2.nodes == s.nodes[p := Cluster.Accepted(s.nodes[p], r)][l := Recorded(s.nodes[l], p, r.End())]
  {
    hide Leads, LeadsTo, Batch, Merge;
    var n, m, r := s.nodes[l], s.nodes[p], AppendFor(s, l, p);
    assert Joined(m, r.term) == m;
    var s1 := Ship(s, l, p, r);
    var y := AppendReply(r, true, r.End());
    s2 := DoRecordReply(s1, l, p, y);
    Continue(s, s1, RecordReply(l, p, y));
    assert n.out[p := AppendRpc(r)] - {p} == n.out - {p};
  }

  /** A round that needs a snapshot is the run that ships it, installs it and records it. */
  lemma ShippedIsRun(s: State, l: Id, p: Id) returns (s2: State)
    requires Idle(s, l, p) && Probe(s.nodes[l], s.nodes[p], NextIndex(s.nodes[l], p)) == NeedsSnapshot
    ensures var r := SnapshotFor(s, l, p);
            LeadsTo(s, s2) && s2.nodes == s.nodes[p := Installed(s.nodes[p], r)][l := Recorded(s.nodes[l], p, s.nodes[l].snap)]
  {
    hide Leads, LeadsTo, Installed;
    LeadsSelf(s);
    var n, r := s.nodes[l], SnapshotFor(s, l, p);
    var s1 := DoSendSnapshot(s, l, p);
    Continue(s, s, SendSnapshot(l, p));
    var s3 := DoInstall(s1, p, r);
    Continue(s, s1, InstallSnapshot(p, r));
    s2 := DoRecordInstall(s3, l, p, r);
    Continue(s, s3, RecordInstall(l, p, r));
    assert n.out[p := SnapshotRpc(r)] - {p} == n.out - {p};
  }

  /** A follower the search cannot cope with stays as it is for any number of rounds. */
  lemma {:induction false} StuckForever(s: State, l: Id, p: Id, k: nat) returns (s2: State)
    requires Idle(s, l, p) && s.nodes[p].snap <= |s.nodes[p].log|
    requires NextIndex(s.nodes[l], p) == |s.nodes[l].log| + 1 && !CanSettle(s.nodes[l], s.nodes[p])
    ensures LeadsTo(s, s2) && Idle(s2, l, p) && s2.nodes[p] == s.nodes[p]
    ensures s2.nodes[l] == s.nodes[l].(next := s2.nodes[l].next)
    ensures Retry(NextIndex(s2.nodes[l], p)) == After(s.nodes[l], s.nodes[p], |s.nodes[l].log| + 1, k)
  {
    hide Leads, LeadsTo, CanSettle, NextAfterRejection;
    if k == 0 {
      LeadsSelf(s);
      s2 := s;
    } else {
      var s1 := StuckForever(s, l, p, k - 1);
      NeverSettles(s.nodes[l], s.nodes[p], k - 1);
      NeverSettles(s.nodes[l], s.nodes[p], k);
      SameProbe(s.nodes[l], s1.nodes[l], s.nodes[p], NextIndex(s1.nodes[l], p));
      s2 := RetryIsRun(s1, l, p);
      LeadsToJoin(s, s1, s2);
    }
  }

  lemma SameProbe(n: Node, n2: Node, m: Node, next: nat)
    requires 1 <= next && n2 == n.(next := n2.next)
    ensures Probe(n2, m, next) == Probe(n, m, next)
  {}

  /** Such a follower occurs: `a` and `b` each wrote two entries nobody else stored, in terms 1 and
      2, and `a` leads term 3. */
  lemma StuckFollower(s0: State, a: Id, b: Id, c: Id, x: Command) returns (s: State)
    requires Init(s0) && Members(s0, a, b, c)
    ensures Reachable(s) && Idle(s, a, b) && NextIndex(s.nodes[a], b) == |s.nodes[a].log| + 1
    ensures !CanSettle(s.nodes[a], s.nodes[b])
  {
    hide Leads, LeadsTo;
    var s1 := Elect(s0, a, b, c);
    assert s1.Ids() == s0.Ids();
    var s2 := TwoProposals(s1, a, x);
    LeadsToJoin(s0, s1, s2);
    var s3 := Elect(s2, b, c, a);
    LeadsToJoin(s0, s2, s3);
    assert s3.Ids() == s0.Ids();
    var s4 := TwoProposals(s3, b, x);
    LeadsToJoin(s0, s3, s4);
    s := Comeback(s4, a, b, c, x);
    LeadsToJoin(s0, s4, s);
  }

  lemma Comeback(s: State, a: Id, b: Id, c: Id, x: Command) returns (s2: State)
    requires Members(s, a, b, c) && Plain(s.nodes[a], Leader, 1, [Entry(1, x), Entry(1, x)], 0)
    requires Plain(s.nodes[b], Leader, 2, [Entry(2, x), Entry(2, x)], 0) && Plain(s.nodes[c], Follower, 2, [], 0)
    ensures LeadsTo(s, s2) && Idle(s2, a, b) && NextIndex(s2.nodes[a], b) == |s2.nodes[a].log| + 1
    ensures !CanSettle(s2.nodes[a], s2.nodes[b])
  {
    hide Leads, LeadsTo;
    LeadsSelf(s);
    var s1 := DoObserveTerm(s, a, 2);
    assert TermReached(s, 2) by { assert s.nodes[b].term >= 2; }
    Continue(s, s, ObserveTerm(a, 2));
    assert s1.Ids() == s.Ids();
    var s3 := Elect(s1, a, c, b);
    LeadsToJoin(s, s1, s3);
    s2 := DoObserveTerm(s3, b, 3);
    assert TermReached(s3, 3) by { assert s3.nodes[a].term >= 3; }
    Continue(s, s3, ObserveTerm(b, 3));
  }
}
