module Compare {
  // The log comparison tool: fetch a report from every node, pick the window all of them can be
  // asked about, and look for a difference.

  import opened Logs
  import opened Cluster
  import opened Invariants
  import opened Consequences
  import opened Safety
  import opened Theorems

  /** Indices are 64 bit; this one stands for "no report seen yet". */
  const LAST_INDEX: nat := 0xFFFF_FFFF_FFFF_FFFF

  datatype Report = Report(snapshot: nat, commit: nat, lines: seq<Line>)

  datatype Verdict = AllAgree(count: nat, first: nat, last: nat) | Differ(left: Id, right: Id, index: nat)

  /** The lines inside a window of indices, in order. */
  function Window(lines: seq<Line>, first: nat, last: nat): (r: seq<Line>) {
    if lines == [] then []
    else
      var rest := Window(lines[..|lines| - 1], first, last);
      var line := lines[|lines| - 1];
      if first <= line.index <= last then rest + [line] else rest
  }

  /** `first..last` is above every snapshot and within every commit index, and cannot be widened. */
  predicate CommonRange(reports: map<Id, Report>, first: nat, last: nat) {
    && 1 <= first && last <= LAST_INDEX
    && (forall p :: p in reports ==> reports[p].snapshot < first && last <= reports[p].commit)
    && (first == 1 || exists p :: p in reports && reports[p].snapshot == first - 1)
    && (last == LAST_INDEX || exists p :: p in reports && reports[p].commit == last)
  }

  method ComparableRange(reports: map<Id, Report>) returns (first: nat, last: nat)
    ensures CommonRange(reports, first, last)
  {
    first, last := 0, LAST_INDEX;
    var todo := reports.Keys;
    while todo != {}
      invariant todo <= reports.Keys && last <= LAST_INDEX
      invariant forall p :: p in reports.Keys - todo ==> reports[p].snapshot <= first && last <= reports[p].commit
      invariant first == 0 || exists p :: p in reports && reports[p].snapshot == first
      invariant last == LAST_INDEX || exists p :: p in reports && reports[p].commit == last
      decreases |todo|
    {
      var p :| p in todo;
      first, last := Max(first, reports[p].snapshot), Min(last, reports[p].commit);
      todo := todo - {p};
    }
    first := first + 1;
  }

  method DescribeEntries(report: Report, first: nat, last: nat) returns (r: seq<Line>)
    ensures r == Window(report.lines, first, last)
  {
    r := [];
    for i := 0 to |report.lines|
      invariant r == Window(report.lines[..i], first, last)
    {
      assert report.lines[..i + 1][..i] == report.lines[..i];
      if first <= report.lines[i].index <= last {
        r := r + [report.lines[i]];
      }
    }
    assert report.lines[..|report.lines|] == report.lines;
  }

  /** `i` is where two lists stop being equal. */
  predicate FirstAt(left: seq<Line>, right: seq<Line>, i: nat) {
    && i <= |left| && i <= |right| && left[..i] == right[..i]
    && (i == |left| || i == |right| || left[i] != right[i])
  }

  method FirstDifference(left: seq<Line>, right: seq<Line>) returns (i: nat, found: bool)
    ensures found <==> left != right
    ensures found ==> FirstAt(left, right, i)
  {
    var shorter := Min(|left|, |right|);
    for j := 0 to shorter
      invariant left[..j] == right[..j]
    {
      if left[j] != right[j] {
        return j, true;
      }
    }
    if |left| != |right| {
      return shorter, true;
    }
    assert left == left[..shorter] && right == right[..shorter];
    return 0, false;
  }

  // ---------------------------------------------------------------- reports of a running cluster

  /** What a node reports of itself: everything above its snapshot. */
  function ReportOf(n: Node): Report
    requires n.snap <= |n.log|
  {
    Report(n.snap, n.commit, Numbered(n.log, n.snap, |n.log|))
  }

  /** The window of a stretch of a log is the part of the window that lies in it. */
  lemma {:induction false} WindowNumbered(log: seq<Entry>, lo: nat, hi: nat, first: nat, last: nat)
    requires lo < first && hi <= |log|
    ensures Window(Numbered(log, lo, hi), first, last) == Numbered(log, first - 1, Min(hi, last))
    decreases hi
  {
    if lo < hi {
      var all := Numbered(log, lo, hi);
      assert all[..|all| - 1] == Numbered(log, lo, hi - 1);
      WindowNumbered(log, lo, hi - 1, first, last);
    } else {
      assert Numbered(log, lo, hi) == [] == Numbered(log, first - 1, Min(hi, last));
    }
  }

  /** Reports taken from any two nodes, at any two times of a run, show the same window. */
  lemma ReportsAgree(s: State, p: Id, s2: State, q: Id, first: nat, last: nat)
    requires Reachable(s) && LeadsTo(s, s2) && p in s.nodes && q in s2.nodes
    requires s.nodes[p].snap < first && s2.nodes[q].snap < first
    requires last <= s.nodes[p].commit && last <= s2.nodes[q].commit
    ensures s.nodes[p].snap <= |s.nodes[p].log| && s2.nodes[q].snap <= |s2.nodes[q].log|
    ensures Window(ReportOf(s.nodes[p]).lines, first, last) == Window(ReportOf(s2.nodes[q]).lines, first, last)
  {
    hide Inv, Extends, Window;
    var n, m := s.nodes[p], s2.nodes[q];
    IndexOrder(s, p);
    LaterReachable(s, s2);
    IndexOrder(s2, q);
    ReachableOk(s);
    LaterKeeps(s, s2);
    CommittedAgree(s, s2, p, q, last);
    WindowNumbered(n.log, n.snap, |n.log|, first, last);
    WindowNumbered(m.log, m.snap, |m.log|, first, last);
    AgreeNumbered(n.log, m.log, first - 1, last);
  }

  /** `reports` were collected one by one while the cluster ran: each node reported its state at
      some moment, and of any two moments one came first. */
  ghost predicate Collected(reports: map<Id, Report>, at: map<Id, State>) {
    && reports.Keys == at.Keys
    && (forall p :: p in reports ==>
          && Reachable(at[p]) && p in at[p].nodes && at[p].nodes[p].snap <= |at[p].nodes[p].log|
          && reports[p] == ReportOf(at[p].nodes[p]))
    && (forall p, q :: p in at && q in at ==> LeadsTo(at[p], at[q]) || LeadsTo(at[q], at[p]))
  }

  /** The tool never accuses a cluster that follows the protocol. */
  lemma NeverAccused(reports: map<Id, Report>, at: map<Id, State>, first: nat, last: nat, p: Id, q: Id)
    requires Collected(reports, at) && CommonRange(reports, first, last) && p in reports && q in reports
    ensures Window(reports[p].lines, first, last) == Window(reports[q].lines, first, last)
  {
    hide Window, Reachable, LeadsTo, Numbered;
    if LeadsTo(at[p], at[q]) {
      ReportsAgree(at[p], p, at[q], q, first, last);
    } else {
      ReportsAgree(at[q], q, at[p], p, first, last);
    }
  }

  ghost predicate FromRun(reports: map<Id, Report>) {
    exists at :: Collected(reports, at)
  }

  predicate SameWindows(reports: map<Id, Report>, first: nat, last: nat) {
    forall p, q :: p in reports && q in reports ==>
      Window(reports[p].lines, first, last) == Window(reports[q].lines, first, last)
  }

  lemma AllShown(reports: map<Id, Report>, first: nat, last: nat, shown: seq<Line>)
    requires forall p :: p in reports ==> Window(reports[p].lines, first, last) == shown
    ensures SameWindows(reports, first, last)
  {
    hide Window;
  }

  lemma WindowsDiffer(reports: map<Id, Report>, first: nat, last: nat, p: Id, q: Id)
    requires CommonRange(reports, first, last) && p in reports && q in reports
    requires Window(reports[p].lines, first, last) != Window(reports[q].lines, first, last)
    ensures !SameWindows(reports, first, last) && !FromRun(reports)
  {
    hide Window, CommonRange, Collected;
    if at :| Collected(reports, at) {
      NeverAccused(reports, at, first, last, p, q);
    }
  }

  /** Success means that every two reports show the same window, in whatever order they are looked
      at; failure names two reports and the place where their windows stop being equal. Reports
      collected from a running cluster always succeed. */
  method CompareLogs(reports: map<Id, Report>) returns (verdict: Verdict, first: nat, last: nat)
    ensures CommonRange(reports, first, last)
    ensures verdict.AllAgree? <==> SameWindows(reports, first, last)
    ensures FromRun(reports) ==> verdict.AllAgree?
    ensures verdict.AllAgree? ==> verdict == AllAgree(|reports|, first, last)
    ensures verdict.Differ? ==>
              && verdict.left in reports && verdict.right in reports && first <= verdict.index
              && FirstAt(Window(reports[verdict.left].lines, first, last),
                         Window(reports[verdict.right].lines, first, last), verdict.index - first)
  {
    hide Window, CommonRange, FirstAt, FromRun, SameWindows;
    first, last := ComparableRange(reports);
    var reference: Option<Id> := None;
    var shown := [];
    var todo := reports.Keys;
    while todo != {}
      invariant todo <= reports.Keys
      invariant reference == None ==> todo == reports.Keys
      invariant reference.Some? ==>
                  reference.value in reports && shown == Window(reports[reference.value].lines, first, last)
      invariant reference.Some? ==>
                  forall p :: p in reports.Keys - todo ==> Window(reports[p].lines, first, last) == shown
      decreases |todo|
    {
      var p :| p in todo;
      var lines := DescribeEntries(reports[p], first, last);
      if reference == None {
        reference, shown := Some(p), lines;
      } else {
        var i, found := FirstDifference(shown, lines);
        if found {
          WindowsDiffer(reports, first, last, reference.value, p);
          return Differ(reference.value, p, first + i), first, last;
        }
      }
      todo := todo - {p};
    }
    AllShown(reports, first, last, shown);
    verdict := AllAgree(|reports|, first, last);
  }

  /** For reports of nodes the named index is the first one at which the logs differ. */
  lemma NamedIndex(n: Node, m: Node, first: nat, last: nat, i: nat)
    requires n.snap < first && m.snap < first && n.snap <= |n.log| && m.snap <= |m.log|
    requires last <= |n.log| && last <= |m.log|
    requires FirstAt(Window(ReportOf(n).lines, first, last), Window(ReportOf(m).lines, first, last), i)
    requires Window(ReportOf(n).lines, first, last) != Window(ReportOf(m).lines, first, last)
    ensures first + i <= last && n.log[first + i - 1] != m.log[first + i - 1]
    ensures n.log[first - 1..first + i - 1] == m.log[first - 1..first + i - 1]
  {
    hide Window;
    WindowNumbered(n.log, n.snap, |n.log|, first, last);
    WindowNumbered(m.log, m.snap, |m.log|, first, last);
    var left, right := Numbered(n.log, first - 1, last), Numbered(m.log, first - 1, last);
    assert left[..|left|] == left && right[..|right|] == right;
    forall k | first - 1 <= k < first - 1 + i
      ensures n.log[k] == m.log[k]
    {
      var j := k + 1 - first;
      assert left[j] == left[..i][j] == right[..i][j] == right[j];
    }
    assert left[i] == Line(first + i, n.log[first + i - 1]) && right[i] == Line(first + i, m.log[first + i - 1]);
  }
}
