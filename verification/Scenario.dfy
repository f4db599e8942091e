module Scenario {
  // A run that every three node cluster has, and that shows why the client theorems need their
  // hypotheses: node `a` acknowledges a write that a later leader replaced, and node `c`,
  // freshly elected and confirmed by a majority, serves a read that misses a committed write.

  import opened Logs
  import opened Cluster
  import opened Consequences
  import opened Theorems
  import opened Clients
  import opened Handlers
  import opened Invariants
  import opened Safety
  import opened Storage

  predicate Members(s: State, a: Id, b: Id, c: Id) {
    a != b && a != c && b != c && s.Ids() == {a, b, c}
  }

  lemma TwoOfThree(s: State, a: Id, b: Id, c: Id)
    requires Members(s, a, b, c)
    ensures Quorum(s.Ids(), {a, b})
  {
    assert |{a, b}| == 2 && |{a, b, c}| == 3;
  }

  // ---------------------------------------------------------------- an election

  function Voted(n: Node, c: Id, t: nat): Node {
    n.(role := Follower, term := t, vote := Some(c))
  }

  /** What an election of `c` with the vote of `q` leaves behind. */
  predicate Won(s: State, c: Id, q: Id, s2: State)
    requires c in s.nodes && q in s.nodes
  {
    var n, t := s.nodes[c], s.nodes[c].term + 1;
    && s2.nodes == s.nodes[q := Voted(s.nodes[q], c, t)][c := Elected(s.Ids(), c, n.(term := t, vote := Some(c)))]
    && s2.reigns == s.reigns[t := Reign(c, |n.log|, n.log, {c, q})]
    && s2.appends == s.appends && s2.replies == s.replies && s2.calls == s.calls
  }

  lemma Elect(s: State, c: Id, q: Id, r: Id) returns (s2: State)
    requires Members(s, c, q, r) && s.nodes[c].role != Leader
    requires s.nodes[q].term <= s.nodes[c].term && UpToDate(Candidacy(s.nodes[c], c), s.nodes[q].log)
    ensures LeadsTo(s, s2) && Won(s, c, q, s2)
  {
    hide UpToDate, Quorum, VotedFor, Leads, LeadsTo, LastTerm;
    var v := Candidacy(s.nodes[c], c);
    var s1 := Stands(s, c, q, v);
    var s3 := DoGrantVote(s1, q, v);
    Continue(s, s1, GrantVote(q, v));
    s2 := DoBecomeLeader(s3, c, {c, q});
    assert s3.Ids() == s.Ids();
    TwoOfThree(s3, c, q, r);
    HasVote(s3, v, c);
    HasVote(s3, v, q);
    Continue(s, s3, BecomeLeader(c, {c, q}));
    assert s2.nodes == s.nodes[q := Voted(s.nodes[q], c, v.term)]
                              [c := Elected(s.Ids(), c, s.nodes[c].(term := v.term, vote := Some(c)))];
  }

  lemma HasVote(s: State, v: VoteRequest, q: Id)
    requires Vote(v, q) in s.votes
    ensures VotedFor(s, q, v.candidate, v.term)
  {}

  lemma Stands(s: State, c: Id, q: Id, v: VoteRequest) returns (s2: State)
    requires c in s.nodes && q in s.nodes && c != q && s.nodes[c].role != Leader
    requires s.nodes[q].term <= s.nodes[c].term && v == Candidacy(s.nodes[c], c)
    ensures LeadsTo(s, s2)
    ensures s2.nodes == s.nodes[c := s.nodes[c].(role := Candidate, term := v.term, vote := Some(c))]
                               [q := s.nodes[q].(role := Follower, term := v.term, vote := None)]
    ensures s2 == s.(nodes := s2.nodes, voteRequests := s.voteRequests + {v}, votes := s.votes + {Vote(v, c)})
  {
    LeadsSelf(s);
    var s1 := DoBecomeCandidate(s, c);
    Continue(s, s, BecomeCandidate(c));
    s2 := DoObserveTerm(s1, q, v.term);
    assert TermReached(s1, v.term) by { assert s1.nodes[c].term >= v.term; }
    Continue(s, s1, ObserveTerm(q, v.term));
  }

  // ---------------------------------------------------------------- a replication round

  /** The follower as it is once it has joined term `t`. */
  function Joined(n: Node, t: nat): Node {
    if n.term == t then n else n.(role := Follower, term := t, vote := None)
  }

  /** What it leaves behind that `l` ships its entries to `p` and `p` accepts them. */
  predicate Shipped(s: State, l: Id, p: Id, r: AppendRequest, s2: State)
    requires l in s.nodes && p in s.nodes && Matches(Joined(s.nodes[p], r.term), r)
  {
    && s2.nodes == s.nodes[l := s.nodes[l].(out := s.nodes[l].out[p := AppendRpc(r)])]
                          [p := Accepted(Joined(s.nodes[p], r.term), r)]
    && s2.reigns == s.reigns && s2.calls == s.calls + 1
    && s2.appends == s.appends + {r} && s2.replies == s.replies + {AppendReply(r, true, r.End())}
  }

  lemma Ship(s: State, l: Id, p: Id, r: AppendRequest) returns (s2: State)
    requires CanSendAppend(s, l, p) && r == AppendFor(s, l, p)
    requires s.nodes[p].term < r.term || (s.nodes[p].term == r.term && s.nodes[p].role == Follower)
    requires Matches(Joined(s.nodes[p], r.term), r)
    ensures LeadsTo(s, s2) && Shipped(s, l, p, r, s2)
  {
    hide Leads, LeadsTo, Batch, Merge;
    LeadsSelf(s);
    var s1 := DoSendAppend(s, l, p);
    Continue(s, s, SendAppend(l, p));
    var s3 := s1;
    if s.nodes[p].term < r.term {
      s3 := DoObserveTerm(s1, p, r.term);
      assert TermReached(s1, r.term) by { assert s1.nodes[l].term >= r.term; }
      Continue(s, s1, ObserveTerm(p, r.term));
    }
    assert s3.nodes[p] == Joined(s.nodes[p], r.term);
    s2 := DoAccept(s3, p, r);
    Continue(s, s3, AcceptAppend(p, r));
  }

  // ---------------------------------------------------------------- the run

  /** A node that has compacted and applied nothing. */
  predicate Plain(n: Node, role: Role, term: nat, log: seq<Entry>, commit: nat) {
    && n.role == role && n.term == term && n.log == log && n.commit == commit
    && n.snap == 0 && n.applied == 0 && n.kv == map[]
  }

  /** `a` leads term 1 with the vote of `b`. */
  predicate AtFirst(s: State, a: Id, b: Id, c: Id) {
    && Members(s, a, b, c) && 1 in s.reigns
    && Plain(s.nodes[a], Leader, 1, [], 0) && Plain(s.nodes[b], Follower, 1, [], 0)
    && Plain(s.nodes[c], Follower, 0, [], 0) && NextIndex(s.nodes[a], c) == 1
  }

  /** `a` has proposed `log`; `b` leads term 2 with the vote of `c` and has proposed `y`. */
  predicate Rivals(s: State, a: Id, b: Id, c: Id, log: seq<Entry>, y: Command) {
    && Members(s, a, b, c) && 2 in s.reigns
    && Plain(s.nodes[a], Leader, 1, log, 0) && Plain(s.nodes[b], Leader, 2, [Entry(2, y)], 0)
    && Plain(s.nodes[c], Follower, 2, [], 0)
    && NextIndex(s.nodes[b], a) == 1 && NextIndex(s.nodes[b], c) == 1 && NextIndex(s.nodes[a], c) == 1
  }

  /** `b` has committed `y` with the help of `c`. */
  predicate Settled(s: State, a: Id, b: Id, c: Id, log: seq<Entry>, y: Command) {
    && Members(s, a, b, c)
    && Plain(s.nodes[a], Leader, 1, log, 0) && Plain(s.nodes[b], Leader, 2, [Entry(2, y)], 1)
    && Plain(s.nodes[c], Follower, 2, [Entry(2, y)], 0) && NextIndex(s.nodes[b], a) == 1 && NextIndex(s.nodes[a], c) == 1
  }

  /** `a` has followed `b`: its `x` is gone and its commit index is 1. */
  predicate Replaced(s: State, a: Id, b: Id, c: Id, y: Command) {
    && Members(s, a, b, c)
    && Plain(s.nodes[a], Follower, 2, [Entry(2, y)], 1) && Plain(s.nodes[b], Leader, 2, [Entry(2, y)], 1)
    && Plain(s.nodes[c], Follower, 2, [Entry(2, y)], 0)
  }

  lemma First(s: State, a: Id, b: Id, c: Id) returns (s2: State)
    requires Init(s) && Members(s, a, b, c)
    ensures LeadsTo(s, s2) && AtFirst(s2, a, b, c)
  {
    hide Leads, LeadsTo;
    s2 := Elect(s, a, b, c);
  }

  lemma Second(s: State, a: Id, b: Id, c: Id, x: Command, y: Command) returns (s2: State)
    requires AtFirst(s, a, b, c)
    ensures LeadsTo(DoPropose(s, a, x), s2) && Rivals(s2, a, b, c, [Entry(1, x)], y)
  {
    hide Leads, LeadsTo;
    var s1 := DoPropose(s, a, x);
    assert s1.Ids() == s.Ids();
    s2 := Takeover(s1, a, b, c, [Entry(1, x)], y);
  }

  /** `c` elects `b`, which proposes `y`. */
  lemma Takeover(s: State, a: Id, b: Id, c: Id, log: seq<Entry>, y: Command) returns (s2: State)
    requires Members(s, a, b, c) && NextIndex(s.nodes[a], c) == 1
    requires Plain(s.nodes[a], Leader, 1, log, 0) && Plain(s.nodes[b], Follower, 1, [], 0) && Plain(s.nodes[c], Follower, 0, [], 0)
    ensures LeadsTo(s, s2) && Rivals(s2, a, b, c, log, y)
  {
    hide Leads, LeadsTo;
    var s3 := Elect(s, b, c, a);
    assert s3.Ids() == s.Ids();
    assert Plain(s3.nodes[a], Leader, 1, log, 0) && Plain(s3.nodes[c], Follower, 2, [], 0);
    s2 := SecondProposal(s3, a, b, c, log, y);
    LeadsToJoin(s, s3, s2);
  }

  lemma SecondProposal(s: State, a: Id, b: Id, c: Id, log: seq<Entry>, y: Command) returns (s2: State)
    requires Members(s, a, b, c) && 2 in s.reigns && NextIndex(s.nodes[b], a) == 1 && NextIndex(s.nodes[b], c) == 1
    requires NextIndex(s.nodes[a], c) == 1
    requires Plain(s.nodes[a], Leader, 1, log, 0) && Plain(s.nodes[b], Leader, 2, [], 0)
    requires Plain(s.nodes[c], Follower, 2, [], 0)
    ensures LeadsTo(s, s2) && Rivals(s2, a, b, c, log, y)
  {
    hide Leads, LeadsTo;
    LeadsSelf(s);
    s2 := DoPropose(s, b, y);
    assert s2.Ids() == s.Ids();
    Continue(s, s, Propose(b, y));
  }

  lemma Third(s: State, a: Id, b: Id, c: Id, log: seq<Entry>, y: Command) returns (s2: State)
    requires Rivals(s, a, b, c, log, y)
    ensures LeadsTo(s, s2) && Settled(s2, a, b, c, log, y)
  {
    hide Leads, LeadsTo;
    var r := AppendFor(s, b, c);
    assert r.entries == [Entry(2, y)];
    var s1 := Ship(s, b, c, r);
    s2 := Confirm(s1, a, b, c, r);
    LeadsToJoin(s, s1, s2);
  }

  /** `b` reads the answer of `c` and commits index 1. */
  lemma Confirm(s: State, a: Id, b: Id, c: Id, r: AppendRequest) returns (s2: State)
    requires Members(s, b, c, a) && CanRecordReply(s, b, c, AppendReply(r, true, 1)) && r.End() == 1
    requires s.nodes[b].commit == 0 && |s.nodes[b].log| == 1 && TermAt(s.nodes[b].log, 1) == s.nodes[b].term
    ensures LeadsTo(s, s2)
    ensures s2.nodes == s.nodes[b := Recorded(s.nodes[b], c, 1).(commit := 1)]
  {
    hide Leads, LeadsTo, Quorum;
    LeadsSelf(s);
    var y := AppendReply(r, true, 1);
    var s1 := DoRecordReply(s, b, c, y);
    Continue(s, s, RecordReply(b, c, y));
    s2 := DoAdvanceCommit(s1, b, 1);
    assert s1.Ids() == s.Ids();
    TwoOfThree(s1, b, c, a);
    LargerQuorum(s1.Ids(), {b, c}, Replicas(s1.Ids(), b, s1.nodes[b], 1));
    Continue(s, s1, AdvanceCommit(b, 1));
  }

  lemma LargerQuorum(ids: set<Id>, q: set<Id>, r: set<Id>)
    requires Quorum(ids, q) && q <= r <= ids
    ensures Quorum(ids, r)
  {
    SubsetSize(q, r);
  }

  lemma Fourth(s: State, a: Id, b: Id, c: Id, log: seq<Entry>, y: Command) returns (s2: State)
    requires Settled(s, a, b, c, log, y) && log != [] && log[0].term == 1
    ensures LeadsTo(s, s2) && Replaced(s2, a, b, c, y)
  {
    hide Leads, LeadsTo;
    var r := AppendFor(s, b, a);
    assert r.entries == [Entry(2, y)];
    s2 := Ship(s, b, a, r);
    assert s2.nodes[a].log == [Entry(2, y)];
  }

  /** A false acknowledgement: `a` proposes `x` at index 1, and once its commit index has reached 1
      the write path reports success, although index 1 holds `y`. */
  lemma FalseAcknowledgement(s0: State, a: Id, b: Id, c: Id, x: Command, y: Command) returns (s: State, s2: State)
    requires Init(s0) && Members(s0, a, b, c)
    ensures Reachable(s) && CanPropose(s, a) && s.nodes[a].term == 1 && s.nodes[a].log == []
    ensures LeadsTo(DoPropose(s, a, x), s2) && a in s2.nodes
    ensures WaitCheck(s2.nodes[a], 1, 1) == Acknowledged && s2.nodes[a].log == [Entry(2, y)]
  {
    hide Leads, LeadsTo;
    s := First(s0, a, b, c);
    var s1 := DoPropose(s, a, x);
    var s3 := Second(s, a, b, c, x, y);
    var s4 := Third(s3, a, b, c, [Entry(1, x)], y);
    s2 := Fourth(s4, a, b, c, [Entry(1, x)], y);
    LeadsToJoin(s1, s3, s4);
    LeadsToJoin(s1, s4, s2);
  }

  /** A stale read: `b` has committed a write of `value`; afterwards `c` is elected, confirmed by a
      majority, and still answers that the key does not exist. */
  lemma StaleRead(s0: State, a: Id, b: Id, c: Id, key: string, value: string)
    returns (s: State, s2: State, s3: State)
    requires Init(s0) && Members(s0, a, b, c)
    ensures Reachable(s) && IsLeader(s, b) && 1 <= s.nodes[b].commit <= |s.nodes[b].log|
    ensures key in Replay(s.nodes[b].log[..1])
    ensures LeadsTo(s, s2) && LeadsTo(s2, s3) && Confirmed(s2, s3, c, {a, c})
    ensures s3.nodes[c].applied == s3.nodes[c].commit && key !in s3.nodes[c].kv
  {
    hide Leads, LeadsTo;
    var y := Set(key, value);
    var s1 := First(s0, a, b, c);
    Continue(s0, s1, Propose(a, y));
    var s5 := Second(s1, a, b, c, y, y);
    s := Third(s5, a, b, c, [Entry(1, y)], y);
    LeadsToJoin(s0, DoPropose(s1, a, y), s5);
    LeadsToJoin(s0, s5, s);
    var s4 := Fourth(s, a, b, c, [Entry(1, y)], y);
    s2, s3 := FreshLeader(s4, a, b, c, y);
    LeadsToJoin(s, s4, s2);
  }

  /** `c` is elected with the vote of `a`, whose answer to a heartbeat then confirms it. */
  lemma FreshLeader(s: State, a: Id, b: Id, c: Id, y: Command) returns (s2: State, s3: State)
    requires Replaced(s, a, b, c, y)
    ensures LeadsTo(s, s2) && LeadsTo(s2, s3) && Confirmed(s2, s3, c, {a, c})
    ensures Plain(s3.nodes[c], Leader, 3, [Entry(2, y)], 0)
  {
    hide Leads, LeadsTo, Quorum;
    s2 := Elect(s, c, a, b);
    assert s2.Ids() == s.Ids();
    s3 := Beat(s2, a, b, c, y);
  }

  lemma Beat(s: State, a: Id, b: Id, c: Id, y: Command) returns (s2: State)
    requires Members(s, a, c, b) && NextIndex(s.nodes[c], a) == 2
    requires Plain(s.nodes[c], Leader, 3, [Entry(2, y)], 0) && Plain(s.nodes[a], Follower, 3, [Entry(2, y)], 1)
    ensures LeadsTo(s, s2) && Confirmed(s, s2, c, {a, c})
    ensures Plain(s2.nodes[c], Leader, 3, [Entry(2, y)], 0)
  {
    hide Leads, LeadsTo, Quorum, Batch, Merge;
    TwoOfThree(s, a, c, b);
    var r := AppendFor(s, c, a);
    s2 := Ship(s, c, a, r);
    assert AppendReply(r, true, r.End()) in s2.replies;
    assert AnsweredSince(s, s2, c, a);
  }

  // ---------------------------------------------------------------- why sending is one step

  /** Suppose a node could build its next call after it stopped leading. `b` leads term 2 and has
      committed `y`; `a`, deposed and already in term 2, would build a call that `c` accepts and
      that replaces the committed entry in the log of `c`. */
  lemma UnguardedSend(s0: State, a: Id, b: Id, c: Id, x: Command, y: Command) returns (s: State)
    requires Init(s0) && Members(s0, a, b, c)
    ensures Reachable(s) && IsLeader(s, b) && s.nodes[b].commit == 1 && s.nodes[b].log == [Entry(2, y)]
    ensures a in s.nodes && c in s.nodes && !IsLeader(s, a) && NextIndex(s.nodes[a], c) <= |s.nodes[a].log| + 1
    ensures var r := AppendFor(s, a, c);
            && Receives(s, c, r.to, r.term) && Matches(s.nodes[c], r)
            && s.nodes[c].log == [Entry(2, y)] && Accepted(s.nodes[c], r).log == [Entry(1, x)]
  {
    hide Leads, LeadsTo;
    var s1 := First(s0, a, b, c);
    Continue(s0, s1, Propose(a, x));
    var s2 := Second(s1, a, b, c, x, y);
    var s3 := Third(s2, a, b, c, [Entry(1, x)], y);
    LeadsToJoin(s0, DoPropose(s1, a, x), s2);
    LeadsToJoin(s0, s2, s3);
    s := Deposed(s3, a, b, c, [Entry(1, x)], y);
    LeadsToJoin(s0, s3, s);
  }

  lemma Deposed(s: State, a: Id, b: Id, c: Id, log: seq<Entry>, y: Command) returns (s2: State)
    requires Settled(s, a, b, c, log, y) && |log| == 1 && log[0].term == 1
    ensures LeadsTo(s, s2) && IsLeader(s2, b) && s2.nodes[b].commit == 1 && s2.nodes[b].log == [Entry(2, y)]
    ensures a in s2.nodes && c in s2.nodes && !IsLeader(s2, a) && NextIndex(s2.nodes[a], c) <= |s2.nodes[a].log| + 1
    ensures var r := AppendFor(s2, a, c);
            && Receives(s2, c, r.to, r.term) && Matches(s2.nodes[c], r)
            && s2.nodes[c].log == [Entry(2, y)] && Accepted(s2.nodes[c], r).log == log
  {
    hide Leads, LeadsTo;
    LeadsSelf(s);
    assert TermReached(s, 2) by { assert s.nodes[b].term >= 2; }
    s2 := DoObserveTerm(s, a, 2);
    Continue(s, s, ObserveTerm(a, 2));
    assert AppendFor(s2, a, c).entries == log;
  }

  // ---------------------------------------------------------------- why the snapshot check belongs to it

  /** Suppose a leader compacts between finding that a peer needs no snapshot, in `s`, and building
      the call, in `s2`. For a peer expected at index 1 the position it names is zero, which is
      always known, and the lines it carries start behind the snapshot. A peer without a log accepts
      that position, writes the lines where they say, and confirms an index below which it holds
      nothing. */
  lemma GapSend(s0: State, a: Id, b: Id, c: Id, x: Command, y: Command) returns (s: State, s2: State, lines: seq<Line>)
    requires Init(s0) && Members(s0, a, b, c)
    ensures Reachable(s) && LeadsTo(s, s2) && IsLeader(s, b) && IsLeader(s2, b)
    ensures s.nodes[b].snap < NextIndex(s.nodes[b], a) == NextIndex(s2.nodes[b], a) == 1
    ensures s2.nodes[b].snap == 1 && s2.nodes[b].log == [Entry(2, y), Entry(2, x)]
    ensures Built(s2.nodes[b], b, a, s2.calls).1 == Some(AppendRequest(s2.calls, 2, b, a, 0, 0, [Entry(2, x)], 1))
    ensures lines == Numbered(s2.nodes[b].log, 1, QueryEnd(2, 2, BATCH)) == [Line(2, Entry(2, x))]
    ensures StoredRows(map[], 0, lines) == map[2 := Entry(2, x)] && LinesConfirm(0, 0, lines) == 2
  {
    hide Leads, LeadsTo;
    var s1 := First(s0, a, b, c);
    Continue(s0, s1, Propose(a, x));
    var s3 := Second(s1, a, b, c, x, y);
    s := Third(s3, a, b, c, [Entry(1, x)], y);
    LeadsToJoin(s0, DoPropose(s1, a, x), s3);
    LeadsToJoin(s0, s3, s);
    s2 := ProposeAndCompact(s, s0, b, x);
    lines := [Line(2, Entry(2, x))];
    GapCall(s2.nodes[b], b, a, s2.calls, x, y);
  }

  lemma GapCall(n: Node, l: Id, p: Id, call: nat, x: Command, y: Command)
    requires n.term == 2 && n.commit == 1 && n.snap == 1 && n.log == [Entry(2, y), Entry(2, x)] && NextIndex(n, p) == 1
    ensures Built(n, l, p, call).1 == Some(AppendRequest(call, 2, l, p, 0, 0, [Entry(2, x)], 1))
    ensures Numbered(n.log, 1, QueryEnd(2, 2, BATCH)) == [Line(2, Entry(2, x))]
    ensures StoredRows(map[], 0, [Line(2, Entry(2, x))]) == map[2 := Entry(2, x)]
    ensures LinesConfirm(0, 0, [Line(2, Entry(2, x))]) == 2
  {
    var lines := [Line(2, Entry(2, x))];
    assert Batch(n.log, 1) == [Entry(2, x)];
    assert lines[1..] == [] && Above(lines, 0) == lines;
    assert StoredRows(map[], 0, lines) == Upserted(map[], lines) == map[2 := Entry(2, x)];
  }

  /** With nothing behind the snapshot the call is an empty one for position zero, which carries the
      leader's commit index: a peer with another first entry accepts it and commits that entry. */
  lemma EmptyGapSend(s0: State, a: Id, b: Id, c: Id, x: Command, y: Command) returns (s: State, s2: State)
    requires Init(s0) && Members(s0, a, b, c)
    ensures Reachable(s) && LeadsTo(s, s2) && IsLeader(s, b) && IsLeader(s2, b) && a in s2.nodes
    ensures s.nodes[b].snap < NextIndex(s.nodes[b], a) == NextIndex(s2.nodes[b], a) == 1
    ensures s2.nodes[b].commit == 1 && s2.nodes[b].log == [Entry(2, y)]
    ensures var r := Built(s2.nodes[b], b, a, s2.calls).1;
            && r.Some? && Receives(s2, a, r.value.to, r.value.term) && Matches(s2.nodes[a], r.value)
            && var n := Accepted(s2.nodes[a], r.value);
            n.log == [Entry(1, x)] && n.commit == 1
  {
    hide Leads, LeadsTo;
    var s1 := First(s0, a, b, c);
    Continue(s0, s1, Propose(a, x));
    var s3 := Second(s1, a, b, c, x, y);
    s := Third(s3, a, b, c, [Entry(1, x)], y);
    LeadsToJoin(s0, DoPropose(s1, a, x), s3);
    LeadsToJoin(s0, s3, s);
    var s4 := CompactFirst(s, b);
    assert TermReached(s4, 2) by { assert s4.nodes[b].term >= 2; }
    s2 := DoObserveTerm(s4, a, 2);
    Continue(s, s4, ObserveTerm(a, 2));
  }

  lemma ProposeAndCompact(s: State, s0: State, l: Id, x: Command) returns (s2: State)
    requires Init(s0) && LeadsTo(s0, s) && IsLeader(s, l)
    requires s.nodes[l].snap == s.nodes[l].applied == 0 && s.nodes[l].commit == 1 == |s.nodes[l].log|
    ensures LeadsTo(s, s2)
    ensures l in s2.nodes
    ensures var n, n2 := s.nodes[l], s2.nodes[l];
            && n2.role == n.role && n2.term == n.term && n2.next == n.next && n2.commit == 1
            && n2.snap == 1 && n2.log == n.log + [Entry(n.term, x)]
  {
    hide Leads, LeadsTo, Inv;
    assert Reachable(s);
    ReachableOk(s);
    LeaderLog(s, l);
    LeadsSelf(s);
    var s1 := DoPropose(s, l, x);
    Continue(s, s, Propose(l, x));
    s2 := CompactFirst(s1, l);
    LeadsToJoin(s, s1, s2);
  }

  /** A node with a committed entry applies it and takes a snapshot. */
  lemma CompactFirst(s: State, l: Id) returns (s2: State)
    requires l in s.nodes && s.nodes[l].snap == s.nodes[l].applied == 0 && s.nodes[l].commit == 1 <= |s.nodes[l].log|
    ensures LeadsTo(s, s2) && s2.nodes == s.nodes[l := Compacted(AppliedNext(s.nodes[l]))]
    ensures s2.reigns == s.reigns
  {
    hide Leads, LeadsTo;
    LeadsSelf(s);
    var s1 := DoApply(s, l);
    Continue(s, s, ApplyNext(l));
    s2 := DoCompact(s1, l);
    Continue(s, s1, Compact(l));
  }

  // ---------------------------------------------------------------- a left-over tail

  lemma TwoProposals(s: State, l: Id, x: Command) returns (s2: State)
    requires CanPropose(s, l)
    ensures LeadsTo(s, s2)
    ensures s2.nodes == s.nodes[l := s.nodes[l].(log := s.nodes[l].log + [Entry(s.nodes[l].term, x)] + [Entry(s.nodes[l].term, x)])]
  {
    hide Leads, LeadsTo;
    LeadsSelf(s);
    var s1 := DoPropose(s, l, x);
    Continue(s, s, Propose(l, x));
    s2 := DoPropose(s1, l, x);
    Continue(s, s1, Propose(l, x));
  }

  /** Left-over tails occur: `a` wrote two entries nobody else stored, `b` led the next term, committed
      and compacted, and `a` installs its snapshot. */
  lemma LeftOverOccurs(s0: State, a: Id, b: Id, c: Id, x: Command, y: Command) returns (s: State)
    requires Init(s0) && Members(s0, a, b, c)
    ensures Reachable(s) && a in s.nodes && LeftOverTail(s, a)
  {
    hide Leads, LeadsTo, LeftOverTail;
    var s1 := First(s0, a, b, c);
    var s2 := TwoProposals(s1, a, x);
    assert s2.Ids() == s1.Ids();
    var log := [Entry(1, x), Entry(1, x)];
    var s3 := Takeover(s2, a, b, c, log, y);
    var s4 := Third(s3, a, b, c, log, y);
    LeadsToJoin(s0, s1, s2);
    LeadsToJoin(s0, s2, s3);
    LeadsToJoin(s0, s3, s4);
    var s5 := CompactFirst(s4, b);
    LeadsToJoin(s0, s4, s5);
    s := InstallsOver(s0, s5, a, b, y);
  }

  lemma InstallsOver(s0: State, s: State, a: Id, b: Id, y: Command) returns (s2: State)
    requires Init(s0) && LeadsTo(s0, s) && a != b && a in s.nodes && IsLeader(s, b) && NextIndex(s.nodes[b], a) == 1
    requires s.nodes[b].term == 2 && s.nodes[b].log == [Entry(2, y)] && s.nodes[b].snap == 1
    requires s.nodes[a].term == 1 && |s.nodes[a].log| == 2 && s.nodes[a].log[0].term == 1 && s.nodes[a].snap == 0
    ensures Reachable(s2) && a in s2.nodes && LeftOverTail(s2, a)
  {
    hide Leads, LeadsTo, Inv, LeftOverTail;
    assert TermReached(s, 2) by { assert s.nodes[b].term >= 2; }
    var s1 := DoObserveTerm(s, a, 2);
    Continue(s0, s, ObserveTerm(a, 2));
    var s3, r := DoSendSnapshot(s1, b, a), SnapshotFor(s1, b, a);
    Continue(s0, s1, SendSnapshot(b, a));
    assert Reachable(s3);
    ReachableOk(s3);
    LeaderLog(s3, b);
    assert s3.nodes[a].log[..1][0] != s3.reigns[2].log[..1][0];
    TailIsLeftOver(s3, a, r);
    s2 := DoInstall(s3, a, r);
    Continue(s0, s3, InstallSnapshot(a, r));
  }
}
