module Storage {
  // The durable store: tables for the log, the state machine, the metadata and the latest
  // snapshot, changed in place one transaction at a time.

  import opened Logs
  import opened Cluster

  /** `rows` hold what is left of `log` once everything through `snap` is compacted away. */
  ghost predicate Holds(rows: map<nat, Entry>, log: seq<Entry>, snap: nat) {
    && (forall k :: k in rows <==> snap < k <= |log|)
    && (forall k :: k in rows ==> rows[k] == log[k - 1])
  }

  /** The last index a query from `start` with `limit` reaches; a limit of zero or less is none. */
  function QueryEnd(last: nat, start: nat, limit: int): nat
    requires 1 <= start
  {
    if limit <= 0 then last else Min(last, start - 1 + limit)
  }

  /** `log` after the entries from `first` on were written over it. */
  function Overwrite(log: seq<Entry>, first: nat, entries: seq<Entry>): seq<Entry>
    requires 1 <= first <= |log| + 1
  {
    log[..first - 1] + entries + (if first - 1 + |entries| < |log| then log[first - 1 + |entries|..] else [])
  }

  function Lines(first: nat, entries: seq<Entry>): (r: seq<Line>)
    ensures |r| == |entries|
    ensures forall i :: 0 <= i < |r| ==> r[i] == Line(first + i, entries[i])
  {
    seq(|entries|, i requires 0 <= i < |entries| => Line(first + i, entries[i]))
  }

  function Entries(lines: seq<Line>): (r: seq<Entry>)
    ensures |r| == |lines| && forall i :: 0 <= i < |r| ==> r[i] == lines[i].entry
  {
    seq(|lines|, i requires 0 <= i < |lines| => lines[i].entry)
  }

  /** The lines are consecutive and go on from `prev`. */
  predicate Continues(lines: seq<Line>, prev: nat) {
    forall i :: 0 <= i < |lines| ==> lines[i].index == prev + i + 1
  }

  // ---------------------------------------------------------------- writing rows

  /** Every line written in turn; an index that is taken is overwritten. */
  function Upserted(rows: map<nat, Entry>, lines: seq<Line>): map<nat, Entry>
    decreases |lines|
  {
    if lines == [] then rows else Upserted(rows[lines[0].index := lines[0].entry], lines[1..])
  }

  /** Line `i` is the last one for its index. */
  predicate LastFor(lines: seq<Line>, i: nat) {
    i < |lines| && forall j :: i < j < |lines| ==> lines[j].index != lines[i].index
  }

  /** The last line for an index is what is stored there, and indices without a line are untouched. */
  lemma {:induction false} UpsertedExact(rows: map<nat, Entry>, lines: seq<Line>)
    ensures forall i: nat :: LastFor(lines, i) ==> lines[i].index in Upserted(rows, lines) && Upserted(rows, lines)[lines[i].index] == lines[i].entry
    ensures forall k :: (forall i :: 0 <= i < |lines| ==> lines[i].index != k) ==>
              (k in Upserted(rows, lines) <==> k in rows) && (k in rows ==> Upserted(rows, lines)[k] == rows[k])
    decreases |lines|
  {
    if lines != [] {
      var first, rest := lines[0], lines[1..];
      var rows2 := rows[first.index := first.entry];
      UpsertedExact(rows2, rest);
      forall i: nat | LastFor(lines, i)
        ensures first.index in Upserted(rows2, rest) || i > 0
        ensures lines[i].index in Upserted(rows2, rest) && Upserted(rows2, rest)[lines[i].index] == lines[i].entry
      {
        if i > 0 {
          assert LastFor(rest, i - 1);
        } else {
          assert forall j :: 0 <= j < |rest| ==> rest[j].index != first.index;
        }
      }
      forall k | forall i :: 0 <= i < |lines| ==> lines[i].index != k
        ensures (k in Upserted(rows2, rest) <==> k in rows) && (k in rows ==> Upserted(rows2, rest)[k] == rows[k])
      {
        assert lines[0].index != k;
        assert forall j :: 0 <= j < |rest| ==> rest[j].index != k by {
          assert forall j :: 0 <= j < |rest| ==> rest[j] == lines[j + 1];
        }
      }
    }
  }

  /** Lines that go on from a stored index, or from the end, overwrite the log there. */
  lemma {:induction false} UpsertedHolds(rows: map<nat, Entry>, log: seq<Entry>, snap: nat, prev: nat, lines: seq<Line>)
    requires Holds(rows, log, snap) && snap <= prev <= |log| && Continues(lines, prev)
    ensures Holds(Upserted(rows, lines), Overwrite(log, prev + 1, Entries(lines)), snap)
    decreases |lines|
  {
    hide Holds, Overwrite;
    if lines == [] {
      OverwriteNothing(log, prev + 1, Entries(lines));
    } else {
      var e, rest := lines[0].entry, lines[1..];
      PutRow(rows, log, snap, prev + 1, e);
      UpsertedHolds(rows[prev + 1 := e], Put(log, prev + 1, e), snap, prev + 1, rest);
      assert Entries(lines) == [e] + Entries(rest);
      OverwriteFirst(log, prev + 1, e, Entries(rest));
    }
  }

  function Put(log: seq<Entry>, k: nat, e: Entry): seq<Entry>
    requires 1 <= k <= |log| + 1
  {
    if k <= |log| then log[k - 1 := e] else log + [e]
  }

  lemma PutRow(rows: map<nat, Entry>, log: seq<Entry>, snap: nat, k: nat, e: Entry)
    requires Holds(rows, log, snap) && snap < k <= |log| + 1
    ensures Holds(rows[k := e], Put(log, k, e), snap) && k <= |Put(log, k, e)|
  {}

  lemma OverwriteNothing(log: seq<Entry>, first: nat, entries: seq<Entry>)
    requires 1 <= first <= |log| + 1 && entries == []
    ensures Overwrite(log, first, entries) == log
  {}

  lemma OverwriteFirst(log: seq<Entry>, first: nat, e: Entry, rest: seq<Entry>)
    requires 1 <= first <= |log| + 1
    ensures first <= |Put(log, first, e)|
    ensures Overwrite(log, first, [e] + rest) == Overwrite(Put(log, first, e), first + 1, rest)
  {}

  /** Storing a leader's lines over any rows: lines the snapshot covers are ignored; from the first
      that is missing or has another term on, all are written, after dropping what it conflicts with. */
  function StoredRows(rows: map<nat, Entry>, snap: nat, lines: seq<Line>): map<nat, Entry> {
    if lines == [] then rows
    else if lines[0].index <= snap then StoredRows(rows, snap, lines[1..])
    else if lines[0].index in rows && rows[lines[0].index].term == lines[0].entry.term then StoredRows(rows, snap, lines[1..])
    else Upserted(if lines[0].index in rows then Below(rows, lines[0].index) else rows, Above(lines, snap))
  }

  function Below(rows: map<nat, Entry>, index: nat): map<nat, Entry> {
    map k | k in rows && k < index :: rows[k]
  }

  /** The lines the snapshot does not cover. */
  function Above(lines: seq<Line>, snap: nat): seq<Line> {
    if lines == [] then []
    else if lines[0].index <= snap then Above(lines[1..], snap)
    else [lines[0]] + Above(lines[1..], snap)
  }

  /** The highest index a leader's lines confirm. */
  function LinesConfirm(prev: nat, snap: nat, lines: seq<Line>): nat
    decreases |lines|
  {
    if lines == [] then prev
    else LinesConfirm(if lines[0].index <= snap then prev else Max(prev, lines[0].index), snap, lines[1..])
  }

  /** The highest of `prev` and the indices above the snapshot. */
  lemma {:induction false} LinesConfirmExact(prev: nat, snap: nat, lines: seq<Line>)
    ensures LinesConfirm(prev, snap, lines) >= prev
    ensures forall i :: 0 <= i < |lines| && lines[i].index > snap ==> LinesConfirm(prev, snap, lines) >= lines[i].index
    ensures LinesConfirm(prev, snap, lines) != prev ==>
              exists i :: 0 <= i < |lines| && lines[i].index > snap && lines[i].index == LinesConfirm(prev, snap, lines)
    decreases |lines|
  {
    if lines != [] {
      var rest := lines[1..];
      LinesConfirmExact(if lines[0].index <= snap then prev else Max(prev, lines[0].index), snap, rest);
      assert forall i :: 1 <= i < |lines| ==> lines[i] == rest[i - 1];
      assert forall i :: 0 <= i < |rest| ==> rest[i] == lines[i + 1];
    }
  }

  /** Nothing at or below the snapshot is ever written or dropped. */
  lemma {:induction false} StoredRowsAbove(rows: map<nat, Entry>, snap: nat, lines: seq<Line>, k: nat)
    requires k <= snap
    ensures SameAt(rows, StoredRows(rows, snap, lines), k)
    decreases |lines|
  {
    hide Upserted;
    if lines == [] {
    } else if lines[0].index <= snap || (lines[0].index in rows && rows[lines[0].index].term == lines[0].entry.term) {
      StoredRowsAbove(rows, snap, lines[1..], k);
    } else {
      var first := if lines[0].index in rows then Below(rows, lines[0].index) else rows;
      assert SameAt(rows, first, k);
      AboveOnly(lines, snap);
      UpsertedKeeps(first, Above(lines, snap), k);
    }
  }

  lemma UpsertedKeeps(rows: map<nat, Entry>, lines: seq<Line>, k: nat)
    requires forall i :: 0 <= i < |lines| ==> lines[i].index != k
    ensures SameAt(rows, Upserted(rows, lines), k)
  {
    UpsertedExact(rows, lines);
  }

  predicate SameAt(rows: map<nat, Entry>, rows2: map<nat, Entry>, k: nat) {
    (k in rows <==> k in rows2) && (k in rows ==> rows[k] == rows2[k])
  }

  lemma {:induction false} AboveOnly(lines: seq<Line>, snap: nat)
    ensures forall i :: 0 <= i < |Above(lines, snap)| ==> Above(lines, snap)[i].index > snap
    decreases |lines|
  {
    if lines != [] {
      AboveOnly(lines[1..], snap);
    }
  }

  lemma {:induction false} AllAbove(lines: seq<Line>, prev: nat, snap: nat)
    requires Continues(lines, prev) && snap <= prev
    ensures Above(lines, snap) == lines && LinesConfirm(prev, snap, lines) == prev + |lines|
    decreases |lines|
  {
    if lines != [] {
      AllAbove(lines[1..], prev + 1, snap);
    }
  }

  /** On consecutive lines after a stored position this is the merge of the log with their entries. */
  lemma {:induction false} StoredRowsMerge(rows: map<nat, Entry>, log: seq<Entry>, snap: nat, prev: nat, lines: seq<Line>)
    requires Holds(rows, log, snap) && snap <= prev <= |log| && Continues(lines, prev)
    ensures Holds(StoredRows(rows, snap, lines), Merge(log, prev, Entries(lines)), snap)
    ensures |Merge(log, prev, Entries(lines))| >= prev && Merge(log, prev, Entries(lines))[..prev] == log[..prev]
    decreases |lines|
  {
    if lines != [] {
      var entries := Entries(lines);
      assert entries[1..] == Entries(lines[1..]);
      if prev < |log| && log[prev].term == entries[0].term {
        StoredRowsMerge(rows, log, snap, prev + 1, lines[1..]);
        assert Merge(log, prev, entries)[..prev] == Merge(log, prev, entries)[..prev + 1][..prev];
      } else {
        hide Upserted, Above, StoredRows;
        StoredRowsCut(rows, log, snap, prev, lines);
      }
    }
  }

  lemma StoredRowsCut(rows: map<nat, Entry>, log: seq<Entry>, snap: nat, prev: nat, lines: seq<Line>)
    requires Holds(rows, log, snap) && snap <= prev <= |log| && lines != [] && Continues(lines, prev)
    requires prev == |log| || log[prev].term != lines[0].entry.term
    ensures Holds(StoredRows(rows, snap, lines), log[..prev] + Entries(lines), snap)
  {
    hide Upserted, Above, LinesConfirm;
    AllAbove(lines, prev, snap);
    var rows2 := if prev + 1 in rows then Below(rows, prev + 1) else rows;
    UpsertedHolds(rows2, log[..prev], snap, prev, lines);
    assert Overwrite(log[..prev], prev + 1, Entries(lines)) == log[..prev] + Entries(lines);
  }

  /** Dropping the rows a snapshot covers leaves the rows of the overlaid log, unless the snapshot is
      older than the one the rows were compacted to. */
  lemma OverlayRows(rows: map<nat, Entry>, rows2: map<nat, Entry>, log: seq<Entry>, history: seq<Entry>, snap: nat)
    requires Holds(rows, log, snap) && snap <= |log| && rows2 == map k | k in rows && |history| < k :: rows[k]
    ensures Holds(rows2, Overlay(log, history), |history|) <==> snap <= |history|
    ensures |history| <= |Overlay(log, history)| && TermAt(Overlay(log, history), |history|) == LastTerm(history)
  {
    if |history| < snap {
      assert |history| + 1 !in rows2;
    }
  }

  class Store {
    // Metadata.
    var term: nat
    var vote: Option<Id>
    var lastApplied: nat
    var snapshotIndex: nat
    var snapshotTerm: nat
    // Tables.
    var rows: map<nat, Entry>
    var kv: KV
    var image: KV

    /** The log as if nothing had ever been compacted. */
    ghost var log: seq<Entry>

    ghost predicate Valid()
      reads this
    {
      && snapshotIndex <= |log| && snapshotTerm == TermAt(log, snapshotIndex)
      && Holds(rows, log, snapshotIndex)
    }

    constructor ()
      ensures Valid() && log == [] && snapshotIndex == 0 && kv == map[] && image == map[]
      ensures term == 0 && vote == None && lastApplied == 0
    {
      term, vote, lastApplied, snapshotIndex, snapshotTerm := 0, None, 0, 0, 0;
      rows, kv, image, log := map[], map[], map[], [];
    }

    // ---------------------------------------------------------------- queries

    method LastIndexAndTerm() returns (index: nat, last: nat)
      requires Valid()
      ensures index == |log| && last == LastTerm(log)
    {
      if rows == map[] {
        assert |log| !in rows;
        return snapshotIndex, snapshotTerm;
      }
      var k :| k in rows;
      assert |log| in rows;
      index :| index in rows && forall j :: j in rows ==> j <= index;
      last := rows[index].term;
    }

    /** Known are zero, the snapshot's index and the rows above it: on a log without gaps, exactly the
        indices that are not compacted. */
    method TermOf(index: nat) returns (t: nat, known: bool)
      ensures known <==> index == 0 || index == snapshotIndex || (snapshotIndex < index && index in rows)
      ensures known ==> t == if index == 0 then 0 else if index == snapshotIndex then snapshotTerm else rows[index].term
      ensures Valid() ==> (known <==> index == 0 || snapshotIndex <= index <= |log|)
      ensures Valid() && known ==> t == if index == 0 then 0 else TermAt(log, index)
    {
      if index == 0 {
        return 0, true;
      }
      if index == snapshotIndex {
        return snapshotTerm, true;
      } else if index < snapshotIndex {
        return 0, false;
      }
      if index !in rows {
        return 0, false;
      }
      return rows[index].term, true;
    }

    method EntryAt(index: nat) returns (entry: Option<Entry>)
      requires Valid()
      ensures entry == if snapshotIndex < index <= |log| then Some(log[index - 1]) else None
    {
      entry := if index in rows then Some(rows[index]) else None;
    }

    /** A start inside the snapshot is moved to the first stored index. */
    method EntriesFrom(start: nat, limit: int) returns (lines: seq<Line>)
      requires Valid()
      ensures var first := Max(start, snapshotIndex + 1);
              lines == Numbered(log, first - 1, QueryEnd(|log|, first, limit))
      ensures var first := Max(start, snapshotIndex + 1);
              var left := if first <= |log| then |log| + 1 - first else 0;
              && |lines| == (if limit <= 0 || left <= limit then left else limit)
              && forall i :: 0 <= i < |lines| ==> lines[i] == Line(first + i, log[first + i - 1])
    {
      var first := Max(start, snapshotIndex + 1);
      lines := [];
      var k := first;
      while k in rows && (limit <= 0 || |lines| < limit)
        invariant first <= k && (first <= |log| + 1 ==> k <= |log| + 1)
        invariant |lines| == k - first && (limit > 0 ==> |lines| <= limit)
        invariant first > |log| + 1 ==> k == first
        invariant k - 1 <= |log| ==> lines == Numbered(log, first - 1, k - 1)
        decreases |log| + 1 - k
      {
        lines := lines + [Line(k, rows[k])];
        k := k + 1;
      }
    }

    method Get(key: string) returns (value: Option<string>)
      ensures value == if key in kv then Some(kv[key]) else None
    {
      value := if key in kv then Some(kv[key]) else None;
    }

    method LoadSnapshot() returns (index: nat, t: nat, data: KV)
      requires Valid()
      ensures index == snapshotIndex && t == TermAt(log, snapshotIndex) && data == image
    {
      return snapshotIndex, snapshotTerm, image;
    }

    // ---------------------------------------------------------------- transactions

    method SaveTermVote(t: nat, v: Option<Id>)
      requires Valid()
      modifies this`term, this`vote
      ensures Valid() && term == t && vote == v
    {
      term, vote := t, v;
    }

    /** Writes any lines; lines that go on from a stored index or from the end overwrite the log. */
    method AppendEntries(lines: seq<Line>)
      modifies this`rows, this`log
      ensures rows == Upserted(old(rows), lines)
      ensures old(Valid()) && lines != [] && snapshotIndex < lines[0].index <= |old(log)| + 1 && Continues(lines, lines[0].index - 1) ==>
                Valid() && log == Overwrite(old(log), lines[0].index, Entries(lines))
      ensures lines == [] ==> log == old(log)
    {
      for i := 0 to |lines|
        invariant Upserted(rows, lines[i..]) == Upserted(old(rows), lines) && log == old(log)
      {
        assert lines[i..][1..] == lines[i + 1..];
        rows := rows[lines[i].index := lines[i].entry];
      }
      assert lines[|lines|..] == [];
      if lines != [] && old(Valid()) && snapshotIndex < lines[0].index <= |log| + 1 && Continues(lines, lines[0].index - 1) {
        UpsertedHolds(old(rows), log, snapshotIndex, lines[0].index - 1, lines);
        log := Overwrite(log, lines[0].index, Entries(lines));
      }
    }

    /** Drops an index and everything above it that is stored. */
    method DeleteFrom(index: nat)
      modifies this`rows, this`log
      ensures rows == Below(old(rows), index)
      ensures forall k :: k in rows <==> k in old(rows) && k < index
      ensures forall k :: k in rows ==> rows[k] == old(rows)[k]
      ensures old(Valid()) ==> Valid() && log == old(log)[..Max(snapshotIndex, Min(|old(log)|, Max(index, 1) - 1))]
    {
      rows := Below(rows, index);
      if old(Valid()) {
        log := log[..Max(snapshotIndex, Min(|log|, Max(index, 1) - 1))];
      }
    }

    /** Runs a command and moves the applied position, in one transaction. */
    method ApplyCommand(index: nat, command: Command)
      requires Valid()
      modifies this`kv, this`lastApplied
      ensures Valid() && kv == Execute(old(kv), command) && lastApplied == index
      ensures command.Set? ==> command.key in kv && kv[command.key] == command.value
      ensures command.Delete? ==> command.key !in kv
      ensures forall k :: k != command.key ==> (k in kv <==> k in old(kv)) && (k in kv ==> kv[k] == old(kv)[k])
    {
      match command
      case Set(key, value) =>
        kv := kv[key := value];
        lastApplied := index;
      case Delete(key) =>
        kv := kv - {key};
        lastApplied := index;
    }

    method SkipTo(index: nat)
      requires Valid()
      modifies this`lastApplied
      ensures Valid() && lastApplied == index
    {
      lastApplied := index;
    }

    /** Records the state machine as the snapshot through `index` and drops what it covers. The log
        is the same if `index` is an index of it that is not compacted and `t` its term. */
    method CreateSnapshot(index: nat, t: nat)
      modifies this`image, this`snapshotIndex, this`snapshotTerm, this`lastApplied, this`rows
      ensures snapshotIndex == index && snapshotTerm == t && lastApplied == index && image == kv
      ensures rows == map k | k in old(rows) && index < k :: old(rows)[k]
      ensures old(Valid() && snapshotIndex <= index <= |log| && t == TermAt(log, index)) ==> Valid()
    {
      image, snapshotIndex, snapshotTerm, lastApplied := kv, index, t, index;
      rows := map k | k in rows && index < k :: rows[k];
    }

    /** Replaces the state machine by the leader's snapshot; rows above it stay. With the history it
        stands for that is the overlaid log, exactly unless the snapshot is older than the stored one. */
    method InstallSnapshot(index: nat, t: nat, data: KV, ghost history: seq<Entry>)
      modifies this`kv, this`image, this`snapshotIndex, this`snapshotTerm, this`lastApplied, this`rows, this`log
      ensures snapshotIndex == index && snapshotTerm == t && lastApplied == index && kv == data && image == data
      ensures rows == map k | k in old(rows) && index < k :: old(rows)[k]
      ensures log == Overlay(old(log), history)
      ensures old(Valid()) && index == |history| && t == LastTerm(history) ==> (Valid() <==> old(snapshotIndex) <= index)
    {
      hide Holds;
      ghost var first, before := snapshotIndex, rows;
      kv, image, snapshotIndex, snapshotTerm, lastApplied := data, data, index, t, index;
      rows := map k | k in rows && index < k :: rows[k];
      log := Overlay(log, history);
      if old(Valid()) && index == |history| {
        OverlayRows(before, rows, old(log), history, first);
      }
    }
  }

  // ---------------------------------------------------------------- compaction is invisible

  datatype Op = Write(first: nat, entries: seq<Entry>) | DropFrom(index: nat) | Run(command: Command) | TakeSnapshot

  /** The same answers at every index that is not compacted. */
  ghost predicate SameAbove(plain: Store, compacting: Store)
    reads plain, compacting
  {
    forall k :: k > compacting.snapshotIndex ==>
      (k in plain.rows <==> k in compacting.rows) && (k in compacting.rows ==> compacting.rows[k] == plain.rows[k])
  }

  /** Whether the compacting store accepts `op`: nothing it has compacted is written or dropped. */
  predicate Accepts(s: Store, op: Op, last: nat)
    reads s
  {
    match op
    case Write(first, _) => s.snapshotIndex < first <= last + 1
    case DropFrom(index) => s.snapshotIndex < index
    case Run(_) => s.lastApplied < last
    case TakeSnapshot => s.snapshotIndex <= s.lastApplied <= last
  }

  /** Compaction transparency: run any operations on a store that takes snapshots and on one that
      never does. They stand for the same log and state machine throughout, and hold the same row
      at every index above the snapshot. */
  method Mirror(plain: Store, compacting: Store, ops: seq<Op>)
    requires plain != compacting && plain.Valid() && compacting.Valid()
    requires plain.snapshotIndex == 0 && plain.log == compacting.log
    requires plain.kv == compacting.kv && plain.lastApplied == compacting.lastApplied
    modifies plain, compacting
    ensures plain.Valid() && compacting.Valid() && plain.snapshotIndex == 0
    ensures plain.log == compacting.log && plain.kv == compacting.kv && plain.lastApplied == compacting.lastApplied
    ensures SameAbove(plain, compacting)
  {
    for i := 0 to |ops|
      invariant plain.Valid() && compacting.Valid() && plain.snapshotIndex == 0
      invariant plain.log == compacting.log && plain.kv == compacting.kv && plain.lastApplied == compacting.lastApplied
    {
      var last, _ := compacting.LastIndexAndTerm();
      if Accepts(compacting, ops[i], last) {
        match ops[i]
        case Write(first, entries) =>
          plain.AppendEntries(Lines(first, entries));
          compacting.AppendEntries(Lines(first, entries));
        case DropFrom(index) =>
          plain.DeleteFrom(index);
          compacting.DeleteFrom(index);
        case Run(command) =>
          plain.ApplyCommand(plain.lastApplied + 1, command);
          compacting.ApplyCommand(compacting.lastApplied + 1, command);
        case TakeSnapshot =>
          var t, known := compacting.TermOf(compacting.lastApplied);
          compacting.CreateSnapshot(compacting.lastApplied, t);
      }
    }
  }
}
