module Logs {
  // Log entries, the key/value state machine and the vocabulary used to compare logs.
  //
  // A log is a sequence of entries; the entry with index `k` (counting from one, as the source
  // does) sits at position `k - 1`, so `log[..k]` is the log through index `k`.

  datatype Option<+T> = None | Some(value: T)

  /** The two state machine commands. */
  datatype Command = Set(key: string, value: string) | Delete(key: string)

  datatype Entry = Entry(term: nat, command: Command)

  type KV = map<string, string>

  function Max(a: nat, b: nat): nat { if a >= b then a else b }

  function Min(a: nat, b: nat): nat { if a <= b then a else b }

  function Execute(kv: KV, c: Command): KV {
    match c
    case Set(key, value) => kv[key := value]
    case Delete(key) => kv - {key}
  }

  /** What a command does to the map: a set puts the value at the key, a delete removes the key, and
      no other key is touched. */
  lemma ExecuteExact(kv: KV, c: Command)
    ensures c.Set? ==> c.key in Execute(kv, c) && Execute(kv, c)[c.key] == c.value
    ensures c.Delete? ==> c.key !in Execute(kv, c)
    ensures forall k :: k != c.key ==> (k in Execute(kv, c) <==> k in kv) && (k in kv ==> Execute(kv, c)[k] == kv[k])
  {}

  /** The state machine after running every command of `log` once, in order. */
  function Replay(log: seq<Entry>): KV {
    if log == [] then map[]
    else Execute(Replay(log[..|log| - 1]), log[|log| - 1].command)
  }

  /** Position `i` holds the last command on `key`. */
  predicate LastOn(log: seq<Entry>, key: string, i: nat) {
    i < |log| && log[i].command.key == key && forall j :: i < j < |log| ==> log[j].command.key != key
  }

  /** A key is in the replayed map exactly if the last command on it is a set, and then with its value. */
  lemma {:induction false} ReplayExact(log: seq<Entry>, key: string)
    ensures key in Replay(log) <==> exists i: nat :: LastOn(log, key, i) && log[i].command.Set?
    ensures forall i: nat :: LastOn(log, key, i) && log[i].command.Set? ==> key in Replay(log) && Replay(log)[key] == log[i].command.value
    decreases |log|
  {
    if log != [] {
      var last := |log| - 1;
      var front := log[..last];
      ReplayExact(front, key);
      ExecuteExact(Replay(front), log[last].command);
      if log[last].command.key == key {
        assert LastOn(log, key, last);
        assert forall i: nat :: LastOn(log, key, i) ==> i == last;
      } else {
        assert forall i: nat :: LastOn(log, key, i) <==> LastOn(front, key, i) by {
          assert forall i :: 0 <= i < last ==> front[i] == log[i];
        }
      }
    }
  }

  lemma ReplayNext(log: seq<Entry>, k: nat)
    requires k < |log|
    ensures Replay(log[..k + 1]) == Execute(Replay(log[..k]), log[k].command)
  {
    assert log[..k + 1][..k] == log[..k];
  }

  /** The term at index `k`; index zero always has term zero. */
  function TermAt(log: seq<Entry>, k: nat): nat
    requires k <= |log|
  {
    if k == 0 then 0 else log[k - 1].term
  }

  function LastTerm(log: seq<Entry>): nat { TermAt(log, |log|) }

  /** Both logs reach index `k` and are equal through it. */
  predicate Agree(a: seq<Entry>, b: seq<Entry>, k: nat) {
    k <= |a| && k <= |b| && a[..k] == b[..k]
  }

  lemma AgreeLower(a: seq<Entry>, b: seq<Entry>, k: nat, j: nat)
    requires Agree(a, b, k) && j <= k
    ensures Agree(a, b, j)
  {
    assert a[..j] == a[..k][..j];
    assert b[..j] == b[..k][..j];
  }

  lemma DisagreeAbove(a: seq<Entry>, b: seq<Entry>, k: nat, j: nat)
    requires k <= j && !Agree(a, b, k)
    ensures !Agree(a, b, j)
  {
    assert j <= |a| && j <= |b| ==> a[..k] == a[..j][..k] && b[..k] == b[..j][..k];
  }

  lemma AgreeTrans(a: seq<Entry>, b: seq<Entry>, c: seq<Entry>, k: nat)
    requires Agree(a, b, k) && Agree(b, c, k)
    ensures Agree(a, c, k)
  {}

  /** A log that agrees with `b` through `k` still does after `b` grew. */
  lemma AgreeGrow(a: seq<Entry>, b: seq<Entry>, c: seq<Entry>, k: nat)
    requires Agree(a, b, k) && b <= c
    ensures Agree(a, c, k)
  {
    assert c[..k] == b[..k];
  }

  lemma AgreeTerm(a: seq<Entry>, b: seq<Entry>, k: nat, j: nat)
    requires Agree(a, b, k) && j <= k
    ensures TermAt(a, j) == TermAt(b, j)
    ensures 0 < j ==> a[j - 1] == b[j - 1]
  {
    if 0 < j {
      assert a[..k][j - 1] == a[j - 1];
      assert b[..k][j - 1] == b[j - 1];
    }
  }

  /** Agreement through `i` plus equality of the stretch from `i` to `k` is agreement through `k`. */
  lemma AgreeJoin(a: seq<Entry>, b: seq<Entry>, i: nat, k: nat)
    requires i <= k <= |a| && k <= |b|
    requires Agree(a, b, i) && a[i..k] == b[i..k]
    ensures Agree(a, b, k)
  {
    assert a[..k] == a[..i] + a[i..k];
    assert b[..k] == b[..i] + b[i..k];
  }

  lemma AgreeStretch(a: seq<Entry>, b: seq<Entry>, i: nat, k: nat)
    requires Agree(a, b, k) && i <= k
    ensures a[i..k] == b[i..k]
  {
    assert a[i..k] == a[..k][i..];
    assert b[i..k] == b[..k][i..];
  }

  lemma PrefixAgree(a: seq<Entry>, b: seq<Entry>, k: nat)
    requires a <= b && k <= |a|
    ensures Agree(a, b, k)
  {}

  /** Storing a batch after `prev`: keep the log while terms match, cut at the first conflict or
      at the end of the log, append what is left of the batch. */
  function Merge(log: seq<Entry>, prev: nat, batch: seq<Entry>): (r: seq<Entry>)
    requires prev <= |log|
    decreases |batch|
  {
    if batch == [] then log
    else if prev < |log| && log[prev].term == batch[0].term then Merge(log, prev + 1, batch[1..])
    else log[..prev] + batch
  }

  /** The log between the deletion of a conflicting suffix and the write of the missing entries. */
  function Cut(log: seq<Entry>, prev: nat, batch: seq<Entry>): (r: seq<Entry>)
    requires prev <= |log|
    ensures r <= log
    decreases |batch|
  {
    if batch == [] then log
    else if prev < |log| && log[prev].term == batch[0].term then Cut(log, prev + 1, batch[1..])
    else log[..prev]
  }

  lemma {:induction false} MergeAfterCut(log: seq<Entry>, prev: nat, batch: seq<Entry>)
    requires prev <= |log|
    ensures prev <= |Cut(log, prev, batch)|
    ensures Merge(Cut(log, prev, batch), prev, batch) == Merge(log, prev, batch)
    decreases |batch|
  {
    if batch != [] {
      if prev < |log| && log[prev].term == batch[0].term {
        MergeAfterCut(log, prev + 1, batch[1..]);
      }
    }
  }

  /** What storing a batch means: with `j` the number of leading entries that are stored already,
      the log is kept if that is all of them, and otherwise cut there and continued by the rest.
      The cut is what a crash between the two transactions leaves. */
  lemma {:induction false} MergeExact(log: seq<Entry>, prev: nat, batch: seq<Entry>) returns (j: nat)
    requires prev <= |log|
    ensures j <= |batch| && prev + j <= |log|
    ensures forall i :: 0 <= i < j ==> log[prev + i].term == batch[i].term
    ensures j < |batch| && prev + j < |log| ==> log[prev + j].term != batch[j].term
    ensures Merge(log, prev, batch) == if j == |batch| then log else log[..prev + j] + batch[j..]
    ensures Cut(log, prev, batch) == if j == |batch| then log else log[..prev + j]
    decreases |batch|
  {
    if batch == [] || prev == |log| || log[prev].term != batch[0].term {
      j := 0;
    } else {
      var i := MergeExact(log, prev + 1, batch[1..]);
      j := i + 1;
      assert forall k :: 0 <= k < j ==> batch[k] == if k == 0 then batch[0] else batch[1..][k - 1];
      assert batch[j..] == batch[1..][i..];
    }
  }

  /** Storing a batch a second time changes nothing. */
  lemma MergeAgain(log: seq<Entry>, prev: nat, batch: seq<Entry>)
    requires prev <= |log|
    ensures prev <= |Merge(log, prev, batch)|
    ensures Merge(Merge(log, prev, batch), prev, batch) == Merge(log, prev, batch)
  {
    var j := MergeExact(log, prev, batch);
    var merged := Merge(log, prev, batch);
    var k := MergeExact(merged, prev, batch);
  }

  /** An entry as it travels and is stored: with its index. */
  datatype Line = Line(index: nat, entry: Entry)

  /** Entries `lo + 1` to `hi` of a log, each with its index. */
  function Numbered(log: seq<Entry>, lo: nat, hi: nat): (r: seq<Line>)
    requires hi <= |log|
    ensures |r| == if lo <= hi then hi - lo else 0
    ensures forall i :: 0 <= i < |r| ==> r[i] == Line(lo + i + 1, log[lo + i])
  {
    if hi <= lo then [] else Numbered(log, lo, hi - 1) + [Line(hi, log[hi - 1])]
  }

  lemma AgreeNumbered(a: seq<Entry>, b: seq<Entry>, lo: nat, hi: nat)
    requires hi <= |a| && hi <= |b| && a[..hi] == b[..hi]
    ensures Numbered(a, lo, hi) == Numbered(b, lo, hi)
  {
    forall i | lo <= i < hi
      ensures a[i] == b[i]
    {
      assert a[i] == a[..hi][i] == b[..hi][i];
    }
  }
}
