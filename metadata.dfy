/** A record's metadata: a Python dict kept as an association list, so that
    the dict's insertion order (the order `items()` walks) is part of the
    value. Values are held as the text Python's `str()` gives them. */
module Metadata {
  import opened Wrappers

  type Entry = (string, string)

  /** A dict holds each key once. */
  predicate DistinctKeys(m: seq<Entry>) {
    forall i, j :: 0 <= i < j < |m| ==> m[i].0 != m[j].0
  }

  type Metadata = m: seq<Entry> | DistinctKeys(m) witness []

  /** `k in m`. */
  predicate HasKey(m: seq<Entry>, k: string) {
    exists i :: 0 <= i < |m| && m[i].0 == k
  }

  /** Missing or None metadata read as the empty dict. */
  function OrEmpty(m: Option<Metadata>): Metadata {
    match m
    case Some(md) => md
    case None => []
  }

  /** `m.get(k)`: the value stored under `k`, or None when `k` is absent. */
  function Get(m: seq<Entry>, k: string): (r: Option<string>)
    ensures r.Some? <==> HasKey(m, k)
    ensures DistinctKeys(m) ==> forall i :: 0 <= i < |m| && m[i].0 == k ==> r == Some(m[i].1)
  {
    if m == [] then None
    else if m[0].0 == k then Some(m[0].1)
    else
      var r := Get(m[1..], k);
      assert forall i :: 1 <= i < |m| ==> m[i] == m[1..][i - 1];
      r
  }

  /** `m.get(k, default)`. */
  function GetOr(m: seq<Entry>, k: string, default: string): string {
    if m == [] then default
    else if m[0].0 == k then m[0].1
    else GetOr(m[1..], k, default)
  }

  /** `m.get(k, default)` is the value `m.get(k)` finds, else the default. */
  lemma {:induction false} GetOrIsGet(m: seq<Entry>, k: string, default: string)
    ensures GetOr(m, k, default) == (if Get(m, k).Some? then Get(m, k).value else default)
  {
    if m != [] && m[0].0 != k {
      GetOrIsGet(m[1..], k, default);
    }
  }

  /** The line `f"{key}: {value}"` for each entry, in order. */
  function EntryLines(m: seq<Entry>): (lines: seq<string>)
    ensures |lines| == |m|
  {
    seq(|m|, k requires 0 <= k < |m| => m[k].0 + ": " + m[k].1)
  }

  lemma EntryLinesAppend(a: seq<Entry>, b: seq<Entry>)
    ensures EntryLines(a + b) == EntryLines(a) + EntryLines(b)
  {
    assert forall k :: 0 <= k < |a| ==> (a + b)[k] == a[k];
    assert forall k :: |a| <= k < |a| + |b| ==> (a + b)[k] == b[k - |a|];
  }
}
