/**
 * The loaded YAML document the importer walks: scalars, lists and mappings.
 * A mapping is an association list in insertion order, because Python's
 * `dict` keeps insertion order and that order decides the order of rows;
 * the dict a mapping stands for is `Dict` of its pairs, one entry per key.
 * Mapping keys are strings.
 */
module Document {
  import opened Wrappers
  import opened PyText

  datatype Value =
    | Null
    | Bool(b: bool)
    | Int(i: int)
    | Str(s: string)
    | List(items: seq<Value>)
    | Map(entries: seq<Entry>)

  datatype Entry = Entry(key: string, value: Value)

  /** The keys of a mapping, in order. */
  function Keys(d: seq<Entry>): (ks: seq<string>)
    ensures |ks| == |d|
    ensures forall i :: 0 <= i < |d| ==> ks[i] == d[i].key
  {
    seq(|d|, i requires 0 <= i < |d| => d[i].key)
  }

  predicate HasKey(d: seq<Entry>, k: string) {
    k in Keys(d)
  }

  /**
   * `d[k]` / `d.get(k)`. When a key occurs more than once in the pairs, the
   * last occurrence is the one that counts, as in `dict(pairs)` and in the
   * YAML loader's mappings, which keep the last value (see `Dict`).
   */
  function Get(d: seq<Entry>, k: string): (r: Option<Value>)
    ensures r.Some? <==> HasKey(d, k)
    ensures r.Some? ==> exists i :: 0 <= i < |d| && d[i] == Entry(k, r.value)
  {
    if d == [] then None
    else if d[|d| - 1].key == k then Some(d[|d| - 1].value)
    else
      assert Keys(d) == Keys(d[..|d| - 1]) + [d[|d| - 1].key];
      Get(d[..|d| - 1], k)
  }

  /** Every entry with key `k` takes the value `v`; the rest stay as they are. */
  function Replace(d: seq<Entry>, k: string, v: Value): (r: seq<Entry>)
    ensures |r| == |d|
    ensures forall i :: 0 <= i < |d| ==> r[i].key == d[i].key
  {
    seq(|d|, i requires 0 <= i < |d| => if d[i].key == k then Entry(k, v) else d[i])
  }

  /**
   * `d[k] = v`: an existing key keeps its position and takes the new value;
   * a new key goes at the end.
   */
  function Set(d: seq<Entry>, k: string, v: Value): (r: seq<Entry>)
    ensures HasKey(d, k) ==> Keys(r) == Keys(d)
    ensures !HasKey(d, k) ==> Keys(r) == Keys(d) + [k]
  {
    if HasKey(d, k) then Replace(d, k, v) else d + [Entry(k, v)]
  }

  /** `dict(d, **e)`: the entries of `e` written over `d`, one after another. */
  function Update(d: seq<Entry>, e: seq<Entry>): (r: seq<Entry>)
    ensures |r| >= |d|
    ensures forall i :: 0 <= i < |d| ==> r[i].key == d[i].key
    decreases |e|
  {
    if e == [] then d else Update(Set(d, e[0].key, e[0].value), e[1..])
  }

  /** No key occurs twice: what every Python `dict` guarantees. */
  predicate DistinctKeys(d: seq<Entry>) {
    forall i, j :: 0 <= i < j < |d| ==> d[i].key != d[j].key
  }

  /**
   * `dict(pairs)`, which is also what the YAML loader builds from a mapping:
   * each key once, at the position of its first occurrence, holding the
   * value of its last one. Every walk over a mapping iterates this.
   */
  function Dict(d: seq<Entry>): (r: seq<Entry>)
    ensures DistinctKeys(r)
  {
    UpdateDistinct([], d);
    Update([], d)
  }

  /** Python truthiness, which `x or None` tests. */
  predicate Truthy(v: Value) {
    match v
    case Null => false
    case Bool(b) => b
    case Int(i) => i != 0
    case Str(s) => s != ""
    case List(items) => items != []
    case Map(entries) => entries != []
  }

  /**
   * `str(v)`. Inside a list or mapping Python uses `repr`, which puts strings
   * between single quotes; escaping of quotes inside such strings is not
   * modelled.
   */
  function Text(v: Value): string
    decreases v, 1
  {
    match v
    case Null => "None"
    case Bool(b) => if b then "True" else "False"
    case Int(i) => IntToString(i)
    case Str(s) => s
    case List(items) => "[" + Join(", ", ItemReprs(v, items, 0)) + "]"
    case Map(entries) => "{" + Join(", ", EntryReprs(v, entries, 0)) + "}"
  }

  function Repr(v: Value): string
    decreases v, 2
  {
    if v.Str? then Quote(v.s) else Text(v)
  }

  function ItemReprs(parent: Value, items: seq<Value>, i: nat): seq<string>
    requires parent.List? && parent.items == items
    decreases parent, 0, |items| - i
  {
    if i >= |items| then [] else [Repr(items[i])] + ItemReprs(parent, items, i + 1)
  }

  function EntryReprs(parent: Value, entries: seq<Entry>, i: nat): seq<string>
    requires parent.Map? && parent.entries == entries
    decreases parent, 0, |entries| - i
  {
    if i >= |entries| then []
    else [Quote(entries[i].key) + ": " + Repr(entries[i].value)] + EntryReprs(parent, entries, i + 1)
  }

  // ---------------------------------------------------------------------------
  // Lookups after writes

  /** Reading a key back after `d[k] = v` gives `v`; every other key reads as before. */
  lemma GetSet(d: seq<Entry>, k: string, v: Value, k2: string)
    ensures Get(Set(d, k, v), k2) == if k2 == k then Some(v) else Get(d, k2)
  {
    if HasKey(d, k) {
      GetReplaced(d, k, v, k2);
    } else {
      GetAppend(d, [Entry(k, v)], k2);
    }
  }

  lemma {:induction false} GetReplaced(d: seq<Entry>, k: string, v: Value, k2: string)
    ensures Get(Replace(d, k, v), k2) == if k2 == k && HasKey(d, k) then Some(v) else Get(d, k2)
    decreases |d|
  {
    if d != [] {
      var n := |d| - 1;
      assert Replace(d, k, v)[..n] == Replace(d[..n], k, v);
      assert Keys(d) == Keys(d[..n]) + [d[n].key];
      GetReplaced(d[..n], k, v, k2);
    }
  }

  /** A key reads as the value of its last entry. */
  lemma {:induction false} GetAt(d: seq<Entry>, i: int, k: string)
    requires 0 <= i < |d| && d[i].key == k
    requires forall j :: i < j < |d| ==> d[j].key != k
    ensures Get(d, k) == Some(d[i].value)
    decreases |d|
  {
    if i < |d| - 1 {
      GetAt(d[..|d| - 1], i, k);
    }
  }

  /** Looking up in `a + b` finds the entry of `b` when `b` has the key, otherwise that of `a`. */
  lemma {:induction false} GetAppend(a: seq<Entry>, b: seq<Entry>, k: string)
    ensures Get(a + b, k) == if HasKey(b, k) then Get(b, k) else Get(a, k)
    decreases |b|
  {
    if b != [] {
      var n := |b| - 1;
      assert (a + b)[..|a + b| - 1] == a + b[..n];
      assert Keys(b) == Keys(b[..n]) + [b[n].key];
      GetAppend(a, b[..n], k);
    } else {
      assert a + b == a;
    }
  }

  /** After `dict(d, **e)`, a key of `e` reads as in `e`; any other key reads as in `d`. */
  lemma {:induction false} GetUpdate(d: seq<Entry>, e: seq<Entry>, k: string)
    ensures Get(Update(d, e), k) == if HasKey(e, k) then Get(e, k) else Get(d, k)
    decreases |e|
  {
    if e != [] {
      var head, rest := e[0], e[1..];
      GetUpdate(Set(d, head.key, head.value), rest, k);
      GetSet(d, head.key, head.value, k);
      assert e == [head] + rest;
      GetAppend([head], rest, k);
      assert [head][..0] == [];
      assert Get([head], k) == if k == head.key then Some(head.value) else None;
    }
  }

  /** After `dict(d, **e)` exactly the keys of `d` and of `e` are present. */
  lemma KeysUpdate(d: seq<Entry>, e: seq<Entry>, k: string)
    ensures HasKey(Update(d, e), k) <==> HasKey(d, k) || HasKey(e, k)
  {
    GetUpdate(d, e, k);
  }

  // ---------------------------------------------------------------------------
  // Building a dict

  /** `d[k] = v` on a dict keeps it a dict. */
  /** A key of either part of `a + b` sits at some position of it. */
  lemma KeyIndex(a: seq<Entry>, b: seq<Entry>, k: string) returns (n: nat)
    requires HasKey(a, k) || HasKey(b, k)
    ensures n < |a + b| && (a + b)[n].key == k
  {
    if HasKey(a, k) {
      var j :| 0 <= j < |a| && Keys(a)[j] == k;
      n := j;
    } else {
      var j :| 0 <= j < |b| && Keys(b)[j] == k;
      n := |a| + j;
    }
  }

  lemma SetDistinct(d: seq<Entry>, k: string, v: Value)
    requires DistinctKeys(d)
    ensures DistinctKeys(Set(d, k, v))
  {
    var r := Set(d, k, v);
    forall i, j | 0 <= i < j < |r| ensures r[i].key != r[j].key {
      assert Keys(r)[i] == r[i].key && Keys(r)[j] == r[j].key;
      if j < |d| {
        assert Keys(d)[i] == d[i].key && Keys(d)[j] == d[j].key;
      } else {
        assert Keys(d)[i] == d[i].key;
      }
    }
  }

  /** `dict(d, **e)` on a dict gives a dict. */
  lemma {:induction false} UpdateDistinct(d: seq<Entry>, e: seq<Entry>)
    requires DistinctKeys(d)
    ensures DistinctKeys(Update(d, e))
    decreases |e|
  {
    if e != [] {
      SetDistinct(d, e[0].key, e[0].value);
      UpdateDistinct(Set(d, e[0].key, e[0].value), e[1..]);
    }
  }

  /** Every key reads in the dict as in the pairs it was built from: the last value counts. */
  lemma DictGet(d: seq<Entry>, k: string)
    ensures Get(Dict(d), k) == Get(d, k)
    ensures HasKey(Dict(d), k) <==> HasKey(d, k)
  {
    GetUpdate([], d, k);
  }

  /** Pairs whose keys are already distinct build the dict with the same entries in the same order. */
  lemma {:induction false} UpdateFresh(d: seq<Entry>, e: seq<Entry>)
    requires DistinctKeys(d + e)
    ensures Update(d, e) == d + e
    decreases |e|
  {
    if e != [] {
      var head := e[0];
      forall i | 0 <= i < |d| ensures Keys(d)[i] != head.key {
        assert (d + e)[i] == d[i] && (d + e)[|d|] == head;
      }
      assert Set(d, head.key, head.value) == d + [head];
      assert d + e == (d + [head]) + e[1..];
      UpdateFresh(d + [head], e[1..]);
    } else {
      assert d + e == d;
    }
  }

  /** A dict is its own `dict(...)`. */
  lemma DictOfDict(d: seq<Entry>)
    requires DistinctKeys(d)
    ensures Dict(d) == d
  {
    assert [] + d == d;
    UpdateFresh([], d);
  }
}
