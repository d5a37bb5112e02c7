// A JavaScript `Map` keyed by bucket strings: insertion-ordered, `set` on a
// present key replaces the value in place, `Array.from(map.values())` lists
// values in first-insertion order. The chart loops all fold a list of bets
// into such a map, so the fold and its per-key meaning are stated here once.

module Buckets {
  import opened Wrappers

  datatype OrderedMap<V> = OrderedMap(keys: seq<string>, vals: map<string, V>)
  {
    /** Keys are distinct and are exactly the keys with a value. */
    ghost predicate Valid() {
      && (forall i, j :: 0 <= i < j < |keys| ==> keys[i] != keys[j])
      && vals.Keys == set k | k in keys
    }

    /** `map.get(k)`, `None` for `undefined`. */
    function Get(k: string): (r: Option<V>)
      ensures r.Some? <==> k in vals
      ensures r.Some? ==> r.value == vals[k]
    {
      if k in vals then Some(vals[k]) else None
    }

    /** `map.set(k, v)`: a new key goes to the end, a known key keeps its place. */
    function Put(k: string, v: V): (r: OrderedMap<V>)
      ensures Valid() ==> r.Valid()
      ensures r.vals == vals[k := v]
      ensures k in vals ==> r.keys == keys
      ensures k !in vals ==> r.keys == keys + [k]
    {
      if k in vals then OrderedMap(keys, vals[k := v]) else OrderedMap(keys + [k], vals[k := v])
    }

    /** `Array.from(map.values())` */
    function Values(): (vs: seq<V>)
      requires Valid()
      ensures |vs| == |keys|
      ensures forall i :: 0 <= i < |keys| ==> vs[i] == vals[keys[i]]
    {
      seq(|keys|, i requires 0 <= i < |keys| => vals[keys[i]])
    }
  }

  function Empty<V>(): (m: OrderedMap<V>)
    ensures m.Valid() && m.keys == [] && m.vals == map[]
  {
    OrderedMap([], map[])
  }

  /**
   * One bucket update per item, in order: item `i` goes to bucket `ks[i]`,
   * whose value becomes `f(previous value or None, xs[i])`.
   */
  function Fold<A, X>(ks: seq<string>, xs: seq<X>, f: (Option<A>, X) -> A): OrderedMap<A>
    requires |ks| == |xs|
    decreases |ks|
  {
    if ks == [] then Empty()
    else
      var n := |ks| - 1;
      var m := Fold(ks[..n], xs[..n], f);
      m.Put(ks[n], f(m.Get(ks[n]), xs[n]))
  }

  /** The buckets are the distinct keys of the items, in order of first appearance, each with a value. */
  lemma {:induction false} FoldKeys<A, X>(ks: seq<string>, xs: seq<X>, f: (Option<A>, X) -> A)
    requires |ks| == |xs|
    ensures Fold(ks, xs, f).Valid()
    ensures forall k :: k in Fold(ks, xs, f).vals <==> k in ks
    decreases |ks|
  {
    if ks != [] {
      var n := |ks| - 1;
      FoldKeys(ks[..n], xs[..n], f);
      assert forall k :: k in ks <==> k in ks[..n] || k == ks[n];
    }
  }

  /** One more item folded in: the loop step of every chart. */
  lemma FoldStep<A, X>(ks: seq<string>, xs: seq<X>, f: (Option<A>, X) -> A, i: int)
    requires |ks| == |xs| && 0 <= i < |ks|
    ensures var m := Fold(ks[..i], xs[..i], f);
      Fold(ks[..i + 1], xs[..i + 1], f) == m.Put(ks[i], f(m.Get(ks[i]), xs[i]))
  {
    assert ks[..i + 1][..i] == ks[..i];
    assert xs[..i + 1][..i] == xs[..i];
  }

  /** Every item of a bucket is one of the folded items. */
  lemma {:induction false} SelectFrom<X>(ks: seq<string>, xs: seq<X>, k: string)
    requires |ks| == |xs|
    ensures forall y :: y in Select(ks, xs, k) ==> y in xs
    decreases |ks|
  {
    if ks != [] {
      var n := |ks| - 1;
      SelectFrom(ks[..n], xs[..n], k);
      assert forall y :: y in xs[..n] ==> y in xs;
    }
  }

  /** The items that land in bucket `k`, in order. */
  function Select<X>(ks: seq<string>, xs: seq<X>, k: string): (ys: seq<X>)
    requires |ks| == |xs|
    ensures |ys| <= |xs|
    decreases |ks|
  {
    if ks == [] then []
    else
      var n := |ks| - 1;
      Select(ks[..n], xs[..n], k) + (if ks[n] == k then [xs[n]] else [])
  }

  /** The value one bucket reaches when its items are applied in order. */
  function Run<A, X>(f: (Option<A>, X) -> A, ys: seq<X>): (r: Option<A>)
    ensures r.Some? <==> ys != []
    decreases |ys|
  {
    if ys == [] then None else Some(f(Run(f, ys[..|ys| - 1]), ys[|ys| - 1]))
  }

  /** Buckets do not interfere: each one ends at the run of its own items. */
  lemma {:induction false} FoldIsRunPerKey<A, X>(ks: seq<string>, xs: seq<X>, f: (Option<A>, X) -> A, k: string)
    requires |ks| == |xs|
    ensures Fold(ks, xs, f).Get(k) == Run(f, Select(ks, xs, k))
    decreases |ks|
  {
    if ks != [] {
      var n := |ks| - 1;
      FoldIsRunPerKey(ks[..n], xs[..n], f, k);
      var m := Fold(ks[..n], xs[..n], f);
      var prev := Select(ks[..n], xs[..n], k);
      assert Fold(ks, xs, f) == m.Put(ks[n], f(m.Get(ks[n]), xs[n]));
      if ks[n] == k {
        var ys := prev + [xs[n]];
        assert Select(ks, xs, k) == ys;
        assert ys[..|ys| - 1] == prev;
        assert Run(f, ys) == Some(f(Run(f, prev), xs[n]));
      } else {
        assert Select(ks, xs, k) == prev + [];
        assert prev + [] == prev;
        assert Fold(ks, xs, f).Get(k) == m.Get(k);
      }
    }
  }

  /** The number of items in bucket `k`. */
  function Count(ks: seq<string>, k: string): (c: nat)
    ensures c <= |ks|
    ensures c == 0 <==> k !in ks
    decreases |ks|
  {
    if ks == [] then 0
    else
      var n := |ks| - 1;
      assert forall j :: j in ks <==> j in ks[..n] || j == ks[n];
      Count(ks[..n], k) + (if ks[n] == k then 1 else 0)
  }

  lemma {:induction false} SelectCount<X>(ks: seq<string>, xs: seq<X>, k: string)
    requires |ks| == |xs|
    ensures |Select(ks, xs, k)| == Count(ks, k)
    decreases |ks|
  {
    if ks != [] {
      SelectCount(ks[..|ks| - 1], xs[..|ks| - 1], k);
    }
  }

  /** The position of the last item in bucket `k`. */
  function LastIndex(ks: seq<string>, k: string): (i: int)
    requires k in ks
    ensures 0 <= i < |ks| && ks[i] == k
    ensures forall j :: i < j < |ks| ==> ks[j] != k
    decreases |ks|
  {
    var n := |ks| - 1;
    if ks[n] == k then n
    else
      assert k in ks[..n] by {
        var j :| 0 <= j < |ks| && ks[j] == k;
        assert ks[..n][j] == k;
      }
      LastIndex(ks[..n], k)
  }

  /** The last item of a non-empty bucket is the item at its last position. */
  lemma {:induction false} SelectLast<X>(ks: seq<string>, xs: seq<X>, k: string)
    requires |ks| == |xs| && k in ks
    ensures var ys := Select(ks, xs, k); ys != [] && ys[|ys| - 1] == xs[LastIndex(ks, k)]
    decreases |ks|
  {
    var n := |ks| - 1;
    if ks[n] != k {
      assert k in ks[..n] by {
        var j :| 0 <= j < |ks| && ks[j] == k;
        assert ks[..n][j] == k;
      }
      SelectLast(ks[..n], xs[..n], k);
    }
  }

  /** `map.set(key, value)` that ignores the previous value. */
  function Replace<A>(previous: Option<A>, x: A): A { x }

  lemma RunReplaceIsLast<A>(ys: seq<A>)
    requires ys != []
    ensures Run(Replace, ys) == Some(ys[|ys| - 1])
  {
  }

  /** With `Replace`, every bucket holds the item of its last position. */
  lemma FoldReplaceKeepsLast<A>(ks: seq<string>, xs: seq<A>, k: string)
    requires |ks| == |xs| && k in ks
    ensures k in Fold(ks, xs, Replace).vals
    ensures Fold(ks, xs, Replace).vals[k] == xs[LastIndex(ks, k)]
  {
    FoldIsRunPerKey(ks, xs, Replace, k);
    SelectLast(ks, xs, k);
    RunReplaceIsLast(Select(ks, xs, k));
  }

  /** `[f(0), ..., f(n - 1)]`, one element appended per step. */
  function Scan<T>(n: nat, f: nat --> T): (ps: seq<T>)
    requires forall i: nat :: i < n ==> f.requires(i)
    ensures |ps| == n
    decreases n
  {
    if n == 0 then [] else Scan(n - 1, f) + [f(n - 1)]
  }

  /** Element `i` of a scan is `f(i)`, however many elements follow it. */
  lemma {:induction false} ScanAt<T>(n: nat, f: nat --> T, i: nat)
    requires forall i: nat :: i < n ==> f.requires(i)
    requires i < n
    ensures Scan(n, f)[i] == f(i)
    decreases n
  {
    if i < n - 1 {
      ScanAt(n - 1, f, i);
    }
  }
}
