/** Definitions shared by every protocol: optional values, the clock type and sums over maps. */
module Prelude {

  datatype Option<+T> = None | Some(value: T)

  /** A point in time or a span, in seconds. */
  type Time = real

  function Max(a: int, b: int): int { if a >= b then a else b }

  /** The sum of `f` over the entries of `m`. */
  ghost function Total<K(!new), V(!new)>(m: map<K, V>, f: (K, V) -> int): int
    decreases |m|
  {
    if m == map[] then 0
    else
      var k :| k in m;
      f(k, m[k]) + Total(m - {k}, f)
  }

  /** Any entry may be taken out first: the order of summation does not matter. */
  lemma {:induction false} TotalRemove<K(!new), V(!new)>(m: map<K, V>, k: K, f: (K, V) -> int)
    requires k in m
    ensures Total(m, f) == f(k, m[k]) + Total(m - {k}, f)
    decreases |m|
  {
    var c :| c in m && Total(m, f) == f(c, m[c]) + Total(m - {c}, f);
    if c == k {
    } else {
      TotalRemove(m - {c}, k, f);
      TotalRemove(m - {k}, c, f);
      assert m - {c} - {k} == m - {k} - {c};
    }
  }

  lemma TotalInsert<K(!new), V(!new)>(m: map<K, V>, k: K, v: V, f: (K, V) -> int)
    requires k !in m
    ensures Total(m[k := v], f) == Total(m, f) + f(k, v)
  {
    TotalRemove(m[k := v], k, f);
    assert m[k := v] - {k} == m;
  }

  lemma TotalUpdate<K(!new), V(!new)>(m: map<K, V>, k: K, v: V, f: (K, V) -> int)
    requires k in m
    ensures Total(m[k := v], f) == Total(m, f) - f(k, m[k]) + f(k, v)
  {
    TotalRemove(m, k, f);
    TotalRemove(m[k := v], k, f);
    assert m[k := v] - {k} == m - {k};
  }

  /** Equal terms give equal sums, even under two different functions. */
  lemma {:induction false} TotalSame<K(!new), V(!new), W(!new)>(
    m: map<K, V>, n: map<K, W>, f: (K, V) -> int, g: (K, W) -> int)
    requires m.Keys == n.Keys
    requires forall k :: k in m ==> f(k, m[k]) == g(k, n[k])
    ensures Total(m, f) == Total(n, g)
    decreases |m|
  {
    if m != map[] {
      var k :| k in m;
      TotalRemove(m, k, f);
      TotalRemove(n, k, g);
      TotalSame(m - {k}, n - {k}, f, g);
    } else {
      assert n == map[];
    }
  }

  /** The sum of a sum is the sum of the sums. */
  lemma {:induction false} TotalSplit<K(!new), V(!new)>(
    m: map<K, V>, f: (K, V) -> int, g: (K, V) -> int, h: (K, V) -> int)
    requires forall k :: k in m ==> f(k, m[k]) == g(k, m[k]) + h(k, m[k])
    ensures Total(m, f) == Total(m, g) + Total(m, h)
    decreases |m|
  {
    if m == map[] {
    } else {
      var k :| k in m;
      TotalRemove(m, k, f);
      TotalRemove(m, k, g);
      TotalRemove(m, k, h);
      TotalSplit(m - {k}, f, g, h);
    }
  }

  /** A sum of non-negative terms is at least any one of them. */
  lemma {:induction false} TotalBound<K(!new), V(!new)>(m: map<K, V>, f: (K, V) -> int)
    requires forall k :: k in m ==> 0 <= f(k, m[k])
    ensures 0 <= Total(m, f)
    ensures forall k :: k in m ==> f(k, m[k]) <= Total(m, f)
    decreases |m|
  {
    if m == map[] {
    } else {
      forall k | k in m
        ensures 0 <= f(k, m[k]) <= Total(m, f)
      {
        TotalRemove(m, k, f);
        TotalBound(m - {k}, f);
      }
    }
  }

  /** Entries that contribute nothing may be dropped. */
  lemma {:induction false} TotalDrop<K(!new), V(!new)>(m: map<K, V>, gone: set<K>, f: (K, V) -> int)
    requires forall k :: k in m && k in gone ==> f(k, m[k]) == 0
    ensures Total(m - gone, f) == Total(m, f)
    decreases |m|
  {
    if k :| k in m && k in gone {
      TotalRemove(m, k, f);
      TotalDrop(m - {k}, gone, f);
      assert m - {k} - gone == m - gone;
    } else {
      assert m - gone == m;
    }
  }
}
