/** Sums over finite maps and sequences, with the few laws the accounting proofs use. */
module Sums {

  ghost function SumMap<K(!new), V>(m: map<K, V>, f: (K, V) -> int): int
    decreases |m|
  {
    if m == map[] then 0
    else
      var k :| k in m;
      assert |m - {k}| < |m| by { assert m.Keys == (m - {k}).Keys + {k}; }
      f(k, m[k]) + SumMap(m - {k}, f)
  }

  lemma {:induction false} SumMapRemove<K(!new), V>(m: map<K, V>, f: (K, V) -> int, k: K)
    requires k in m
    ensures SumMap(m, f) == f(k, m[k]) + SumMap(m - {k}, f)
    decreases |m|
  {
    var j :| j in m && SumMap(m, f) == f(j, m[j]) + SumMap(m - {j}, f);
    if j != k {
      assert |m - {j}| < |m| by { assert m.Keys == (m - {j}).Keys + {j}; }
      assert |m - {k}| < |m| by { assert m.Keys == (m - {k}).Keys + {k}; }
      SumMapRemove(m - {j}, f, k);
      SumMapRemove(m - {k}, f, j);
      assert m - {j} - {k} == m - {k} - {j};
    }
  }

  lemma SumMapPut<K(!new), V>(m: map<K, V>, f: (K, V) -> int, k: K, v: V)
    ensures SumMap(m[k := v], f) == SumMap(m, f) - (if k in m then f(k, m[k]) else 0) + f(k, v)
  {
    SumMapRemove(m[k := v], f, k);
    assert m[k := v] - {k} == m - {k};
    if k in m {
      SumMapRemove(m, f, k);
    } else {
      assert m - {k} == m;
    }
  }

  /** A sum of non-negative terms is at least each of its terms. */
  lemma {:induction false} SumMapLower<K(!new), V>(m: map<K, V>, f: (K, V) -> int)
    requires forall k :: k in m ==> f(k, m[k]) >= 0
    ensures SumMap(m, f) >= 0
    ensures forall k :: k in m ==> f(k, m[k]) <= SumMap(m, f)
    decreases |m|
  {
    forall k | k in m
      ensures SumMap(m, f) >= f(k, m[k])
    {
      SumMapRemove(m, f, k);
      assert |m - {k}| < |m| by { assert m.Keys == (m - {k}).Keys + {k}; }
      SumMapLower(m - {k}, f);
    }
    if m != map[] {
      var k :| k in m;
      assert SumMap(m, f) >= f(k, m[k]) >= 0;
    }
  }

  /** Termwise comparison over the same keys. */
  lemma {:induction false} SumMapMonotone<K(!new), V, W>(m: map<K, V>, f: (K, V) -> int, n: map<K, W>, g: (K, W) -> int)
    requires m.Keys == n.Keys
    requires forall k :: k in m ==> f(k, m[k]) <= g(k, n[k])
    ensures SumMap(m, f) <= SumMap(n, g)
    decreases |m|
  {
    if m != map[] {
      var k :| k in m;
      SumMapRemove(m, f, k);
      SumMapRemove(n, g, k);
      assert |m - {k}| < |m| by { assert m.Keys == (m - {k}).Keys + {k}; }
      SumMapMonotone(m - {k}, f, n - {k}, g);
    } else {
      assert n == map[];
    }
  }

  lemma SumMapSame<K(!new), V, W>(m: map<K, V>, f: (K, V) -> int, n: map<K, W>, g: (K, W) -> int)
    requires m.Keys == n.Keys
    requires forall k :: k in m ==> f(k, m[k]) == g(k, n[k])
    ensures SumMap(m, f) == SumMap(n, g)
  {
    SumMapMonotone(m, f, n, g);
    SumMapMonotone(n, g, m, f);
  }

  ghost function SumSeq<T>(s: seq<T>, f: T -> int): int {
    if s == [] then 0 else SumSeq(s[..|s| - 1], f) + f(s[|s| - 1])
  }

  lemma SumSeqSnoc<T>(s: seq<T>, x: T, f: T -> int)
    ensures SumSeq(s + [x], f) == SumSeq(s, f) + f(x)
  {
    assert (s + [x])[..|s|] == s;
  }

  lemma {:induction false} SumSeqConcat<T>(s: seq<T>, t: seq<T>, f: T -> int)
    ensures SumSeq(s + t, f) == SumSeq(s, f) + SumSeq(t, f)
  {
    if t == [] {
      assert s + t == s;
    } else {
      var n := |t| - 1;
      assert s + t == (s + t[..n]) + [t[n]];
      SumSeqConcat(s, t[..n], f);
      SumSeqSnoc(s + t[..n], t[n], f);
    }
  }

  lemma {:induction false} SumSeqSame<S, T>(s: seq<S>, f: S -> int, t: seq<T>, g: T -> int)
    requires |s| == |t| && forall i :: 0 <= i < |s| ==> f(s[i]) == g(t[i])
    ensures SumSeq(s, f) == SumSeq(t, g)
  {
    if s != [] {
      SumSeqSame(s[..|s| - 1], f, t[..|t| - 1], g);
    }
  }

  lemma {:induction false} SumMapAdd<K(!new), V>(m: map<K, V>, f: (K, V) -> int, g: (K, V) -> int, h: (K, V) -> int)
    requires forall k :: k in m ==> h(k, m[k]) == f(k, m[k]) + g(k, m[k])
    ensures SumMap(m, h) == SumMap(m, f) + SumMap(m, g)
    decreases |m|
  {
    if m != map[] {
      var k :| k in m;
      SumMapRemove(m, f, k);
      SumMapRemove(m, g, k);
      SumMapRemove(m, h, k);
      assert |m - {k}| < |m| by { assert m.Keys == (m - {k}).Keys + {k}; }
      SumMapAdd(m - {k}, f, g, h);
    }
  }

  /** The terms of one group. */
  ghost function Part<K, X, Y>(key: (X, Y) -> K, h: (X, Y) -> int, k: K): (X, Y) -> int {
    (x: X, y: Y) => if key(x, y) == k then h(x, y) else 0
  }

  /** The terms of all groups that have a key in `m`. */
  ghost function Within<K, V, X, Y>(m: map<K, V>, key: (X, Y) -> K, h: (X, Y) -> int): (X, Y) -> int {
    (x: X, y: Y) => if key(x, y) in m then h(x, y) else 0
  }

  ghost function PartSum<K(!new), V, X(!new), Y>(n: map<X, Y>, key: (X, Y) -> K, h: (X, Y) -> int): (K, V) -> int {
    (k: K, v: V) => SumMap(n, Part(key, h, k))
  }

  /** Summing group by group is summing everything that belongs to some group. */
  lemma {:induction false} SumByGroup<K(!new), V, X(!new), Y>(
    m: map<K, V>, n: map<X, Y>, key: (X, Y) -> K, h: (X, Y) -> int)
    ensures SumMap(m, PartSum(n, key, h)) == SumMap(n, Within(m, key, h))
    decreases |m|
  {
    if m == map[] {
      SumMapZero(n, Within(m, key, h));
    } else {
      var k :| k in m;
      SumMapRemove(m, PartSum(n, key, h), k);
      assert |m - {k}| < |m| by { assert m.Keys == (m - {k}).Keys + {k}; }
      SumByGroup(m - {k}, n, key, h);
      SumMapAdd(n, Part(key, h, k), Within(m - {k}, key, h), Within(m, key, h));
    }
  }

  lemma {:induction false} SumMapZero<K(!new), V>(m: map<K, V>, f: (K, V) -> int)
    requires forall k :: k in m ==> f(k, m[k]) == 0
    ensures SumMap(m, f) == 0
    decreases |m|
  {
    if m != map[] {
      var k :| k in m;
      SumMapRemove(m, f, k);
      assert |m - {k}| < |m| by { assert m.Keys == (m - {k}).Keys + {k}; }
      SumMapZero(m - {k}, f);
    }
  }

  /** Distinct keys of a map of non-negative terms sum to no more than the whole map. */
  lemma {:induction false} SomeBelowAll<K(!new), V>(keys: seq<K>, v: K -> int, m: map<K, V>, f: (K, V) -> int)
    requires forall i, j :: 0 <= i < j < |keys| ==> keys[i] != keys[j]
    requires forall k :: k in keys ==> k in m && v(k) <= f(k, m[k])
    requires forall k :: k in m ==> f(k, m[k]) >= 0
    ensures SumSeq(keys, v) <= SumMap(m, f)
  {
    if keys == [] {
      SumMapLower(m, f);
    } else {
      var n := |keys| - 1;
      var last := keys[n];
      assert last in keys;
      SumMapRemove(m, f, last);
      forall k | k in keys[..n] ensures k in m - {last} && v(k) <= f(k, (m - {last})[k]) {
        assert k in keys && k != last;
      }
      SomeBelowAll(keys[..n], v, m - {last}, f);
    }
  }
}
