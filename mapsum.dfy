/** Sums over the values of a dictionary. A Python `sum(... for v in d.values())`
    or an accumulator loop over `d.items()` does not depend on the order in
    which the entries are visited; SumOverRemove is that fact. */
module MapSums {

  /** The sum of `m[k]` over the keys in `keys`, taken in an arbitrary order. */
  ghost function SumOver<K>(m: map<K, int>, keys: set<K>): int
    requires keys <= m.Keys
    decreases keys
  {
    if keys == {} then 0
    else
      var k :| k in keys;
      m[k] + SumOver(m, keys - {k})
  }

  ghost function MapSum<K>(m: map<K, int>): int
  {
    SumOver(m, m.Keys)
  }

  /** Taking out any one key first gives the same sum. */
  lemma {:induction false} SumOverRemove<K>(m: map<K, int>, keys: set<K>, k: K)
    requires keys <= m.Keys && k in keys
    ensures SumOver(m, keys) == m[k] + SumOver(m, keys - {k})
    decreases keys
  {
    var j :| j in keys && SumOver(m, keys) == m[j] + SumOver(m, keys - {j});
    if j != k {
      SumOverRemove(m, keys - {j}, k);
      SumOverRemove(m, keys - {k}, j);
      assert keys - {j} - {k} == keys - {k} - {j};
    }
  }

  /** Two maps that agree on `keys` have the same sum over them. */
  lemma {:induction false} SumOverAgree<K>(m1: map<K, int>, m2: map<K, int>, keys: set<K>)
    requires keys <= m1.Keys && keys <= m2.Keys
    requires forall k | k in keys :: m1[k] == m2[k]
    ensures SumOver(m1, keys) == SumOver(m2, keys)
    decreases keys
  {
    if keys != {} {
      var k :| k in keys && SumOver(m1, keys) == m1[k] + SumOver(m1, keys - {k});
      SumOverRemove(m2, keys, k);
      SumOverAgree(m1, m2, keys - {k});
    }
  }

  lemma MapSumRemove<K>(m: map<K, int>, k: K)
    requires k in m
    ensures MapSum(m) == m[k] + MapSum(m - {k})
  {
    var rest := m - {k};
    assert rest.Keys == m.Keys - {k};
    SumOverRemove(m, m.Keys, k);
    SumOverAgree(m, rest, rest.Keys);
  }

  /** Overwriting or inserting one entry changes the sum by the difference. */
  lemma MapSumUpdate<K>(m: map<K, int>, k: K, v: int)
    ensures MapSum(m[k := v]) == MapSum(m) - (if k in m then m[k] else 0) + v
  {
    var u := m[k := v];
    MapSumRemove(u, k);
    if k in m {
      MapSumRemove(m, k);
      assert u - {k} == m - {k};
    } else {
      assert u - {k} == m;
    }
  }

  /** Every value in [lo, hi] puts the sum over `keys` in [lo * |keys|, hi * |keys|]. */
  lemma {:induction false} SumOverBounds<K>(m: map<K, int>, keys: set<K>, lo: int, hi: int)
    requires keys <= m.Keys
    requires forall k | k in keys :: lo <= m[k] <= hi
    ensures lo * |keys| <= SumOver(m, keys) <= hi * |keys|
    decreases keys
  {
    if keys != {} {
      var k :| k in keys && SumOver(m, keys) == m[k] + SumOver(m, keys - {k});
      var rest := keys - {k};
      var n := |rest|;
      assert |keys| == n + 1;
      SumOverBounds(m, rest, lo, hi);
      Distribute(lo, n);
      Distribute(hi, n);
    }
  }

  lemma Distribute(a: int, n: int)
    ensures a * (n + 1) == a * n + a
  {
  }

  lemma MapSumBounds<K>(m: map<K, int>, lo: int, hi: int)
    requires forall k | k in m :: lo <= m[k] <= hi
    ensures lo * |m| <= MapSum(m) <= hi * |m|
  {
    SumOverBounds(m, m.Keys, lo, hi);
  }

  /** A sum of non-negative values is non-negative. */
  lemma {:induction false} SumOverNonNegative<K>(m: map<K, int>, keys: set<K>)
    requires keys <= m.Keys
    requires forall k | k in keys :: m[k] >= 0
    ensures SumOver(m, keys) >= 0
    decreases keys
  {
    if keys != {} {
      var k :| k in keys && SumOver(m, keys) == m[k] + SumOver(m, keys - {k});
      SumOverNonNegative(m, keys - {k});
    }
  }
}
