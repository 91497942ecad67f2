/** Sums over the values of a map: the contracts keep money in keyed storage, and every
    solvency statement adds such storage up. */
module Sums {

  ghost function Sum<K(!new)>(m: map<K, int>): int
    decreases |m|
  {
    if m == map[] then 0 else
    var k :| k in m;
    m[k] + Sum(m - {k})
  }

  /** The sum does not depend on which key is taken first. */
  lemma {:induction false} SumWithout<K(!new)>(m: map<K, int>, k: K)
    requires k in m
    ensures Sum(m) == m[k] + Sum(m - {k})
    decreases |m|
  {
    var first :| first in m && Sum(m) == m[first] + Sum(m - {first});
    if first != k {
      SumWithout(m - {first}, k);
      SumWithout(m - {k}, first);
      assert m - {first} - {k} == m - {k} - {first};
    }
  }

  lemma SumUpdate<K(!new)>(m: map<K, int>, k: K, v: int)
    ensures Sum(m[k := v]) == Sum(m) - (if k in m then m[k] else 0) + v
  {
    SumWithout(m[k := v], k);
    assert m[k := v] - {k} == m - {k};
    if k in m { SumWithout(m, k); } else { assert m - {k} == m; }
  }

  lemma {:induction false} SumNonNegative<K(!new)>(m: map<K, int>)
    requires forall k | k in m :: m[k] >= 0
    ensures Sum(m) >= 0
    ensures forall k | k in m :: m[k] <= Sum(m)
    decreases |m|
  {
    forall k | k in m
      ensures 0 <= m[k] <= Sum(m)
    {
      SumWithout(m, k);
      SumNonNegative(m - {k});
    }
    if m == map[] {} else { var k :| k in m; assert m[k] >= 0; }
  }

  lemma {:induction false} SumZero<K(!new)>(m: map<K, int>)
    requires forall k | k in m :: m[k] == 0
    ensures Sum(m) == 0
    decreases |m|
  {
    if m != map[] {
      var k :| k in m;
      SumWithout(m, k);
      SumZero(m - {k});
    }
  }

  lemma {:induction false} SumPointwiseAtMost<K(!new)>(low: map<K, int>, high: map<K, int>)
    requires low.Keys == high.Keys
    requires forall k | k in low :: low[k] <= high[k]
    ensures Sum(low) <= Sum(high)
    decreases |low|
  {
    if low != map[] {
      var k :| k in low;
      SumWithout(low, k);
      SumWithout(high, k);
      SumPointwiseAtMost(low - {k}, high - {k});
    } else {
      assert high == map[];
    }
  }

  /** Lowering every value by `d` lowers the sum by `d` per entry. */
  lemma {:induction false} SumLowered<K(!new)>(m: map<K, int>, low: map<K, int>, d: int)
    requires low.Keys == m.Keys && forall k | k in m :: low[k] == m[k] - d
    ensures Sum(low) == Sum(m) - |m| * d
    decreases |m|
  {
    if m == map[] {
      assert low == map[];
    } else {
      var k :| k in m;
      SumWithout(m, k);
      SumWithout(low, k);
      SumLowered(m - {k}, low - {k}, d);
      OneLess(|m|, d);
      assert |m - {k}| == |m| - 1;
    }
  }

  lemma OneLess(n: int, d: int)
    ensures (n - 1) * d == n * d - d
  {
  }
}
