/** Shares in basis points and the payouts computed from them: how much a distribution pays
    in total, and how much of the repaid amount truncation leaves behind. */
module Shares {
  import opened Validation
  import opened Sums

  /** Each value multiplied by `num / den` and rounded down. */
  ghost function Scaled<K(!new)>(m: map<K, int>, num: int, den: int): map<K, int>
    requires den > 0
  {
    map k | k in m :: m[k] * num / den
  }

  /** Rounding n values down loses less than n in total. */
  lemma {:induction false} ScaledSum<K(!new)>(m: map<K, int>, num: int, den: int)
    requires den > 0 && num >= 0 && forall k | k in m :: m[k] >= 0
    ensures var floors := Sum(Scaled(m, num, den));
            floors * den <= Sum(m) * num <= floors * den + |m| * (den - 1)
    decreases |m|
  {
    if m == map[] {
      assert Scaled(m, num, den) == map[];
    } else {
      var k :| k in m;
      var rest := m - {k};
      ScaledSum(rest, num, den);
      ScaledWithout(m, k, num, den);
      OneMore(m[k], Sum(rest), Sum(Scaled(rest, num, den)), |rest|, num, den);
      assert |m| == |rest| + 1;
    }
  }

  /** Values of at most `den` in total keep at most `num` when scaled. */
  lemma ScaledWithin<K(!new)>(m: map<K, int>, num: int, den: int)
    requires den > 0 && num >= 0 && forall k | k in m :: m[k] >= 0
    requires Sum(m) <= den
    ensures Sum(Scaled(m, num, den)) <= num
  {
    ScaledSum(m, num, den);
    MulMono(Sum(m), den, num);
    MulOrder(Sum(Scaled(m, num, den)), num, den);
  }

  lemma ScaledWithout<K(!new)>(m: map<K, int>, k: K, num: int, den: int)
    requires den > 0 && k in m
    ensures Sum(m) == m[k] + Sum(m - {k})
    ensures Sum(Scaled(m, num, den)) == m[k] * num / den + Sum(Scaled(m - {k}, num, den))
  {
    SumWithout(m, k);
    SumWithout(Scaled(m, num, den), k);
    assert Scaled(m, num, den) - {k} == Scaled(m - {k}, num, den);
  }

  lemma OneMore(v: int, sum: int, floors: int, n: int, num: int, den: int)
    requires den > 0 && num >= 0 && v >= 0 && n >= 0
    requires floors * den <= sum * num <= floors * den + n * (den - 1)
    ensures var f := v * num / den + floors;
            f * den <= (v + sum) * num <= f * den + (n + 1) * (den - 1)
  {
    MulMono(0, v, num);
    var q := v * num / den;
    DivBounds(v * num, den);
    assert (q + floors) * den == q * den + floors * den && (q + 1) * den == q * den + den;
    assert (v + sum) * num == v * num + sum * num;
    assert (n + 1) * (den - 1) == n * (den - 1) + (den - 1);
  }

  /** Positions recorded against one total hold at most 10_000 bps, and more than
      10_000 - n when the contributions make up the whole total. */
  lemma SharesOfOneTotal<K(!new)>(contributed: map<K, int>, total: int)
    requires total > 0 && forall k | k in contributed :: contributed[k] >= 0
    requires Sum(contributed) <= total
    ensures Sum(Scaled(contributed, BPS, total)) <= BPS
    ensures Sum(contributed) == total ==> BPS - |contributed| < Sum(Scaled(contributed, BPS, total))
  {
    var shares := Sum(Scaled(contributed, BPS, total));
    var n := |contributed|;
    ScaledWithin(contributed, BPS, total);
    ScaledSum(contributed, BPS, total);
    if Sum(contributed) == total { SharesArithmetic(shares, total, n); }
  }

  lemma SharesArithmetic(shares: int, total: int, n: int)
    requires total > 0 && n > 0 && total * BPS <= shares * total + n * (total - 1)
    ensures BPS - n < shares
  {
    assert n * (total - 1) == n * total - n && (BPS - n) * total == BPS * total - n * total;
    if shares <= BPS - n { MulMono(shares, BPS - n, total); }
  }

  /** The dust bound for a pool whose positions were recorded against their own sum: the
      payouts never exceed the repaid amount, and leave behind less than
      n + n * repaid / 10_000 (stated multiplied by 10_000). */
  lemma DustBound<K(!new)>(contributed: map<K, int>, total: int, repaid: int)
    requires total > 0 && repaid > 0 && forall k | k in contributed :: contributed[k] >= 0
    requires Sum(contributed) == total
    ensures var n := |contributed|;
            var paid := Sum(Scaled(Scaled(contributed, BPS, total), repaid, BPS));
            && paid <= repaid
            && repaid * BPS - n * BPS - n * repaid < paid * BPS
  {
    var shares := Scaled(contributed, BPS, total);
    forall k | k in shares
      ensures shares[k] >= 0
    {
      MulMono(0, contributed[k], BPS);
      DivBounds(contributed[k] * BPS, total);
    }
    SharesOfOneTotal(contributed, total);
    ScaledSum(shares, repaid, BPS);
    assert shares.Keys == contributed.Keys && |shares| == |shares.Keys|;
    DustArithmetic(|contributed|, Sum(shares), Sum(Scaled(shares, repaid, BPS)), repaid);
  }

  lemma DustArithmetic(n: int, shares: int, paid: int, repaid: int)
    requires n >= 0 && repaid > 0 && BPS - n < shares <= BPS
    requires paid * BPS <= shares * repaid <= paid * BPS + n * (BPS - 1)
    ensures paid <= repaid && repaid * BPS - n * BPS - n * repaid < paid * BPS
  {
    MulMono(shares, BPS, repaid);
    MulMono(BPS - n + 1, shares, repaid);
    assert (BPS - n + 1) * repaid == BPS * repaid - n * repaid + repaid;
  }

  /** Three equal investors lose 100_000_000 units of a repayment of 10^12, not 3. */
  lemma ThreeEqualInvestors()
    ensures var total, contributed := 3_000_000, map[0 := 1_000_000, 1 := 1_000_000, 2 := 1_000_000];
            Sum(contributed) == total &&
            Sum(Scaled(Scaled(contributed, BPS, total), 1_000_000_000_000, BPS)) == 1_000_000_000_000 - 100_000_000
  {
    var total, contributed := 3_000_000, map[0 := 1_000_000, 1 := 1_000_000, 2 := 1_000_000];
    var paid := Scaled(Scaled(contributed, BPS, total), 1_000_000_000_000, BPS);
    assert paid == map[0 := 333_300_000_000, 1 := 333_300_000_000, 2 := 333_300_000_000];
    SumOfThree(contributed, 1_000_000);
    SumOfThree(paid, 333_300_000_000);
  }

  lemma SumOfThree(m: map<int, int>, v: int)
    requires m == map[0 := v, 1 := v, 2 := v]
    ensures Sum(m) == 3 * v
  {
    SumUpdate(map[0 := v, 1 := v], 2, v);
    SumUpdate(map[0 := v], 1, v);
    SumUpdate(map[], 0, v);
    assert map[][0 := v] == map[0 := v] && map[0 := v][1 := v] == map[0 := v, 1 := v];
    assert map[0 := v, 1 := v][2 := v] == m;
  }
}
