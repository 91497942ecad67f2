/** Exactly what truncation can leave behind of a repaid amount, in a token of any number of
    decimals: the documented bound of one unit per position, and when it holds. */
module Dust {
  import opened Validation
  import opened BasisPoints
  import opened Sums
  import opened Records
  import opened Distribution
  import Shares

  /** What a distribution of `repaid` leaves in the pool. */
  ghost function Lost(ps: Positions, repaid: i128, decimals: u32): int {
    repaid - Sum(Payouts(ps, repaid, decimals, ps.Keys))
  }

  /** No payout overflows. */
  ghost predicate Computable(ps: Positions, repaid: i128, decimals: u32) {
    repaid >= 0 && forall h | h in ps :: BpsOfNormalized(repaid, ps[h].shareBps, decimals).Ok?
  }

  /** The holders that are paid at all. */
  ghost function Sharing(ps: Positions): set<Address> {
    set h | h in ps && ps[h].shareBps > 0
  }

  // ── The floors over the positive shares ────────────────────────────────────

  lemma {:induction false} SumOver<K(!new)>(m: map<K, int>, kept: map<K, int>)
    requires kept.Keys <= m.Keys && forall k | k in kept :: kept[k] == m[k]
    requires forall k | k in m && k !in kept :: m[k] == 0
    ensures Sum(m) == Sum(kept)
    decreases |m|
  {
    if m == map[] {
      assert kept == map[];
    } else {
      var k :| k in m;
      SumWithout(m, k);
      SumOver(m - {k}, kept - {k});
      if k in kept { SumWithout(kept, k); } else { assert kept - {k} == kept; }
    }
  }

  lemma {:induction false} SumTimes<K(!new)>(m: map<K, int>, times: map<K, int>, c: int)
    requires times.Keys == m.Keys && forall k | k in m :: times[k] == c * m[k]
    ensures Sum(times) == c * Sum(m)
    decreases |m|
  {
    if m == map[] {
      assert times == map[];
    } else {
      var k :| k in m;
      SumWithout(m, k);
      SumWithout(times, k);
      SumTimes(m - {k}, times - {k}, c);
      TimesSum(c, m[k], Sum(m - {k}));
    }
  }

  lemma TimesSum(c: int, a: int, b: int)
    ensures c * (a + b) == c * a + c * b
  {
  }

  lemma TimesDifference(c: int, a: int, b: int)
    ensures c * (a - b) == c * a - c * b
  {
  }

  /** The shares that are positive. */
  ghost function Positive(ps: Positions): map<Address, int> {
    map h | h in Sharing(ps) :: ps[h].shareBps
  }

  lemma OnlyPositive(ps: Positions, n: nat)
    ensures Sum(ShareMap(ps)) == Sum(Positive(ps)) && |Positive(ps)| == |Sharing(ps)|
    ensures Sum(Shares.Scaled(ShareMap(ps), n, BPS)) == Sum(Shares.Scaled(Positive(ps), n, BPS))
  {
    SumOver(ShareMap(ps), Positive(ps));
    SumOver(Shares.Scaled(ShareMap(ps), n, BPS), Shares.Scaled(Positive(ps), n, BPS));
    assert Positive(ps).Keys == Sharing(ps);
  }

  /** Of `n` whole grains at most one less than the number of paid holders is lost. */
  lemma GrainsLost(ps: Positions, n: nat)
    requires Sum(ShareMap(ps)) == BPS
    ensures 0 <= n - Sum(Shares.Scaled(ShareMap(ps), n, BPS)) <= |Sharing(ps)| - 1
  {
    OnlyPositive(ps, n);
    Shares.ScaledSum(Positive(ps), n, BPS);
  }

  /** Of 9_999 grains exactly that many are. */
  lemma MostGrainsLost(ps: Positions)
    requires Sum(ShareMap(ps)) <= BPS
    ensures Sum(Shares.Scaled(ShareMap(ps), BPS - 1, BPS)) == Sum(ShareMap(ps)) - |Sharing(ps)|
  {
    OnlyPositive(ps, BPS - 1);
    ShareAtMostAll(ps);
    SumLowered(Positive(ps), Shares.Scaled(Positive(ps), BPS - 1, BPS), 1);
  }

  // ── Payouts are whole grains ───────────────────────────────────────────────

  lemma PayoutInGrains(amount: i128, bps: u32, decimals: u32)
    requires BpsOfNormalized(amount, bps, decimals).Ok?
    ensures BpsOfNormalized(amount, bps, decimals).value == Grain(decimals) * (bps * (amount / Grain(decimals)) / BPS)
  {
    var K := Grain(decimals);
    if decimals <= STANDARD_DECIMALS {
      FewDecimals(amount, bps, decimals);
      Commute(amount, bps);
    } else {
      DivBounds(amount, K);
      MulMono(0, amount / K, bps);
      Commute(amount / K, bps);
    }
  }

  lemma LostInGrains(ps: Positions, repaid: i128, decimals: u32)
    requires Computable(ps, repaid, decimals)
    ensures var K := Grain(decimals);
            && 0 <= repaid - K * (repaid / K) <= K - 1
            && Lost(ps, repaid, decimals)
                 == repaid - K * Sum(Shares.Scaled(ShareMap(ps), repaid / K, BPS))
  {
    var K := Grain(decimals);
    DivMod(repaid, K);
    forall h | h in ps
      ensures PayoutOf(ps[h], repaid, decimals) == K * (ps[h].shareBps * (repaid / K) / BPS)
    {
      PayoutInGrains(repaid, ps[h].shareBps, decimals);
    }
    SumTimes(Shares.Scaled(ShareMap(ps), repaid / K, BPS), Payouts(ps, repaid, decimals, ps.Keys), K);
  }

  const ROOM: int := 10_000_000 * BPS

  lemma ComputesOne(amount: i128, bps: u32, decimals: u32)
    requires amount >= 0 && bps <= BPS && Grain(decimals) <= I128_MAX
    requires amount / Grain(decimals) * ROOM <= I128_MAX
    ensures BpsOfNormalized(amount, bps, decimals).Ok?
  {
    var n := amount / Grain(decimals);
    DivBounds(amount, Grain(decimals));
    MulMono(bps, BPS, n);
    if decimals <= STANDARD_DECIMALS {
      var scale := Pow10(STANDARD_DECIMALS - decimals);
      Pow10UpTo7(STANDARD_DECIMALS - decimals);
      MulMono(scale, 10_000_000, amount);
      MulMono(0, amount, scale);
      MulMono(bps, BPS, amount * scale);
      FewDecimals(amount, bps, decimals);
    } else {
      ManyDecimals(amount, bps, decimals);
    }
  }

  /** Up to 10^27 grains every payout can be computed. */
  lemma Computes(ps: Positions, repaid: i128, decimals: u32)
    requires repaid >= 0 && Sum(ShareMap(ps)) <= BPS && Grain(decimals) <= I128_MAX
    requires repaid / Grain(decimals) * ROOM <= I128_MAX
    ensures Computable(ps, repaid, decimals)
  {
    ShareAtMostAll(ps);
    forall h | h in ps
      ensures BpsOfNormalized(repaid, ps[h].shareBps, decimals).Ok?
    {
      ComputesOne(repaid, ps[h].shareBps, decimals);
    }
  }

  // ── The largest loss ───────────────────────────────────────────────────────

  /** With shares of 10_000 in total, the digits below the grain and one grain less than the
      number of paid holders. */
  ghost function LargestLoss(ps: Positions, decimals: u32): int {
    Grain(decimals) * |Sharing(ps)| - 1
  }

  lemma LossAtMost(ps: Positions, repaid: i128, decimals: u32)
    requires Computable(ps, repaid, decimals) && Sum(ShareMap(ps)) == BPS
    ensures 0 <= Lost(ps, repaid, decimals) <= LargestLoss(ps, decimals)
  {
    var K, n := Grain(decimals), repaid / Grain(decimals);
    LostInGrains(ps, repaid, decimals);
    DivMod(repaid, K);
    GrainsLost(ps, n);
    var paid := Sum(Shares.Scaled(ShareMap(ps), n, BPS));
    LossArithmetic(K, n, paid, |Sharing(ps)|);
  }

  lemma LossArithmetic(K: int, n: int, paid: int, m: int)
    requires K >= 1 && 0 <= n - paid <= m - 1
    ensures 0 <= K * n - K * paid <= K * m - K
  {
    MulMono(paid, n, K);
    MulMono(n - paid, m - 1, K);
    assert (n - paid) * K == K * n - K * paid && (m - 1) * K == K * m - K;
  }

  lemma Grains(K: int, n: int, rest: int)
    requires K >= 1 && n >= 0 && 0 <= rest < K
    ensures (K * n + rest) / K == n && K * n >= 0
  {
    MulMono(0, n, K);
    assert K * n == n * K && (n + 1) * K == n * K + K;
    FloorIs(K * n + rest, K, n);
  }

  /** It is reached by repaying one unit less than 10_000 grains. */
  lemma LossReached(ps: Positions, decimals: u32)
    requires Sum(ShareMap(ps)) == BPS && Grain(decimals) * BPS <= I128_MAX
    ensures Computable(ps, Grain(decimals) * BPS - 1, decimals)
    ensures Lost(ps, Grain(decimals) * BPS - 1, decimals) == LargestLoss(ps, decimals)
  {
    var K := Grain(decimals);
    Grains(K, BPS - 1, K - 1);
    assert K * (BPS - 1) + (K - 1) == K * BPS - 1;
    Computes(ps, K * BPS - 1, decimals);
    LostInGrains(ps, K * BPS - 1, decimals);
    MostGrainsLost(ps);
    TimesDifference(K, BPS, |Sharing(ps)|);
  }

  /** When shares total 10_000, `LargestLoss` is the largest loss there is, over all amounts
      whose payouts can be computed, in every token where 10_000 grains fit. */
  lemma LargestLossExactly(ps: Positions, decimals: u32)
    requires Sum(ShareMap(ps)) == BPS
    ensures forall repaid: i128 | Computable(ps, repaid, decimals) ::
              0 <= Lost(ps, repaid, decimals) <= LargestLoss(ps, decimals)
    ensures Grain(decimals) * BPS <= I128_MAX ==>
              exists repaid: i128 :: Computable(ps, repaid, decimals)
                && Lost(ps, repaid, decimals) == LargestLoss(ps, decimals)
  {
    forall repaid: i128 | Computable(ps, repaid, decimals)
      ensures 0 <= Lost(ps, repaid, decimals) <= LargestLoss(ps, decimals)
    {
      LossAtMost(ps, repaid, decimals);
    }
    if Grain(decimals) * BPS <= I128_MAX { LossReached(ps, decimals); }
  }

  // ── The documented bound ───────────────────────────────────────────────────

  /** The documented bound: of no amount more than one unit per position is lost. */
  ghost predicate OneUnitEach(ps: Positions, decimals: u32) {
    forall repaid: i128 | Computable(ps, repaid, decimals) :: Lost(ps, repaid, decimals) <= |ps|
  }

  /** Nothing is paid of less than a grain. */
  lemma LessThanAGrain(ps: Positions, decimals: u32)
    requires Sum(ShareMap(ps)) <= BPS && Grain(decimals) <= I128_MAX
    ensures Computable(ps, Grain(decimals) - 1, decimals)
    ensures Lost(ps, Grain(decimals) - 1, decimals) == Grain(decimals) - 1
  {
    var K := Grain(decimals);
    Grains(K, 0, K - 1);
    Computes(ps, K - 1, decimals);
    LostInGrains(ps, K - 1, decimals);
    SumZero(Shares.Scaled(ShareMap(ps), 0, BPS));
  }

  /** Of `j` times 10_000 grains every missing basis point takes `j` grains. */
  lemma MissingShares(ps: Positions, decimals: u32, j: nat)
    requires Sum(ShareMap(ps)) < BPS && j >= 1 && Grain(decimals) * (BPS * j) <= I128_MAX
    requires Grain(decimals) <= I128_MAX && BPS * j * ROOM <= I128_MAX
    ensures Computable(ps, Grain(decimals) * (BPS * j), decimals)
    ensures Lost(ps, Grain(decimals) * (BPS * j), decimals) >= Grain(decimals) * j
  {
    var K, n, shares := Grain(decimals), BPS * j, Sum(ShareMap(ps));
    Grains(K, n, 0);
    Computes(ps, K * n, decimals);
    LostInGrains(ps, K * n, decimals);
    Shares.ScaledSum(ShareMap(ps), n, BPS);
    MissingArithmetic(K, shares, Sum(Shares.Scaled(ShareMap(ps), n, BPS)), j);
  }

  lemma MissingArithmetic(K: int, shares: int, paid: int, j: int)
    requires K >= 1 && shares <= BPS - 1 && j >= 0 && paid * BPS <= shares * (BPS * j)
    ensures K * (BPS * j) - K * paid >= K * j
  {
    MulMono(shares, BPS - 1, BPS * j);
    assert paid <= BPS * j - j;
    MulMono(j, BPS * j - paid, K);
    assert (BPS * j - paid) * K == K * (BPS * j) - K * paid;
  }

  lemma LotsFit(K: int, n: nat)
    requires 1 <= K <= n < 0x1_0000_0000
    ensures K * (BPS * (n + 1)) <= I128_MAX && BPS * (n + 1) * ROOM <= I128_MAX && K * (n + 1) > n
  {
    MulMono(K, 0x1_0000_0000, BPS * (n + 1));
    MulMono(1, K, n + 1);
  }

  lemma SharesMissing(ps: Positions, decimals: u32)
    requires |ps| < 0x1_0000_0000 && Sum(ShareMap(ps)) < BPS && Grain(decimals) * BPS <= I128_MAX
    ensures !OneUnitEach(ps, decimals)
  {
    var K, n := Grain(decimals), |ps|;
    var j := if K > n then 1 else n + 1;
    if K <= n { LotsFit(K, n); }
    MissingShares(ps, decimals, j);
    assert Lost(ps, K * (BPS * j), decimals) > n;
  }

  lemma BoundMissed(ps: Positions, decimals: u32)
    requires |ps| < 0x1_0000_0000 && Sum(ShareMap(ps)) <= BPS && Grain(decimals) <= I128_MAX
    requires Sum(ShareMap(ps)) < BPS || LargestLoss(ps, decimals) > |ps|
    ensures !OneUnitEach(ps, decimals)
  {
    var K := Grain(decimals);
    if K * BPS > I128_MAX {
      LessThanAGrain(ps, decimals);
      assert Lost(ps, K - 1, decimals) > |ps|;
    } else if Sum(ShareMap(ps)) == BPS {
      LossReached(ps, decimals);
      assert Lost(ps, K * BPS - 1, decimals) > |ps|;
    } else {
      SharesMissing(ps, decimals);
    }
  }

  /** It holds exactly when the truncated shares still total 10_000 and the largest loss is
      within it, as it is up to 7 decimals; or when no payout can ever be computed because
      not even one grain fits. */
  lemma DocumentedDustBound(ps: Positions, decimals: u32)
    requires |ps| < 0x1_0000_0000 && Sum(ShareMap(ps)) <= BPS
    ensures OneUnitEach(ps, decimals) <==>
              || (Sum(ShareMap(ps)) == BPS && LargestLoss(ps, decimals) <= |ps|)
              || (Grain(decimals) > I128_MAX && ps != map[])
    ensures decimals <= STANDARD_DECIMALS ==> LargestLoss(ps, decimals) <= |ps|
  {
    SharingFits(ps);
    if Grain(decimals) <= I128_MAX {
      if Sum(ShareMap(ps)) == BPS && LargestLoss(ps, decimals) <= |ps| { LargestLossExactly(ps, decimals); }
      else { BoundMissed(ps, decimals); }
    } else {
      NothingComputes(ps, decimals);
    }
  }

  lemma SharingFits(ps: Positions)
    ensures |Sharing(ps)| <= |ps|
  {
    SetWithin(Sharing(ps), ps.Keys);
    assert |ps| == |ps.Keys|;
  }

  lemma {:induction false} SetWithin<T>(a: set<T>, b: set<T>)
    requires a <= b
    ensures |a| <= |b|
    decreases |a|
  {
    if a != {} {
      var x :| x in a;
      SetWithin(a - {x}, b - {x});
    }
  }

  lemma NothingComputes(ps: Positions, decimals: u32)
    requires Grain(decimals) > I128_MAX
    ensures OneUnitEach(ps, decimals) <==> ps != map[]
    ensures Sum(ShareMap(ps)) != BPS || ps != map[]
  {
    if ps == map[] {
      assert ShareMap(ps) == map[];
      assert Payouts(ps, 1, decimals, ps.Keys) == map[];
      assert Computable(ps, 1, decimals) && Lost(ps, 1, decimals) > |ps|;
    } else {
      var h :| h in ps;
      forall repaid: i128
        ensures !Computable(ps, repaid, decimals)
      {
        assert BpsOfNormalized(repaid, ps[h].shareBps, decimals).Err?;
      }
    }
  }

  /** Two equal holders of everything, a token with 8 decimals, 19 units: all are lost. */
  lemma TwoHalvesLoseAll(one: Position, two: Position)
    requires one.shareBps == two.shareBps == 5_000
    ensures var ps := map[1 := one, 2 := two];
            && Sum(ShareMap(ps)) == BPS && Computable(ps, 19, 8)
            && Lost(ps, 19, 8) == LargestLoss(ps, 8) == 19 > |ps|
  {
    var ps := map[1 := one, 2 := two];
    SumWithout(ShareMap(ps), 1);
    SumWithout(ShareMap(ps) - {1}, 2);
    assert ShareMap(ps) - {1} - {2} == map[];
    assert Pow10(1) == 10;
    Computes(ps, 19, 8);
    assert Payouts(ps, 19, 8, ps.Keys) == map[1 := 0, 2 := 0];
    SumZero(Payouts(ps, 19, 8, ps.Keys));
    assert Sharing(ps) == {1, 2};
  }

  // ── Never more than was repaid ─────────────────────────────────────────────

  /** Of whole lots of 10_000 grains the shares are paid exactly. */
  lemma WholeLots(ps: Positions, decimals: u32)
    requires Grain(decimals) * BPS <= I128_MAX && forall h | h in ps :: ps[h].shareBps <= BPS
    ensures Computable(ps, Grain(decimals) * BPS, decimals)
    ensures Lost(ps, Grain(decimals) * BPS, decimals) == Grain(decimals) * (BPS - Sum(ShareMap(ps)))
  {
    var K := Grain(decimals);
    Grains(K, BPS, 0);
    forall h | h in ps
      ensures BpsOfNormalized(K * BPS, ps[h].shareBps, decimals).Ok?
    {
      ComputesOne(K * BPS, ps[h].shareBps, decimals);
    }
    LostInGrains(ps, K * BPS, decimals);
    assert Shares.Scaled(ShareMap(ps), BPS, BPS) == ShareMap(ps);
    TimesDifference(K, BPS, Sum(ShareMap(ps)));
  }

  lemma Negative(K: int, x: int)
    requires K >= 1 && x < 0
    ensures K * x < 0
  {
    MulMono(x, -1, K);
  }

  ghost predicate NeverOverpays(ps: Positions, decimals: u32) {
    forall repaid: i128 | Computable(ps, repaid, decimals) :: Lost(ps, repaid, decimals) >= 0
  }

  /** A distribution fits in what was repaid, whatever the amount, exactly when the shares
      total at most 10_000, in every token where 10_000 grains fit; each share alone is at
      most that as recorded. */
  lemma FitsWhateverIsRepaid(ps: Positions, decimals: u32)
    requires forall h | h in ps :: ps[h].shareBps <= BPS
    ensures Sum(ShareMap(ps)) <= BPS ==> NeverOverpays(ps, decimals)
    ensures Grain(decimals) * BPS <= I128_MAX ==> (NeverOverpays(ps, decimals) <==> Sum(ShareMap(ps)) <= BPS)
  {
    if Sum(ShareMap(ps)) <= BPS {
      forall repaid: i128 | Computable(ps, repaid, decimals)
        ensures Lost(ps, repaid, decimals) >= 0
      {
        PaysAtMostRepaid(ps, repaid, decimals);
      }
    } else if Grain(decimals) * BPS <= I128_MAX {
      WholeLots(ps, decimals);
      Negative(Grain(decimals), BPS - Sum(ShareMap(ps)));
      assert Lost(ps, Grain(decimals) * BPS, decimals) < 0;
    }
  }
}
