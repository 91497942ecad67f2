/** What one distribution moves: the closed form of the pool's payout loop. */
module Distribution {
  import opened Outcomes
  import opened Validation
  import opened BasisPoints
  import opened Sums
  import opened Records
  import opened TokenLedger
  import Shares
  import Pools = PoolSpec

  /** A position's payout, 0 when it cannot be computed. */
  ghost function PayoutOf(position: Position, repaid: i128, decimals: u32): int {
    match BpsOfNormalized(repaid, position.shareBps, decimals)
    case Ok(v) => v
    case Err(_) => 0
  }

  ghost function Payouts(ps: Positions, repaid: i128, decimals: u32, to: set<Address>): map<Address, int>
    requires to <= ps.Keys
  {
    map h | h in to :: PayoutOf(ps[h], repaid, decimals)
  }

  ghost function Contributed(ps: Positions, holders: set<Address>): map<Address, int>
    requires holders <= ps.Keys
  {
    map h | h in holders :: ps[h].contributed
  }

  ghost function ShareMap(ps: Positions): map<Address, int> {
    map h | h in ps :: ps[h].shareBps
  }

  /** Every holder gets their payout, and the pool's balance pays for all of them. */
  ghost predicate Paid(b: Balances, b': Balances, token: Address, pool: Address, payouts: map<Address, int>) {
    forall t, h :: Balance(b', t, h) == Balance(b, t, h)
      + (if t == token && h in payouts then payouts[h] else 0)
      - (if t == token && h == pool then Sum(payouts) else 0)
  }

  /** What the payouts take out of the pool's balance: one to the pool itself takes nothing. */
  ghost function Outflow(payouts: map<Address, int>, pool: Address): int {
    Sum(payouts) - (if pool in payouts then payouts[pool] else 0)
  }

  lemma PayoutsSplit(ps: Positions, repaid: i128, decimals: u32, rest: set<Address>, h: Address)
    requires rest <= ps.Keys && h in rest
    ensures Sum(Payouts(ps, repaid, decimals, rest))
         == PayoutOf(ps[h], repaid, decimals) + Sum(Payouts(ps, repaid, decimals, rest - {h}))
  {
    SumWithout(Payouts(ps, repaid, decimals, rest), h);
    assert Payouts(ps, repaid, decimals, rest) - {h} == Payouts(ps, repaid, decimals, rest - {h});
  }

  lemma ContributedSplits(ps: Positions, rest: set<Address>, h: Address)
    requires rest <= ps.Keys && h in rest
    ensures Sum(Contributed(ps, rest)) == ps[h].contributed + Sum(Contributed(ps, rest - {h}))
  {
    SumWithout(Contributed(ps, rest), h);
    assert Contributed(ps, rest) - {h} == Contributed(ps, rest - {h});
  }

  /** One turn of a distribution that goes through: who is paid, and the balances after. */
  lemma Turn(cfg: Config, b: Balances, token: Address, decimals: u32, ps: Positions, repaid: i128,
             rest: set<Address>, settled: i128)
    returns (h: Address, after: Balances)
    requires rest <= ps.Keys && rest != {}
    requires Pools.PayHolders(cfg, b, token, decimals, ps, repaid, rest, settled).Ok?
    ensures h in rest && BpsOfNormalized(repaid, ps[h].shareBps, decimals).Ok?
    ensures Paid(b, after, token, cfg.pool, map[h := PayoutOf(ps[h], repaid, decimals)])
    ensures Pools.PayHolders(cfg, b, token, decimals, ps, repaid, rest, settled)
         == Pools.PayHolders(cfg, after, token, decimals, ps, repaid, rest - {h}, Saturate(settled + ps[h].contributed))
  {
    h := Pools.NextHolder(rest);
    Pools.PayNext(cfg, b, token, decimals, ps, repaid, rest, settled, h);
    var payout := BpsOfNormalized(repaid, ps[h].shareBps, decimals).value;
    after := Transfer(b, token, cfg.pool, h, payout).value;
    SumWithout(map[h := payout], h);
    assert map[h := payout] - {h} == map[];
  }

  lemma {:induction false} PayHoldersPays(cfg: Config, b: Balances, token: Address, decimals: u32, ps: Positions,
                                          repaid: i128, rest: set<Address>, settled: i128)
    requires rest <= ps.Keys
    requires Pools.PayHolders(cfg, b, token, decimals, ps, repaid, rest, settled).Ok?
    ensures forall h | h in rest :: BpsOfNormalized(repaid, ps[h].shareBps, decimals).Ok?
    ensures Paid(b, Pools.PayHolders(cfg, b, token, decimals, ps, repaid, rest, settled).value.0,
                 token, cfg.pool, Payouts(ps, repaid, decimals, rest))
    decreases |rest|
  {
    if rest == {} {
      assert Payouts(ps, repaid, decimals, rest) == map[];
    } else {
      var h, after := Turn(cfg, b, token, decimals, ps, repaid, rest, settled);
      PayHoldersPays(cfg, after, token, decimals, ps, repaid, rest - {h}, Saturate(settled + ps[h].contributed));
      assert Payouts(ps, repaid, decimals, rest) - {h} == Payouts(ps, repaid, decimals, rest - {h});
      PaidOnwards(b, after, Pools.PayHolders(cfg, b, token, decimals, ps, repaid, rest, settled).value.0,
                  token, cfg.pool, h, Payouts(ps, repaid, decimals, rest));
    }
  }

  /** Paying one holder and then the others pays all of them. */
  lemma PaidOnwards(b: Balances, b': Balances, b'': Balances, token: Address, pool: Address, h: Address,
                    payouts: map<Address, int>)
    requires h in payouts
    requires Paid(b, b', token, pool, map[h := payouts[h]]) && Paid(b', b'', token, pool, payouts - {h})
    ensures Paid(b, b'', token, pool, payouts)
  {
    var one: map<Address, int> := map[h := payouts[h]];
    SumWithout<Address>(one, h);
    assert one - {h} == map[];
    SumWithout(payouts, h);
    forall t, x
      ensures Balance(b'', t, x) == Balance(b, t, x)
        + (if t == token && x in payouts then payouts[x] else 0)
        - (if t == token && x == pool then Sum(payouts) else 0)
    {
      assert Balance(b'', t, x) == Balance(b', t, x)
        + (if t == token && x in payouts - {h} then payouts[x] else 0)
        - (if t == token && x == pool then Sum(payouts - {h}) else 0);
      assert Balance(b', t, x) == Balance(b, t, x)
        + (if t == token && x in one then one[x] else 0)
        - (if t == token && x == pool then Sum(one) else 0);
    }
  }

  lemma ContributedNonNegative(ps: Positions, holders: set<Address>)
    requires holders <= ps.Keys && forall h | h in holders :: ps[h].contributed >= 0
    ensures Sum(Contributed(ps, holders)) >= 0
  {
    SumNonNegative(Contributed(ps, holders));
  }

  /** The saturating total of settled contributions is exact while it fits. */
  lemma {:induction false} SettledExact(cfg: Config, b: Balances, token: Address, decimals: u32, ps: Positions,
                                        repaid: i128, rest: set<Address>, settled: i128)
    requires rest <= ps.Keys
    requires Pools.PayHolders(cfg, b, token, decimals, ps, repaid, rest, settled).Ok?
    requires (forall h | h in ps :: ps[h].contributed >= 0) && settled >= 0
    requires settled + Sum(Contributed(ps, rest)) <= I128_MAX
    ensures Pools.PayHolders(cfg, b, token, decimals, ps, repaid, rest, settled).value.1
         == settled + Sum(Contributed(ps, rest))
    decreases |rest|
  {
    if rest == {} {
      assert Contributed(ps, rest) == map[];
    } else {
      var h, after := Turn(cfg, b, token, decimals, ps, repaid, rest, settled);
      ContributedSplits(ps, rest, h);
      ContributedNonNegative(ps, rest - {h});
      var next := Saturate(settled + ps[h].contributed);
      assert next == settled + ps[h].contributed;
      SettledExact(cfg, after, token, decimals, ps, repaid, rest - {h}, next);
    }
  }

  lemma PayoutNonNegative(position: Position, repaid: i128, decimals: u32)
    requires position.shareBps <= BPS
    ensures PayoutOf(position, repaid, decimals) >= 0
  {
    if BpsOfNormalized(repaid, position.shareBps, decimals).Ok? {
      NeverAboveExactShare(repaid, position.shareBps, decimals);
    }
  }

  /** With the payouts' total in the pool's balance, no transfer of a distribution fails, in
      whatever order the holders are paid. */
  lemma {:induction false} NeverShort(cfg: Config, b: Balances, token: Address, decimals: u32, ps: Positions,
                                      repaid: i128, rest: set<Address>, settled: i128)
    requires rest <= ps.Keys
    requires forall h | h in rest :: ps[h].shareBps <= BPS
    requires Balance(b, token, cfg.pool) >= Sum(Payouts(ps, repaid, decimals, rest))
    ensures Pools.PayHolders(cfg, b, token, decimals, ps, repaid, rest, settled) != Err(TransferFailed)
    decreases |rest|
  {
    if rest != {} {
      var h := Pools.NextHolder(rest);
      Pools.PayNext(cfg, b, token, decimals, ps, repaid, rest, settled, h);
      PayoutsSplit(ps, repaid, decimals, rest, h);
      PayoutNonNegative(ps[h], repaid, decimals);
      PayoutsNonNegative(ps, repaid, decimals, rest - {h});
      ComputeError(repaid, ps[h].shareBps, decimals);
      if BpsOfNormalized(repaid, ps[h].shareBps, decimals).Ok?
          && Fit(PayoutOf(ps[h], repaid, decimals) - ps[h].contributed).Ok? {
        var b1 := Transfer(b, token, cfg.pool, h, PayoutOf(ps[h], repaid, decimals)).value;
        NeverShort(cfg, b1, token, decimals, ps, repaid, rest - {h}, Saturate(settled + ps[h].contributed));
      }
    }
  }

  /** If every payout can be computed too, the whole distribution goes through. */
  lemma {:induction false} AllPaid(cfg: Config, b: Balances, token: Address, decimals: u32, ps: Positions,
                                   repaid: i128, rest: set<Address>, settled: i128)
    requires rest <= ps.Keys
    requires forall h | h in rest ::
      ps[h].shareBps <= BPS && ps[h].contributed >= 0 && BpsOfNormalized(repaid, ps[h].shareBps, decimals).Ok?
    requires Balance(b, token, cfg.pool) >= Sum(Payouts(ps, repaid, decimals, rest))
    ensures Pools.PayHolders(cfg, b, token, decimals, ps, repaid, rest, settled).Ok?
    decreases |rest|
  {
    if rest != {} {
      var h := Pools.NextHolder(rest);
      Pools.PayNext(cfg, b, token, decimals, ps, repaid, rest, settled, h);
      PayoutsSplit(ps, repaid, decimals, rest, h);
      PayoutNonNegative(ps[h], repaid, decimals);
      PayoutsNonNegative(ps, repaid, decimals, rest - {h});
      var b1 := Transfer(b, token, cfg.pool, h, PayoutOf(ps[h], repaid, decimals)).value;
      AllPaid(cfg, b1, token, decimals, ps, repaid, rest - {h}, Saturate(settled + ps[h].contributed));
    }
  }

  lemma ComputeError(amount: i128, bps: u32, decimals: u32)
    ensures BpsOfNormalized(amount, bps, decimals) != Err(TransferFailed)
  {
  }

  lemma PayoutsNonNegative(ps: Positions, repaid: i128, decimals: u32, rest: set<Address>)
    requires rest <= ps.Keys && forall h | h in rest :: ps[h].shareBps <= BPS
    ensures Sum(Payouts(ps, repaid, decimals, rest)) >= 0
  {
    forall h | h in rest
      ensures PayoutOf(ps[h], repaid, decimals) >= 0
    {
      PayoutNonNegative(ps[h], repaid, decimals);
    }
    SumNonNegative(Payouts(ps, repaid, decimals, rest));
  }

  lemma PayoutAtMostShare(position: Position, repaid: i128, decimals: u32)
    requires repaid >= 0 && position.shareBps <= BPS
    ensures PayoutOf(position, repaid, decimals) <= position.shareBps * repaid / BPS
  {
    MulMono(0, position.shareBps, repaid);
    DivBounds(position.shareBps * repaid, BPS);
    Commute(repaid, position.shareBps);
    if BpsOfNormalized(repaid, position.shareBps, decimals).Ok? {
      NeverAboveExactShare(repaid, position.shareBps, decimals);
    }
  }

  /** While shares total at most 10_000 bps, a distribution pays at most what was repaid. */
  lemma PaysAtMostRepaid(ps: Positions, repaid: i128, decimals: u32)
    requires repaid >= 0 && Sum(ShareMap(ps)) <= BPS
    requires forall h | h in ps :: ps[h].shareBps <= BPS
    ensures Sum(Payouts(ps, repaid, decimals, ps.Keys)) <= repaid
  {
    var low, high := Payouts(ps, repaid, decimals, ps.Keys), Shares.Scaled(ShareMap(ps), repaid, BPS);
    forall h | h in low
      ensures low[h] <= high[h]
    {
      PayoutAtMostShare(ps[h], repaid, decimals);
    }
    SumPointwiseAtMost(low, high);
    Shares.ScaledWithin(ShareMap(ps), repaid, BPS);
  }

  /** So what it takes out of the pool is between nothing and what was repaid. */
  lemma OutflowInRange(ps: Positions, repaid: i128, decimals: u32, pool: Address)
    requires repaid >= 0 && Sum(ShareMap(ps)) <= BPS
    requires forall h | h in ps :: ps[h].shareBps <= BPS
    ensures 0 <= Outflow(Payouts(ps, repaid, decimals, ps.Keys), pool) <= repaid
  {
    var payouts := Payouts(ps, repaid, decimals, ps.Keys);
    PaysAtMostRepaid(ps, repaid, decimals);
    forall h | h in payouts
      ensures payouts[h] >= 0
    {
      PayoutNonNegative(ps[h], repaid, decimals);
    }
    SumNonNegative(payouts);
  }

  /** Positions recorded against the sum of their own contributions, repaid in a token with
      at most 7 decimals: the payouts total at most the repaid amount, and more than
      repaid - n - n * repaid / 10_000 (stated multiplied by 10_000). */
  lemma PayoutBound(ps: Positions, total: int, repaid: i128, decimals: u32)
    requires total > 0 && repaid > 0 && decimals <= STANDARD_DECIMALS
    requires Sum(Contributed(ps, ps.Keys)) == total
    requires forall h | h in ps ::
      && 0 < ps[h].contributed && ps[h].shareBps == ps[h].contributed * BPS / total
      && BpsOfNormalized(repaid, ps[h].shareBps, decimals).Ok?
    ensures Sum(ShareMap(ps)) <= BPS
    ensures var n, paid := |ps|, Sum(Payouts(ps, repaid, decimals, ps.Keys));
            paid <= repaid && repaid * BPS - n * BPS - n * repaid < paid * BPS
  {
    var contributed := Contributed(ps, ps.Keys);
    assert ShareMap(ps) == Shares.Scaled(contributed, BPS, total);
    Shares.SharesOfOneTotal(contributed, total);
    Shares.DustBound(contributed, total, repaid);
    PayoutsAreScaled(ps, repaid, decimals);
    assert contributed.Keys == ps.Keys && |contributed| == |contributed.Keys| && |ps| == |ps.Keys|;
  }

  /** Above 7 decimals the digits below `K` cost each position less than `2 * K` more. */
  lemma PayoutBoundManyDecimals(ps: Positions, total: int, repaid: i128, decimals: u32)
    requires total > 0 && repaid > 0 && decimals > STANDARD_DECIMALS
    requires Sum(Contributed(ps, ps.Keys)) == total
    requires forall h | h in ps ::
      && 0 < ps[h].contributed && ps[h].shareBps == ps[h].contributed * BPS / total
      && BpsOfNormalized(repaid, ps[h].shareBps, decimals).Ok?
    ensures Sum(ShareMap(ps)) <= BPS
    ensures var n, K, paid := |ps|, Pow10(decimals - STANDARD_DECIMALS), Sum(Payouts(ps, repaid, decimals, ps.Keys));
            paid <= repaid && repaid * BPS - n * BPS - n * repaid < (paid + n * (2 * K)) * BPS
  {
    var contributed := Contributed(ps, ps.Keys);
    assert ShareMap(ps) == Shares.Scaled(contributed, BPS, total);
    Shares.SharesOfOneTotal(contributed, total);
    Shares.DustBound(contributed, total, repaid);
    assert contributed.Keys == ps.Keys && |contributed| == |contributed.Keys| && |ps| == |ps.Keys|;
    ShareAtMostAll(ps);
    PaysAtMostRepaid(ps, repaid, decimals);
    PayoutsNearScaled(ps, repaid, decimals);
    var scaled, paid := Sum(Shares.Scaled(ShareMap(ps), repaid, BPS)), Sum(Payouts(ps, repaid, decimals, ps.Keys));
    MulMono(scaled, paid + |ps| * (2 * Pow10(decimals - STANDARD_DECIMALS)), BPS);
  }

  lemma ShareAtMostAll(ps: Positions)
    requires Sum(ShareMap(ps)) <= BPS
    ensures forall h | h in ps :: ps[h].shareBps <= BPS
  {
    SumNonNegative(ShareMap(ps));
    forall h | h in ps
      ensures ps[h].shareBps <= BPS
    {
      assert ShareMap(ps)[h] <= Sum(ShareMap(ps));
    }
  }

  lemma PayoutsNearScaled(ps: Positions, repaid: i128, decimals: u32)
    requires decimals > STANDARD_DECIMALS && repaid > 0
    requires forall h | h in ps :: ps[h].shareBps <= BPS && BpsOfNormalized(repaid, ps[h].shareBps, decimals).Ok?
    ensures Sum(Shares.Scaled(ShareMap(ps), repaid, BPS))
         <= Sum(Payouts(ps, repaid, decimals, ps.Keys)) + |ps| * (2 * Pow10(decimals - STANDARD_DECIMALS))
  {
    var K := Pow10(decimals - STANDARD_DECIMALS);
    var scaled, payouts := Shares.Scaled(ShareMap(ps), repaid, BPS), Payouts(ps, repaid, decimals, ps.Keys);
    var low: map<Address, int> := map h | h in scaled :: scaled[h] - 2 * K;
    forall h | h in low
      ensures low[h] <= payouts[h]
    {
      ManyDecimals(repaid, ps[h].shareBps, decimals);
      Commute(repaid, ps[h].shareBps);
    }
    SumPointwiseAtMost<Address>(low, payouts);
    SumLowered<Address>(scaled, low, 2 * K);
    assert scaled.Keys == ps.Keys && |scaled| == |scaled.Keys| && |ps| == |ps.Keys|;
  }

  lemma PayoutsAreScaled(ps: Positions, repaid: i128, decimals: u32)
    requires decimals <= STANDARD_DECIMALS
    requires forall h | h in ps :: BpsOfNormalized(repaid, ps[h].shareBps, decimals).Ok?
    ensures Payouts(ps, repaid, decimals, ps.Keys) == Shares.Scaled(ShareMap(ps), repaid, BPS)
  {
    forall h | h in ps
      ensures PayoutOf(ps[h], repaid, decimals) == ps[h].shareBps * repaid / BPS
    {
      FewDecimals(repaid, ps[h].shareBps, decimals);
      Commute(repaid, ps[h].shareBps);
    }
  }

  lemma Commute(a: int, b: int)
    ensures a * b == b * a
  {
  }
}
