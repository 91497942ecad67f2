/** Fees, credits and shares added up over whole runs: what splitting a funding or a repayment
    into parts changes, and what distributing to recorded positions leaves behind. */
module Accruals {
  import opened Validation
  import opened BasisPoints
  import opened Sums
  import opened Records
  import opened Distribution
  import opened Protocol
  import opened Effects
  import opened Coupling
  import opened Lifecycle
  import opened Refunds
  import opened Solvency
  import Oracle = PriceOracle
  import Pools = PoolSpec

  // ── Fees of a listing ──────────────────────────────────────────────────────

  ghost predicate Funds(cfg: Config, env: Env, w: World, a: Action, id: Id) {
    a.Fund? && a.id == id && Commits(cfg, env, w, a)
  }

  /** The contributions to a listing that committed in a run, in order. */
  ghost function Amounts(cfg: Config, w: World, run: Run, id: Id): seq<int> {
    if run == [] then [] else
    var last, earlier := run[|run| - 1], run[..|run| - 1];
    Amounts(cfg, w, earlier, id) + (if Funds(cfg, last.env, After(cfg, w, earlier), last.action, id)
        then [last.action.amount] else [])
  }

  /** The contribution is charged at this rate, in a token of this many decimals. */
  ghost predicate ChargedAt(cfg: Config, w: World, id: Id, bps: u32, decimals: u32) {
    && id in w.market.listings && id in w.core.nft.invoices && w.market.listings[id].token in cfg.decimals
    && w.market.FeeFor(w.core.nft.invoices[id].riskTier) == bps
    && cfg.decimals[w.market.listings[id].token] == decimals
  }

  ghost predicate AtRate(cfg: Config, w: World, run: Run, id: Id, bps: u32, decimals: u32) {
    run == [] ||
    var last, earlier := run[|run| - 1], run[..|run| - 1];
    var before := After(cfg, w, earlier);
    AtRate(cfg, w, earlier, id, bps, decimals) && (Funds(cfg, last.env, before, last.action, id) ==>
        ChargedAt(cfg, before, id, bps, decimals))
  }

  lemma FeeAtRate(cfg: Config, env: Env, w: World, a: Action, id: Id, bps: u32, decimals: u32)
    requires Coupled(w) && Funds(cfg, env, w, a, id) && ChargedAt(cfg, w, id, bps, decimals)
    ensures a.amount > 0
    ensures 0 <= a.amount * bps / BPS - FeeOf(cfg, env, w, a) <= Slip(decimals)
  {
    NearPlainFee(a.amount, bps, decimals);
  }

  lemma FeeInRun(cfg: Config, w0: World, run: Run, env: Env, a: Action, id: Id, bps: u32, decimals: u32)
    requires Initial(w0) && Funds(cfg, env, After(cfg, w0, run), a, id)
    requires ChargedAt(cfg, After(cfg, w0, run), id, bps, decimals)
    ensures a.amount > 0
    ensures 0 <= a.amount * bps / BPS - FeeOf(cfg, env, After(cfg, w0, run), a) <= Slip(decimals)
  {
    InitialCoupled(w0);
    RunKeeps(cfg, w0, run);
    FeeAtRate(cfg, env, After(cfg, w0, run), a, id, bps, decimals);
  }

  lemma FundedStep(cfg: Config, env: Env, w: World, w': World, a: Action, id: Id)
    requires Effect(cfg, env, w, w', a)
    ensures FundedOf(w', id) == FundedOf(w, id) + (if a.Fund? && a.id == id then a.amount else 0)
  {
    if !a.Fund? { ContributionsOtherwise(cfg, env, w, w', a, id); }
  }

  lemma {:induction false} FeesNearRunFloors(cfg: Config, w0: World, run: Run, id: Id, bps: u32, decimals: u32)
    requires Initial(w0) && AtRate(cfg, w0, run, id, bps, decimals)
    ensures var amounts := Amounts(cfg, w0, run, id);
            && (forall x | x in amounts :: x >= 0)
            && Total(amounts) == FundedOf(After(cfg, w0, run), id)
            && FloorTotal(amounts, bps, BPS) - |amounts| * Slip(decimals)
                 <= FeesTaken(cfg, w0, run, id) <= FloorTotal(amounts, bps, BPS)
  {
    if run != [] {
      var last, earlier := run[|run| - 1], run[..|run| - 1];
      var before := After(cfg, w0, earlier);
      FeesNearRunFloors(cfg, w0, earlier, id, bps, decimals);
      if Commits(cfg, last.env, before, last.action) {
        HasEffect(cfg, last.env, before, last.action);
        FundedStep(cfg, last.env, before, Step(cfg, last.env, before, last.action), last.action, id);
      }
      if Funds(cfg, last.env, before, last.action, id) {
        FeeInRun(cfg, w0, earlier, last.env, last.action, id, bps, decimals);
        OneMoreFee(Amounts(cfg, w0, earlier, id), last.action.amount, bps, decimals);
      } else {
        assert Amounts(cfg, w0, run, id) == Amounts(cfg, w0, earlier, id);
      }
    }
  }

  lemma OneMoreFee(amounts: seq<int>, amount: int, bps: u32, decimals: u32)
    ensures Total(amounts + [amount]) == Total(amounts) + amount
    ensures FloorTotal(amounts + [amount], bps, BPS) == FloorTotal(amounts, bps, BPS) + amount * bps / BPS
    ensures |amounts + [amount]| * Slip(decimals) == |amounts| * Slip(decimals) + Slip(decimals)
  {
    TotalsAppend(amounts, amount, bps, BPS);
    MulDistributes(|amounts|, 1, Slip(decimals));
  }

  /** A listing funded by n committed contributions, all charged at one rate, has paid at most
      the fee of the whole funded amount and at least that less n - 1, and less what dropped
      digits take off each fee in a token with more than 7 decimals. */
  lemma FundingInParts(cfg: Config, w0: World, run: Run, id: Id, bps: u32, decimals: u32)
    requires Initial(w0) && AtRate(cfg, w0, run, id, bps, decimals) && Amounts(cfg, w0, run, id) != []
    ensures var n, funded := |Amounts(cfg, w0, run, id)|, FundedOf(After(cfg, w0, run), id);
            funded * bps / BPS - (n - 1) - n * Slip(decimals) <= FeesTaken(cfg, w0, run, id) <= funded * bps / BPS
  {
    FeesNearRunFloors(cfg, w0, run, id, bps, decimals);
    SplitFloor(Amounts(cfg, w0, run, id), bps, BPS);
  }

  // ── Credits of a pool ──────────────────────────────────────────────────────

  ghost predicate Repays(cfg: Config, env: Env, w: World, a: Action, id: Id) {
    a.Repay? && a.id == id && Commits(cfg, env, w, a)
  }

  ghost function Payments(cfg: Config, w: World, run: Run, id: Id): seq<int> {
    if run == [] then [] else
    var last, earlier := run[|run| - 1], run[..|run| - 1];
    Payments(cfg, w, earlier, id) + (if Repays(cfg, last.env, After(cfg, w, earlier), last.action, id)
        then [last.action.amount] else [])
  }

  /** The price a repayment of the invoice converts at; USDC is not converted. */
  ghost function RateOf(env: Env, invoice: Invoice): int {
    if invoice.currency == USDC then Oracle.PRICE_SCALE
    else if (invoice.currency, USDC) in env.prices then env.prices[(invoice.currency, USDC)].price else 0
  }

  /** Every committed repayment of the invoice converts at this price, and no buyout of it
      settles. */
  ghost predicate AtPrice(cfg: Config, w: World, run: Run, id: Id, price: int) {
    run == [] ||
    var last, earlier := run[|run| - 1], run[..|run| - 1];
    var before := After(cfg, w, earlier);
    && AtPrice(cfg, w, earlier, id, price)
    && (Repays(cfg, last.env, before, last.action, id) ==>
          id in before.core.nft.invoices && RateOf(last.env, before.core.nft.invoices[id]) == price)
    && !(last.action.AcceptBuyout? && last.action.id == id
         && Commits(cfg, last.env, before, last.action) && Distributes(last.env, before.core, last.action))
  }

  lemma CreditAtPrice(env: Env, invoice: Invoice, p: Pool, amount: i128)
    requires amount > 0 && Pools.Credited(env, invoice, p, amount).Ok?
    ensures RateOf(env, invoice) > 0
    ensures Pools.Credited(env, invoice, p, amount).value.repaidAmount
         == p.repaidAmount + amount * RateOf(env, invoice) / Oracle.PRICE_SCALE
  {
    CreditIsConversion(env, invoice, p, amount);
    Oracle.ConvertExact(env.prices, env.now, amount, invoice.currency, USDC);
    if invoice.currency == USDC { FloorIs(amount * Oracle.PRICE_SCALE, Oracle.PRICE_SCALE, amount); }
  }

  lemma RepaidStep(cfg: Config, env: Env, w: World, w': World, a: Action, id: Id)
    requires Effect(cfg, env, w, w', a) && id in w.core.pool.pools
    requires !(a.AcceptBuyout? && a.id == id && Distributes(env, w.core, a))
    ensures id in w'.core.pool.pools
    ensures a.Repay? && a.id == id ==> id in w.core.nft.invoices && a.amount > 0
    ensures w'.core.pool.pools[id].repaidAmount == w.core.pool.pools[id].repaidAmount
      + (if a.Repay? && a.id == id then a.amount * RateOf(env, w.core.nft.invoices[id]) / Oracle.PRICE_SCALE else 0)
  {
    if a.Repay? && a.id == id { CreditAtPrice(env, w.core.nft.invoices[id], w.core.pool.pools[id], a.amount); }
    else if IsPool(a) && !(a.AcceptBuyout? && a.id == id) { PoolUntouched(cfg, env, w, w', a, id); }
    else if !IsPool(a) { PoolUntouchedElsewhere(cfg, env, w, w', a, id); }
  }

  lemma {:induction false} CreditsAreRunFloors(cfg: Config, w: World, run: Run, id: Id, price: int)
    requires id in w.core.pool.pools && AtPrice(cfg, w, run, id, price)
    ensures var payments, pools := Payments(cfg, w, run, id), After(cfg, w, run).core.pool.pools;
            && (forall x | x in payments :: x > 0)
            && id in pools
            && pools[id].repaidAmount == w.core.pool.pools[id].repaidAmount + FloorTotal(payments, price,
                 Oracle.PRICE_SCALE)
            && (payments != [] ==> price > 0)
  {
    if run != [] {
      var last, earlier := run[|run| - 1], run[..|run| - 1];
      var before := After(cfg, w, earlier);
      CreditsAreRunFloors(cfg, w, earlier, id, price);
      if Commits(cfg, last.env, before, last.action) {
        HasEffect(cfg, last.env, before, last.action);
        RepaidStep(cfg, last.env, before, Step(cfg, last.env, before, last.action), last.action, id);
      }
      if Repays(cfg, last.env, before, last.action, id) {
        PriceIsPositive(cfg, last.env, before, last.action);
        TotalsAppend(Payments(cfg, w, earlier, id), last.action.amount, price, Oracle.PRICE_SCALE);
      } else {
        assert Payments(cfg, w, run, id) == Payments(cfg, w, earlier, id);
      }
    }
  }

  lemma PriceIsPositive(cfg: Config, env: Env, w: World, a: Action)
    requires a.Repay? && Commits(cfg, env, w, a)
    ensures a.id in w.core.nft.invoices && RateOf(env, w.core.nft.invoices[a.id]) > 0
  {
    CreditAtPrice(env, w.core.nft.invoices[a.id], w.core.pool.pools[a.id], a.amount);
  }

  /** n committed repayments of one invoice at one price raise its repaid amount by at most
      what their sum would have been credited at once, and by at least that less n - 1. */
  lemma RepayingInParts(cfg: Config, w: World, run: Run, id: Id, price: int)
    requires id in w.core.pool.pools && AtPrice(cfg, w, run, id, price) && Payments(cfg, w, run, id) != []
    ensures id in After(cfg, w, run).core.pool.pools
    ensures var payments := Payments(cfg, w, run, id);
            var credited := After(cfg, w, run).core.pool.pools[id].repaidAmount - w.core.pool.pools[id].repaidAmount;
            Total(payments) * price / Oracle.PRICE_SCALE - (|payments| - 1)
              <= credited <= Total(payments) * price / Oracle.PRICE_SCALE
  {
    CreditsAreRunFloors(cfg, w, run, id, price);
    SplitFloor(Payments(cfg, w, run, id), price, Oracle.PRICE_SCALE);
  }

  // ── Positions recorded against one total ───────────────────────────────────

  /** Every committed `record_position` of the invoice names this total. */
  ghost predicate OneTotal(cfg: Config, w: World, run: Run, id: Id, total: int) {
    run == [] ||
    var last, earlier := run[|run| - 1], run[..|run| - 1];
    && OneTotal(cfg, w, earlier, id, total)
    && (last.action.RecordPosition? && last.action.id == id
         && Commits(cfg, last.env, After(cfg, w, earlier), last.action) ==>
          last.action.total == total)
  }

  ghost predicate SharesOfTotal(ps: Positions, total: int) {
    forall h | h in ps :: total > 0 && 0 < ps[h].contributed && ps[h].shareBps == ps[h].contributed * BPS / total
  }

  lemma SharesStep(cfg: Config, env: Env, w: World, w': World, a: Action, id: Id, total: int)
    requires SharesOfTotal(w.core.pool.PositionsOf(id), total) && Effect(cfg, env, w, w', a)
    requires a.RecordPosition? && a.id == id ==> a.total == total
    ensures SharesOfTotal(w'.core.pool.PositionsOf(id), total)
  {
    if !a.RecordPosition? && !a.BuyPosition? { PositionsSame(cfg, env, w, w', a); }
  }

  /** Recorded, overwritten or sold: the share of a position is always its floored part. */
  lemma {:induction false} SharesOverRun(cfg: Config, w0: World, run: Run, id: Id, total: int)
    requires Initial(w0) && OneTotal(cfg, w0, run, id, total)
    ensures SharesOfTotal(After(cfg, w0, run).core.pool.PositionsOf(id), total)
  {
    if run != [] {
      var last, earlier := run[|run| - 1], run[..|run| - 1];
      var before := After(cfg, w0, earlier);
      SharesOverRun(cfg, w0, earlier, id, total);
      if Commits(cfg, last.env, before, last.action) {
        HasEffect(cfg, last.env, before, last.action);
        SharesStep(cfg, last.env, before, Step(cfg, last.env, before, last.action), last.action, id, total);
      }
    }
  }

  /** What truncation costs above 7 decimals. */
  ghost function Digits(n: nat, decimals: u32): int {
    if decimals <= STANDARD_DECIMALS then 0 else n * (2 * Pow10(decimals - STANDARD_DECIMALS))
  }

  ghost predicate WithinDust(ps: Positions, repaid: i128, decimals: u32) {
    var n, paid := |ps|, Sum(Payouts(ps, repaid, decimals, ps.Keys));
    paid <= repaid && repaid * BPS - n * BPS - n * repaid < (paid + Digits(n, decimals)) * BPS
  }

  lemma DustOfTotal(ps: Positions, total: int, repaid: i128, decimals: u32)
    requires SharesOfTotal(ps, total) && total > 0 && repaid > 0 && Sum(Contributed(ps, ps.Keys)) == total
    requires forall h | h in ps :: BpsOfNormalized(repaid, ps[h].shareBps, decimals).Ok?
    ensures WithinDust(ps, repaid, decimals)
  {
    if decimals <= STANDARD_DECIMALS { PayoutBound(ps, total, repaid, decimals); }
    else { PayoutBoundManyDecimals(ps, total, repaid, decimals); }
  }

  /** The token a distributing call pays in. */
  ghost function PaysIn(c: Core, a: Action): Address
    requires a.Repay? || a.MarkDefault? || (a.AcceptBuyout? && a.id in c.pool.pools)
  {
    match a
    case Repay(_, _, token, _) => token
    case MarkDefault(_, _, token) => token
    case AcceptBuyout(_, id) => c.pool.pools[id].token
  }

  /** What a distributing call pays out: the credited total of a closing repayment, the
      escrow of a settled buyout, the total repaid before a default. */
  ghost function PaysOut(env: Env, c: Core, a: Action): i128
    requires Distributes(env, c, a)
  {
    match a
    case Repay(_, id, _, amount) => Pools.Credited(env, c.nft.invoices[id], c.pool.pools[id], amount).value.repaidAmount
    case MarkDefault(_, id, _) => c.pool.pools[id].repaidAmount
    case AcceptBuyout(_, id) => c.pool.buyouts[id].amount
  }

  lemma PayoutsComputed(cfg: Config, env: Env, w: World, w': World, a: Action)
    requires Effect(cfg, env, w, w', a) && Distributes(env, w.core, a)
    requires a.AcceptBuyout? ==> a.id in w.core.pool.pools
    ensures PaysIn(w.core, a) in cfg.decimals
    ensures var ps := w.core.pool.PositionsOf(a.id);
            forall h | h in ps ::
              BpsOfNormalized(PaysOut(env, w.core, a), ps[h].shareBps, cfg.decimals[PaysIn(w.core, a)]).Ok?
  {
  }

  lemma PaysOutPositive(cfg: Config, env: Env, w: World, a: Action)
    requires Coupled(w) && AllOwedRight(cfg, w) && Distributes(env, w.core, a)
    requires a.Repay? ==> a.amount > 0 && !w.core.pool.pools[a.id].isClosed
    ensures PaysOut(env, w.core, a) > 0 && a.id in w.core.pool.pools
  {
    assert CoupledAt(w, a.id);
    if a.Repay? { CreditedProgress(cfg, env, w.core.nft.invoices[a.id], w.core.pool.pools[a.id], a.amount); }
  }

  /** After any run that recorded the positions of an invoice against one total, which their
      contributions make up: whichever call then distributes pays at most what it pays out,
      and leaves less than n + n * repaid / 10_000 of it behind, plus less than 2 * 10^(d - 7)
      per position in a token with d > 7 decimals. */
  lemma DustOverRun(cfg: Config, w0: World, run: Run, id: Id, total: int, env: Env, a: Action)
    requires Initial(w0) && OneTotal(cfg, w0, run, id, total) && total > 0
    requires var ps := After(cfg, w0, run).core.pool.PositionsOf(id); Sum(Contributed(ps, ps.Keys)) == total
    requires DistributesFor(cfg, env, After(cfg, w0, run), a, id)
    ensures var w := After(cfg, w0, run);
            && id in w.core.pool.pools && PaysIn(w.core, a) in cfg.decimals
            && PaysOut(env, w.core, a) > 0
            && WithinDust(w.core.pool.PositionsOf(id), PaysOut(env, w.core, a), cfg.decimals[PaysIn(w.core, a)])
  {
    var w := After(cfg, w0, run);
    HasEffect(cfg, env, w, a);
    InitialCoupled(w0);
    RunKeeps(cfg, w0, run);
    AmountsOverRun(cfg, w0, run);
    PaysOutPositive(cfg, env, w, a);
    PayoutsComputed(cfg, env, w, Step(cfg, env, w, a), a);
    SharesOverRun(cfg, w0, run, id, total);
    DustOfTotal(w.core.pool.PositionsOf(id), total, PaysOut(env, w.core, a), cfg.decimals[PaysIn(w.core, a)]);
  }
}
