/** Contributions and refunds: what an investor put in is either released with the whole
    listing or paid back once, and never both. */
module Refunds {
  import opened Validation
  import opened BasisPoints
  import opened Sums
  import opened Records
  import opened Protocol
  import opened Effects
  import opened Coupling
  import opened TokenLedger
  import Market = MarketSpec
  import Lifecycle

  // ── Invariant at a ledger time ─────────────────────────────────────────────

  /** Nothing can be contributed to the listing at or after time `t`. */
  ghost predicate Shut(l: Listing, t: nat) {
    l.fundedAmount < l.askingPrice && (!l.isActive || t > l.fundingDeadline)
  }

  ghost predicate RefundsSound(w: World, t: nat) {
    var m := w.market;
    && (forall k | k in m.contributions :: k.0 in m.listings && m.contributions[k] >= 0)
    && (forall k | k in m.refunded :: k.0 in m.listings && Shut(m.listings[k.0], t))
    && (forall id | id in m.cancelConfirmed ::
          id in m.listings && !m.listings[id].isActive && m.listings[id].fundedAmount < m.listings[id].askingPrice)
  }

  lemma FeeWithinAmount(cfg: Config, env: Env, w: World, id: Id, amount: i128)
    requires Coupled(w) && Market.FundingFee(cfg, env, w, id, amount).Ok?
    ensures 0 <= Market.FundingFee(cfg, env, w, id, amount).value <= amount
  {
    var tier := w.core.nft.invoices[id].riskTier;
    NeverAboveExactShare(amount, w.market.FeeFor(tier), cfg.decimals[w.market.listings[id].token]);
  }

  lemma FundSound(cfg: Config, env: Env, w: World, w': World, a: Action, t: nat)
    requires Coupled(w) && RefundsSound(w, t) && t <= env.now && Effect(cfg, env, w, w', a) && a.Fund?
    ensures RefundsSound(w', env.now)
  {
    FeeWithinAmount(cfg, env, w, a.id, a.amount);
  }

  lemma CancelSound(cfg: Config, env: Env, w: World, w': World, a: Action, t: nat)
    requires Coupled(w) && RefundsSound(w, t) && t <= env.now && Effect(cfg, env, w, w', a) && Cancels(a)
    ensures RefundsSound(w', env.now)
  {
    assert CoupledAt(w, a.id);
    OnlyDeactivates(cfg, env, w, w', a);
  }

  /** A cancellation at most makes its active listing inactive. */
  lemma OnlyDeactivates(cfg: Config, env: Env, w: World, w': World, a: Action)
    requires Effect(cfg, env, w, w', a) && Cancels(a)
    ensures var m, m' := w.market, w'.market;
            && a.id in m.listings && m.listings[a.id].isActive
            && m'.contributions == m.contributions && m'.refunded == m.refunded
            && ((m'.listings == m.listings && m'.cancelConfirmed == m.cancelConfirmed)
                || (m'.listings == m.listings[a.id := m.listings[a.id].(isActive := false)]
                    && m'.cancelConfirmed <= m.cancelConfirmed + {a.id}))
  {
  }

  lemma ClaimSound(cfg: Config, env: Env, w: World, w': World, a: Action, t: nat)
    requires Coupled(w) && RefundsSound(w, t) && t <= env.now && Effect(cfg, env, w, w', a) && a.ClaimRefund?
    ensures RefundsSound(w', env.now)
  {
    assert CoupledAt(w, a.id);
  }

  lemma OtherwiseSound(cfg: Config, env: Env, w: World, w': World, a: Action, t: nat)
    requires RefundsSound(w, t) && t <= env.now && Effect(cfg, env, w, w', a)
    requires !a.Fund? && !a.ClaimRefund? && !Cancels(a)
    ensures RefundsSound(w', env.now)
  {
  }

  lemma StepSound(cfg: Config, env: Env, w: World, a: Action, t: nat)
    requires Coupled(w) && RefundsSound(w, t) && t <= env.now
    ensures RefundsSound(Step(cfg, env, w, a), env.now)
  {
    if Commits(cfg, env, w, a) {
      HasEffect(cfg, env, w, a);
      if a.Fund? { FundSound(cfg, env, w, Step(cfg, env, w, a), a, t); }
      else if Cancels(a) { CancelSound(cfg, env, w, Step(cfg, env, w, a), a, t); }
      else if a.ClaimRefund? { ClaimSound(cfg, env, w, Step(cfg, env, w, a), a, t); }
      else { OtherwiseSound(cfg, env, w, Step(cfg, env, w, a), a, t); }
    }
  }

  lemma {:induction false} RunSound(cfg: Config, w0: World, run: Run)
    requires Initial(w0) && Timely(run)
    ensures Coupled(After(cfg, w0, run)) && RefundsSound(After(cfg, w0, run), Clock(run))
  {
    Lifecycle.InitialCoupled(w0);
    RunKeeps(cfg, w0, run);
    if run != [] {
      var last, earlier := run[|run| - 1], run[..|run| - 1];
      RunSound(cfg, w0, earlier);
      StepSound(cfg, last.env, After(cfg, w0, earlier), last.action, Clock(earlier));
    }
  }

  // ── Refund and release exclude each other ──────────────────────────────────

  /** No invoice ever has both a paid refund and a pool; a confirmed cancellation means the
      listing is inactive and under-funded. */
  lemma RefundExcludesRelease(cfg: Config, w0: World, run: Run, id: Id, investor: Address)
    requires Initial(w0) && Timely(run)
    ensures var w := After(cfg, w0, run);
            && ((id, investor) in w.market.refunded ==> id !in w.core.pool.pools)
            && (id in w.market.cancelConfirmed ==>
                  && id in w.market.listings && !w.market.listings[id].isActive
                  && w.market.listings[id].fundedAmount < w.market.listings[id].askingPrice
                  && id !in w.core.pool.pools)
  {
    RunSound(cfg, w0, run);
    assert CoupledAt(After(cfg, w0, run), id);
  }

  ghost predicate ShutAt(w: World, t: nat, id: Id) {
    id in w.market.listings && Shut(w.market.listings[id], t)
  }

  /** Between the two states the investor's contribution stood still and refunds only grew. */
  ghost predicate Frozen(w: World, w': World, id: Id, investor: Address) {
    && w'.market.Contribution(id, investor) == w.market.Contribution(id, investor)
    && w'.market.refunded >= w.market.refunded
  }

  /** Once shut, a listing stays as it is and its contributions are frozen. */
  lemma ShutStep(cfg: Config, env: Env, w: World, a: Action, t: nat, id: Id, investor: Address)
    requires t <= env.now && ShutAt(w, t, id)
    ensures ShutAt(Step(cfg, env, w, a), env.now, id) && Frozen(w, Step(cfg, env, w, a), id, investor)
    ensures !(a.Fund? && a.id == id && Commits(cfg, env, w, a))
  {
    if Commits(cfg, env, w, a) {
      HasEffect(cfg, env, w, a);
      ShutKept(cfg, env, w, Step(cfg, env, w, a), a, t, id, investor);
    }
  }

  lemma ShutKept(cfg: Config, env: Env, w: World, w': World, a: Action, t: nat, id: Id, investor: Address)
    requires t <= env.now && Effect(cfg, env, w, w', a) && ShutAt(w, t, id)
    ensures ShutAt(w', env.now, id) && Frozen(w, w', id, investor)
    ensures !(a.Fund? && a.id == id)
  {
    if a.Fund? { ShutFund(cfg, env, w, w', a, t, id, investor); }
    else if !IsNft(a) && !IsPool(a) { ShutMarket(cfg, env, w, w', a, t, id); }
  }

  lemma ShutFund(cfg: Config, env: Env, w: World, w': World, a: Action, t: nat, id: Id, investor: Address)
    requires t <= env.now && Effect(cfg, env, w, w', a) && a.Fund? && ShutAt(w, t, id)
    ensures a.id != id && id in w'.market.listings && w'.market.listings[id] == w.market.listings[id]
    ensures w'.market.Contribution(id, investor) == w.market.Contribution(id, investor)
    ensures w'.market.refunded == w.market.refunded
  {
  }

  lemma ShutMarket(cfg: Config, env: Env, w: World, w': World, a: Action, t: nat, id: Id)
    requires t <= env.now && Effect(cfg, env, w, w', a) && !a.Fund? && !IsNft(a) && !IsPool(a) && ShutAt(w, t, id)
    ensures ShutAt(w', env.now, id)
    ensures w'.market.contributions == w.market.contributions && w'.market.refunded >= w.market.refunded
  {
  }

  /** The clock after call `i` is that call's time, and it never went back. */
  lemma ClockStep(run: Run, i: nat)
    requires Timely(run) && i < |run|
    ensures Clock(run[..i + 1]) == run[i].env.now && Clock(run[..i]) <= run[i].env.now
  {
  }

  lemma ShutNext(cfg: Config, w0: World, run: Run, i: nat, id: Id, investor: Address)
    requires Timely(run) && i < |run| && ShutAt(Before(cfg, w0, run, i), Clock(run[..i]), id)
    ensures ShutAt(Before(cfg, w0, run, i + 1), Clock(run[..i + 1]), id)
    ensures Frozen(Before(cfg, w0, run, i), Before(cfg, w0, run, i + 1), id, investor)
  {
    ClockStep(run, i);
    ShutStep(cfg, run[i].env, Before(cfg, w0, run, i), run[i].action, Clock(run[..i]), id, investor);
    BeforeStep(cfg, w0, run, i);
  }

  lemma FrozenTransitive(w: World, w': World, w'': World, id: Id, investor: Address)
    requires Frozen(w, w', id, investor) && Frozen(w', w'', id, investor)
    ensures Frozen(w, w'', id, investor)
  {
  }

  lemma {:induction false} ShutForever(cfg: Config, w0: World, run: Run, i: nat, j: nat, id: Id, investor: Address)
    requires Timely(run) && i <= j <= |run| && ShutAt(Before(cfg, w0, run, i), Clock(run[..i]), id)
    ensures ShutAt(Before(cfg, w0, run, j), Clock(run[..j]), id)
    ensures Frozen(Before(cfg, w0, run, i), Before(cfg, w0, run, j), id, investor)
    decreases j
  {
    if i < j {
      ShutForever(cfg, w0, run, i, j - 1, id, investor);
      ShutNext(cfg, w0, run, j - 1, id, investor);
      FrozenTransitive(Before(cfg, w0, run, i), Before(cfg, w0, run, j - 1), Before(cfg, w0, run, j), id, investor);
    }
  }

  ghost predicate PaysRefund(cfg: Config, env: Env, w: World, a: Action, id: Id, investor: Address) {
    a == ClaimRefund(investor, id) && Commits(cfg, env, w, a)
  }

  /** A refund pays the investor their whole recorded net contribution out of the pool. */
  lemma RefundPaysWhole(cfg: Config, env: Env, w: World, id: Id, investor: Address, t: Address, h: Address)
    requires PaysRefund(cfg, env, w, ClaimRefund(investor, id), id, investor)
    ensures var w' := Step(cfg, env, w, ClaimRefund(investor, id));
            var net := w.market.Contribution(id, investor);
            && net > 0 && id in w.market.listings
            && Balance(w'.core.tokens, t, h) == Balance(w.core.tokens, t, h)
                 + (if t == w.market.listings[id].token && h == investor then net else 0)
                 - (if t == w.market.listings[id].token && h == cfg.pool then net else 0)
  {
  }

  lemma RefundMarked(cfg: Config, env: Env, w: World, id: Id, investor: Address, other: Address)
    requires PaysRefund(cfg, env, w, ClaimRefund(investor, id), id, investor)
    ensures var w' := Step(cfg, env, w, ClaimRefund(investor, id));
            (id, investor) in w'.market.refunded
                && w'.market.Contribution(id, other) == w.market.Contribution(id, other)
  {
  }

  lemma RefundedIsFinal(cfg: Config, env: Env, w: World, a: Action, id: Id, investor: Address)
    requires (id, investor) in w.market.refunded
    ensures !PaysRefund(cfg, env, w, a, id, investor)
  {
  }

  /** A contributor is refunded at most once, and no contribution to that listing commits
      after the first refund of anybody: what was paid is the final contribution. */
  lemma RefundOnceAndFinal(cfg: Config, w0: World, run: Run, i: nat, j: nat, id: Id, investor: Address, other: Address)
    requires Initial(w0) && Timely(run) && i < j < |run|
    requires PaysRefund(cfg, run[i].env, Before(cfg, w0, run, i), run[i].action, id, investor)
    ensures !PaysRefund(cfg, run[j].env, Before(cfg, w0, run, j), run[j].action, id, investor)
    ensures !(run[j].action.Fund? && run[j].action.id == id
              && Commits(cfg, run[j].env, Before(cfg, w0, run, j), run[j].action))
    ensures Before(cfg, w0, run, j).market.Contribution(id, other)
        == Before(cfg, w0, run, i).market.Contribution(id, other)
  {
    var w := Before(cfg, w0, run, i);
    RunSound(cfg, w0, run[..i]);
    RunSound(cfg, w0, run[..i + 1]);
    BeforeStep(cfg, w0, run, i);
    ClockStep(run, i);
    ClockStep(run, j);
    RefundMarked(cfg, run[i].env, w, id, investor, other);
    ShutForever(cfg, w0, run, i + 1, j, id, other);
    RunSound(cfg, w0, run[..j]);
    ShutStep(cfg, run[j].env, Before(cfg, w0, run, j), run[j].action, Clock(run[..j]), id, other);
    RefundedIsFinal(cfg, run[j].env, Before(cfg, w0, run, j), run[j].action, id, investor);
  }

  // ── Funding conservation ───────────────────────────────────────────────────

  /** The contributions recorded for one listing, the others counted as 0. */
  ghost function ContributionsTo(m: MarketStore, id: Id): map<(Id, Address), int> {
    map k | k in m.contributions :: if k.0 == id then m.contributions[k] else 0
  }

  /** All fees taken from contributions to a listing during a run. */
  ghost function FeesTaken(cfg: Config, w: World, run: Run, id: Id): int {
    if run == [] then 0 else
    var last, earlier := run[|run| - 1], run[..|run| - 1];
    var before := After(cfg, w, earlier);
    FeesTaken(cfg, w, earlier, id) +
    (if last.action.Fund? && last.action.id == id && Commits(cfg, last.env, before, last.action)
     then FeeOf(cfg, last.env, before, last.action) else 0)
  }

  ghost function FeeOf(cfg: Config, env: Env, w: World, a: Action): int
    requires a.Fund?
  {
    match Market.FundingFee(cfg, env, w, a.id, a.amount)
    case Ok(fee) => fee
    case Err(_) => 0
  }

  ghost function FundedOf(w: World, id: Id): int {
    if id in w.market.listings then w.market.listings[id].fundedAmount else 0
  }

  lemma ContributionsStep(cfg: Config, env: Env, w: World, a: Action, t: nat, id: Id)
    requires Coupled(w) && RefundsSound(w, t)
    ensures var w' := Step(cfg, env, w, a);
            FundedOf(w', id) - Sum(ContributionsTo(w'.market, id))
              == FundedOf(w, id) - Sum(ContributionsTo(w.market, id))
               + (if a.Fund? && a.id == id && Commits(cfg, env, w, a) then FeeOf(cfg, env, w, a) else 0)
  {
    if Commits(cfg, env, w, a) {
      var w' := Step(cfg, env, w, a);
      HasEffect(cfg, env, w, a);
      if a.Fund? { ContributionsFund(cfg, env, w, w', a, t, id); }
      else {
        ContributionsOtherwise(cfg, env, w, w', a, id);
        assert ContributionsTo(w'.market, id) == ContributionsTo(w.market, id);
      }
    }
  }

  lemma ContributionsOtherwise(cfg: Config, env: Env, w: World, w': World, a: Action, id: Id)
    requires Effect(cfg, env, w, w', a) && !a.Fund?
    ensures w'.market.contributions == w.market.contributions && FundedOf(w', id) == FundedOf(w, id)
  {
  }

  lemma ContributionsFund(cfg: Config, env: Env, w: World, w': World, a: Action, t: nat, id: Id)
    requires RefundsSound(w, t) && a.Fund? && Effect(cfg, env, w, w', a)
    ensures FundedOf(w', id) - Sum(ContributionsTo(w'.market, id))
         == FundedOf(w, id) - Sum(ContributionsTo(w.market, id))
          + (if a.id == id then FeeOf(cfg, env, w, a) else 0)
  {
    var k := (a.id, a.investor);
    ContributionsSet(w.market, w'.market, k, id);
  }

  lemma ContributionsSet(m: MarketStore, m': MarketStore, k: (Id, Address), id: Id)
    requires k in m'.contributions && m'.contributions == m.contributions[k := m'.contributions[k]]
    ensures Sum(ContributionsTo(m', id)) == Sum(ContributionsTo(m, id))
      + (if k.0 == id then m'.contributions[k] - m.Contribution(k.0, k.1) else 0)
  {
    var v := if k.0 == id then m'.contributions[k] else 0;
    SumUpdate(ContributionsTo(m, id), k, v);
    assert ContributionsTo(m', id) == ContributionsTo(m, id)[k := v];
  }

  /** In every reachable state, under arbitrary changes of flat and tier fees on the way, the
      amount funded is what investors are recorded for plus the fees taken, and never above
      the asking price. */
  lemma {:induction false} FundingConserved(cfg: Config, w0: World, run: Run, id: Id)
    requires Initial(w0) && Timely(run)
    ensures var w := After(cfg, w0, run);
            && FundedOf(w, id) == Sum(ContributionsTo(w.market, id)) + FeesTaken(cfg, w0, run, id)
            && FeesTaken(cfg, w0, run, id) >= 0
            && (id in w.market.listings ==>
                  var l := w.market.listings[id];
                  0 <= l.fundedAmount <= l.askingPrice < l.faceValue && (l.isActive ==> l.fundedAmount < l.askingPrice))
  {
    RunSound(cfg, w0, run);
    assert CoupledAt(After(cfg, w0, run), id);
    if run == [] {
      assert ContributionsTo(w0.market, id) == map[];
    } else {
      var last, earlier := run[|run| - 1], run[..|run| - 1];
      FundingConserved(cfg, w0, earlier, id);
      RunSound(cfg, w0, earlier);
      ContributionsStep(cfg, last.env, After(cfg, w0, earlier), last.action, Clock(earlier), id);
      if last.action.Fund? && last.action.id == id && Commits(cfg, last.env, After(cfg, w0, earlier), last.action) {
        HasEffect(cfg, last.env, After(cfg, w0, earlier), last.action);
        FeeWithinAmount(cfg, last.env, After(cfg, w0, earlier), id, last.action.amount);
      }
    }
  }

  /** A contribution costs the investor exactly its amount: the fee reaches the treasury and
      the rest the pool. */
  lemma ContributionMoves(cfg: Config, env: Env, w: World, investor: Address, id: Id, amount: i128)
    requires cfg.Valid() && Coupled(w) && Commits(cfg, env, w, Fund(investor, id, amount))
    requires investor != cfg.pool && investor != cfg.treasury
    ensures var w', token := Step(cfg, env, w, Fund(investor, id, amount)), w.market.listings[id].token;
            var fee := FeeOf(cfg, env, w, Fund(investor, id, amount));
            && 0 <= fee <= amount
            && Balance(w'.core.tokens, token, investor) == Balance(w.core.tokens, token, investor) - amount
            && Balance(w'.core.tokens, token, cfg.treasury) == Balance(w.core.tokens, token, cfg.treasury) + fee
            && Balance(w'.core.tokens, token, cfg.pool) == Balance(w.core.tokens, token, cfg.pool) + amount - fee
  {
    HasEffect(cfg, env, w, Fund(investor, id, amount));
    FeeWithinAmount(cfg, env, w, id, amount);
  }

  /** The documentation has the completing contribution release the proceeds to the seller. No
      contribution does: a seller who is neither the payer, the treasury nor the pool holds
      the same after any funding call, the one that opens the pool included. */
  lemma FundingNeverPaysTheSeller(cfg: Config, env: Env, w: World, investor: Address, id: Id, amount: i128, t: Address)
    requires Coupled(w) && Commits(cfg, env, w, Fund(investor, id, amount))
    requires id in w.market.listings && w.market.listings[id].seller !in {investor, cfg.treasury, cfg.pool}
    ensures var w', seller := Step(cfg, env, w, Fund(investor, id, amount)), w.market.listings[id].seller;
            Balance(w'.core.tokens, t, seller) == Balance(w.core.tokens, t, seller)
  {
    HasEffect(cfg, env, w, Fund(investor, id, amount));
    FeeWithinAmount(cfg, env, w, id, amount);
  }
}
