/** When a call goes through: for every entry point of the three protocol contracts, the exact
    conditions on the state and the arguments under which it commits. */
module Admission {
  import opened Outcomes
  import opened Validation
  import opened BasisPoints
  import opened Sums
  import opened Records
  import opened TokenLedger
  import opened Distribution
  import opened Protocol
  import opened Effects
  import opened Coupling
  import opened Lifecycle
  import opened Refunds
  import opened Solvency
  import opened Dust
  import Oracle = PriceOracle
  import Nft = InvoiceNft
  import Pools = PoolSpec
  import Market = MarketSpec

  // ── invoice_nft ────────────────────────────────────────────────────────────

  ghost predicate Owns(n: NftStore, id: Id, sme: Address) {
    id in n.invoices && n.invoices[id].sme == sme
  }

  ghost predicate NftAdmits(cfg: Config, env: Env, n: NftStore, a: Action) {
    match a
    case Mint(sme, terms, _, _) =>
      && !env.paused && terms.amount > 0 && env.now < terms.dueDate && terms.riskScore <= 100
      && 1 <= |terms.debtorHash| <= 64 && 1 <= |terms.ipfsCid| <= 128
      && (sme in env.creditLimits && env.creditLimits[sme] > 0 ==>
            n.Outstanding(sme) + terms.amount <= env.creditLimits[sme])
      && n.nextId < U64_MAX
    case Amend(sme, id, terms) =>
      && !env.paused && terms.amount > 0 && env.now < terms.dueDate && terms.riskScore <= 100
      && 1 <= |terms.debtorHash| && 1 <= |terms.ipfsCid|
      && Owns(n, id, sme) && HasStatus(n, id, Created)
    case Withdraw(sme, id) => !env.paused && Owns(n, id, sme) && HasStatus(n, id, Created)
    case SetDefaulted(caller, id) =>
      caller == cfg.admin && HasStatus(n, id, Funded) && env.now > n.invoices[id].terms.dueDate
    case SetFrozen(caller, id, _) => caller == cfg.admin && id in n.invoices
    case _ => false
  }

  lemma NftCommitsExactly(cfg: Config, env: Env, w: World, a: Action)
    requires IsNft(a)
    ensures Commits(cfg, env, w, a) <==> NftAdmits(cfg, env, w.core.nft, a)
  {
  }

  /** The status steps the other contracts make: each only by the one contract it belongs to. */
  lemma StepsCommitExactly(cfg: Config, env: Env, n: NftStore, caller: Address, id: Id)
    ensures Nft.SetListed(cfg, env, n, caller, id).Ok? <==>
              caller == cfg.marketplace && !env.paused && HasStatus(n, id, Created)
    ensures Nft.SetFunded(cfg, env, n, caller, id).Ok? <==>
              caller == cfg.pool && !env.paused && HasStatus(n, id, Listed)
    ensures Nft.SetRepaid(cfg, env, n, caller, id).Ok? <==>
              caller == cfg.pool && !env.paused && HasStatus(n, id, Funded)
  {
  }

  // ── marketplace ────────────────────────────────────────────────────────────

  ghost predicate ActiveListing(m: MarketStore, id: Id) {
    id in m.listings && m.listings[id].isActive
  }

  /** Who may cancel a listing. */
  ghost predicate MayCancel(cfg: Config, m: MarketStore, id: Id, caller: Address) {
    ActiveListing(m, id) && (caller == m.listings[id].seller || caller == cfg.admin)
  }

  /** A refund is due: the listing is under-funded and either its cancellation is confirmed or
      its deadline is over, and the investor has something in it that was not paid back. */
  ghost predicate RefundDue(env: Env, m: MarketStore, investor: Address, id: Id) {
    && id in m.listings && m.listings[id].fundedAmount < m.listings[id].askingPrice
    && (id in m.cancelConfirmed || env.now > m.listings[id].fundingDeadline)
    && (id, investor) !in m.refunded && m.Contribution(id, investor) > 0
  }

  /** The rate a contribution is charged: that of the invoice's tier, if one is set. */
  ghost function RateFor(w: World, id: Id): u32
    requires id in w.core.nft.invoices
  {
    var tier := w.core.nft.invoices[id].riskTier;
    if tier in w.market.tierFeeBps then w.market.tierFeeBps[tier] else w.market.feeBps
  }

  /** The listing takes the amount, and its fee can be computed. */
  ghost predicate Chargeable(cfg: Config, env: Env, w: World, id: Id, amount: i128) {
    && !env.paused && 0 < amount <= MAX_AMOUNT
    && ActiveListing(w.market, id) && id in w.core.nft.invoices && id !in w.core.nft.frozen
    && var l := w.market.listings[id];
    && env.now <= l.fundingDeadline && amount <= l.askingPrice - l.fundedAmount && l.token in cfg.decimals
    && BpsOfNormalized(amount, RateFor(w, id), cfg.decimals[l.token]).Ok?
  }

  /** The investor has the money, the treasury accepts the fee, and the amount that completes
      the listing is not in a token the pool contract is itself. */
  ghost predicate FundAdmits(cfg: Config, env: Env, w: World, investor: Address, id: Id, amount: i128) {
    && Chargeable(cfg, env, w, id, amount)
    && var l := w.market.listings[id];
    && var fee := BpsOfNormalized(amount, RateFor(w, id), cfg.decimals[l.token]).value;
    && Affords(cfg, env, w.core.tokens, l.token, investor, fee, amount - fee)
    && (amount == l.askingPrice - l.fundedAmount ==> l.token != cfg.pool)
  }

  ghost predicate Affords(cfg: Config, env: Env, b: Balances, token: Address, investor: Address, fee: int, net: int) {
    && (if investor == cfg.treasury then fee <= Balance(b, token, investor) && net <= Balance(b, token, investor)
        else fee + net <= Balance(b, token, investor))
    && (fee > 0 ==> token in env.treasuryTokens && FeesBefore(env, token) + fee <= I128_MAX)
  }

  ghost function FeesBefore(env: Env, token: Address): int {
    if token in env.feesCollected then env.feesCollected[token] else 0
  }

  ghost predicate MarketAdmits(cfg: Config, env: Env, w: World, a: Action) {
    var m := w.market;
    match a
    case SetFee(caller, bps) => caller == cfg.admin && bps <= 10_000
    case SetTierFee(caller, _, bps) => caller == cfg.admin && bps <= 10_000
    case Whitelist(caller, token, add) => caller == cfg.admin && (add || token in m.whitelist)
    case List(seller, id, asking, face, token, deadline, referrer) =>
      && !env.paused && 0 < asking < face <= MAX_AMOUNT && env.now < deadline
      && token in m.whitelist && seller in env.attested && referrer != Some(seller)
      && HasStatus(w.core.nft, id, Created) && w.core.nft.invoices[id].terms.amount == face
    case Fund(investor, id, amount) => FundAdmits(cfg, env, w, investor, id, amount)
    case CancelListing(caller, id) => MayCancel(cfg, m, id, caller)
    case RequestCancellation(caller, id) =>
      MayCancel(cfg, m, id, caller) && (m.listings[id].fundedAmount == 0 || id !in m.cancelRequests)
    case ConfirmCancellation(caller, id) => caller == cfg.admin && ActiveListing(m, id) && id in m.cancelRequests
    case ClaimRefund(investor, id) => RefundDue(env, m, investor, id)
    case TokenTransfer(token, from, _, amount) => 0 <= amount <= Balance(w.core.tokens, token, from)
    case TokenMint(_, _, _) => true
    case _ => false
  }

  lemma SettingCommitsExactly(cfg: Config, env: Env, w: World, a: Action)
    requires a.SetFee? || a.SetTierFee? || a.Whitelist? || Cancels(a) || a.TokenTransfer? || a.TokenMint?
    ensures Commits(cfg, env, w, a) <==> MarketAdmits(cfg, env, w, a)
  {
  }

  lemma ListCommitsExactly(cfg: Config, env: Env, w: World, a: Action)
    requires Coupled(w) && a.List?
    ensures Commits(cfg, env, w, a) <==> MarketAdmits(cfg, env, w, a)
  {
    assert CoupledAt(w, a.id);
  }

  lemma RefundCommitsExactly(cfg: Config, env: Env, w: World, a: Action, now: nat)
    requires Solvent(cfg, w, now) && a.ClaimRefund?
    ensures Commits(cfg, env, w, a) <==> MarketAdmits(cfg, env, w, a)
  {
    RefundNeverShort(cfg, env, w, now, a.investor, a.id);
  }

  lemma TakesExactly(cfg: Config, env: Env, b: Balances, token: Address, investor: Address, fee: i128, net: i128)
    requires fee >= 0 && net >= 0 && cfg.Valid()
    ensures Market.TakeContribution(cfg, env, b, token, investor, fee, net).Ok? <==>
              Affords(cfg, env, b, token, investor, fee, net)
  {
  }

  /** `release_funds` looks at the pause, the pools and the invoice, not at its caller. */
  lemma ReleasesExactly(cfg: Config, env: Env, c: Core, id: Id, token: Address)
    ensures Pools.ReleaseFunds(cfg, env, c, id, token).Ok? <==>
              && !env.paused && id !in c.pool.pools && token != cfg.pool && HasStatus(c.nft, id, Listed)
              && 0 < c.nft.invoices[id].terms.amount <= MAX_AMOUNT
  {
  }

  lemma ReleaseCommitsExactly(cfg: Config, env: Env, w: World, b: Balances, id: Id)
    requires Coupled(w) && id in w.market.listings && w.market.listings[id].isActive
    ensures Pools.ReleaseFunds(cfg, env, w.core.(tokens := b), id, w.market.listings[id].token).Ok? <==>
              !env.paused && w.market.listings[id].token != cfg.pool
  {
    assert CoupledAt(w, id);
    ReleasesExactly(cfg, env, w.core.(tokens := b), id, w.market.listings[id].token);
  }

  /** A contribution recorded never exceeds what the listing shows as funded. */
  ghost predicate RecordedWithin(w: World, investor: Address, id: Id) {
    id in w.market.listings ==> w.market.Contribution(id, investor) <= w.market.listings[id].fundedAmount
  }

  lemma RecordsContribution(w: World, investor: Address, id: Id, amount: i128, net: i128)
    requires Coupled(w) && RecordedWithin(w, investor, id) && id in w.market.listings
    requires w.market.Contribution(id, investor) >= 0
    requires 0 <= net <= amount <= w.market.listings[id].askingPrice - w.market.listings[id].fundedAmount
    ensures Market.RecordContribution(w.market, id, investor, amount, net).Ok?
    ensures Market.RecordContribution(w.market, id, investor, amount, net).value.listings[id].fundedAmount
         == w.market.listings[id].fundedAmount + amount
  {
    assert CoupledAt(w, id);
  }

  lemma ChargedExactly(cfg: Config, env: Env, w: World, id: Id, amount: i128)
    requires Coupled(w)
    ensures var charged := Market.FundingFee(cfg, env, w, id, amount);
            && (charged.Ok? <==> Chargeable(cfg, env, w, id, amount))
            && (charged.Ok? ==>
                  var decimals := cfg.decimals[w.market.listings[id].token];
                  charged.value == BpsOfNormalized(amount, RateFor(w, id), decimals).value)
  {
    assert CoupledAt(w, id);
  }

  lemma ContributesExactly(cfg: Config, env: Env, w: World, investor: Address, id: Id, amount: i128, fee: i128,
                           now: nat)
    requires cfg.Valid() && Coupled(w) && RefundsSound(w, now) && RecordedWithin(w, investor, id)
    requires !env.paused && ActiveListing(w.market, id) && 0 <= fee <= amount
    requires amount <= w.market.listings[id].askingPrice - w.market.listings[id].fundedAmount
    ensures var l := w.market.listings[id];
            Market.Contribute(cfg, env, w, investor, id, amount, fee).Ok? <==>
              && Affords(cfg, env, w.core.tokens, l.token, investor, fee, amount - fee)
              && (amount == l.askingPrice - l.fundedAmount ==> l.token != cfg.pool)
  {
    var l := w.market.listings[id];
    TakesExactly(cfg, env, w.core.tokens, l.token, investor, fee, amount - fee);
    RecordsContribution(w, investor, id, amount, amount - fee);
    var taken := Market.TakeContribution(cfg, env, w.core.tokens, l.token, investor, fee, amount - fee);
    if taken.Ok? { ReleaseCommitsExactly(cfg, env, w, taken.value, id); }
  }

  lemma FundCommitsExactly(cfg: Config, env: Env, w: World, investor: Address, id: Id, amount: i128, now: nat)
    requires cfg.Valid() && Coupled(w) && RefundsSound(w, now) && RecordedWithin(w, investor, id)
    ensures Commits(cfg, env, w, Fund(investor, id, amount)) <==> FundAdmits(cfg, env, w, investor, id, amount)
  {
    ChargedExactly(cfg, env, w, id, amount);
    if Chargeable(cfg, env, w, id, amount) {
      FeeWithinAmount(cfg, env, w, id, amount);
      var fee := Market.FundingFee(cfg, env, w, id, amount).value;
      ContributesExactly(cfg, env, w, investor, id, amount, fee, now);
    }
  }

  // ── financing_pool ─────────────────────────────────────────────────────────

  ghost predicate OpenPool(p: PoolStore, id: Id) {
    id in p.pools && !p.pools[id].isClosed
  }

  /** Every share of the amount can be computed. */
  ghost predicate Payable(cfg: Config, p: PoolStore, id: Id, token: Address, repaid: i128) {
    token in cfg.decimals && Computable(p.PositionsOf(id), repaid, cfg.decimals[token])
  }

  /** The late penalty, if this repayment brings it in, and the credit both fit. */
  ghost predicate Creditable(env: Env, invoice: Invoice, p: Pool, amount: i128) {
    && Oracle.Convert(env.prices, env.now, amount, invoice.currency, USDC).Ok?
    && (!p.penaltyApplied && p.latePenaltyBps > 0 && env.now > invoice.terms.dueDate ==>
          BpsOf(p.faceValue, p.latePenaltyBps).Ok? && p.totalOwed + Penalty(p) <= I128_MAX)
    && p.repaidAmount + CreditFor(env, invoice, amount) <= I128_MAX
  }

  ghost predicate RepayAdmits(cfg: Config, env: Env, c: Core, payer: Address, id: Id, token: Address, amount: i128) {
    && 0 < amount <= MAX_AMOUNT && id !in c.nft.frozen && OpenPool(c.pool, id) && id in c.nft.invoices
    && var invoice, p := c.nft.invoices[id], c.pool.pools[id];
    && Creditable(env, invoice, p, amount) && amount <= Balance(c.tokens, token, payer)
    && var repaid := p.repaidAmount + CreditFor(env, invoice, amount);
    && (repaid >= OwedAt(p, invoice.terms.dueDate, env.now) ==>
          !env.paused && HasStatus(c.nft, id, Funded) && Payable(cfg, c.pool, id, token, repaid))
  }

  ghost predicate PoolAdmits(cfg: Config, env: Env, c: Core, a: Action) {
    var p := c.pool;
    match a
    case SetMaxPosition(caller, bps) => caller == cfg.admin && 1 <= bps <= 10_000
    case RecordPosition(caller, id, investor, contributed, total) =>
      && caller == cfg.admin && !env.paused && 0 < contributed <= total <= MAX_AMOUNT
      && contributed * 10_000 <= I128_MAX && contributed * 10_000 / total <= p.maxPositionBps && id in p.pools
      && var token := p.pools[id].token;
      && var before := if investor in p.PositionsOf(id) then p.PositionsOf(id)[investor].contributed else 0;
      && I128_MIN <= p.AggregateFunded(token) - before <= I128_MAX
      && p.AggregateFunded(token) - before + contributed <= I128_MAX
    case Repay(payer, id, token, amount) => RepayAdmits(cfg, env, c, payer, id, token, amount)
    case MarkDefault(caller, id, token) =>
      && caller == cfg.admin && !env.paused && OpenPool(p, id)
      && HasStatus(c.nft, id, Funded) && env.now > c.nft.invoices[id].terms.dueDate
      && (p.pools[id].repaidAmount > 0 ==> Payable(cfg, p, id, token, p.pools[id].repaidAmount))
    case ProposeBuyout(sme, id, amount) =>
      && !env.paused && 0 < amount <= MAX_AMOUNT && OpenPool(p, id) && amount < p.pools[id].totalOwed
      && id !in p.buyouts && Owns(c.nft, id, sme) && amount <= Balance(c.tokens, p.pools[id].token, sme)
    case AcceptBuyout(investor, id) =>
      && !env.paused && id in p.buyouts && OpenPool(p, id)
      && investor in p.PositionsOf(id) && investor !in p.buyouts[id].accepted
      && var tally := p.buyouts[id].acceptedBps + p.PositionsOf(id)[investor].shareBps;
      && tally < 0x1_0000_0000
      && (tally >= 10_000 ==>
            HasStatus(c.nft, id, Funded) && Payable(cfg, p, id, p.pools[id].token, p.buyouts[id].amount))
    case CancelBuyout(sme, id) => id in p.buyouts && Owns(c.nft, id, sme)
    case ListForSale(seller, id, _, price) =>
      !env.paused && price > 0 && OpenPool(p, id) && seller in p.PositionsOf(id) && (id, seller) !in p.saleOffers
    case BuyPosition(buyer, id, seller) =>
      && !env.paused && (id, seller) in p.saleOffers && OpenPool(p, id) && seller in p.PositionsOf(id)
      && 0 <= p.saleOffers[(id, seller)].price
           <= Balance(c.tokens, p.saleOffers[(id, seller)].token, buyer)
    case _ => false
  }

  lemma PositionCommitsExactly(cfg: Config, env: Env, w: World, a: Action)
    requires a.SetMaxPosition? || a.ListForSale? || a.BuyPosition?
    ensures Commits(cfg, env, w, a) <==> PoolAdmits(cfg, env, w.core, a)
  {
  }

  lemma RecordCommitsExactly(cfg: Config, env: Env, w: World, a: Action)
    requires a.RecordPosition?
    ensures Commits(cfg, env, w, a) <==> PoolAdmits(cfg, env, w.core, a)
  {
    if 0 < a.contributed <= a.total && Pools.ShareOf(a.contributed, a.total).Ok? {
      Pools.ShareInRange(a.contributed, a.total);
    }
  }

  lemma BuyoutCommitsExactly(cfg: Config, env: Env, w: World, a: Action, now: nat)
    requires Solvent(cfg, w, now) && (a.ProposeBuyout? || a.CancelBuyout?)
    ensures Commits(cfg, env, w, a) <==> PoolAdmits(cfg, env, w.core, a)
  {
    assert CoupledAt(w, a.id);
    if a.CancelBuyout? { CancelBuyoutNeverShort(cfg, env, w, now, a.sme, a.id); }
  }

  /** With the money there, a distribution goes through exactly when it can be computed. */
  lemma DistributesExactly(cfg: Config, c: Core, id: Id, token: Address, repaid: i128)
    requires AllPositionsSound(c.pool) && 0 <= repaid <= Balance(c.tokens, token, cfg.pool)
    ensures Pools.Distribute(cfg, c, id, token, repaid).Ok? <==> Payable(cfg, c.pool, id, token, repaid)
  {
    var ps := c.pool.PositionsOf(id);
    NoPositionsSound(c.pool, id);
    if token in cfg.decimals {
      PaysAtMostRepaid(ps, repaid, cfg.decimals[token]);
      if Computable(ps, repaid, cfg.decimals[token]) {
        AllPaid(cfg, c.tokens, token, cfg.decimals[token], ps, repaid, ps.Keys, 0);
      }
      if Pools.Distribute(cfg, c, id, token, repaid).Ok? {
        PayHoldersPays(cfg, c.tokens, token, cfg.decimals[token], ps, repaid, ps.Keys, 0);
      }
    }
  }

  lemma DefaultCommitsExactly(cfg: Config, env: Env, w: World, a: Action, now: nat)
    requires Solvent(cfg, w, now) && a.MarkDefault? && FairCall(cfg, env, w, a)
    ensures Commits(cfg, env, w, a) <==> PoolAdmits(cfg, env, w.core, a)
  {
    var c, id := w.core, a.id;
    assert CoupledAt(w, id);
    if id in c.pool.pools && c.pool.pools[id].repaidAmount > 0 && HasStatus(c.nft, id, Funded) {
      EachCovered(cfg, w, now, a.token);
      assert OwedRepayments(c, a.token)[id] == c.pool.pools[id].repaidAmount;
      DistributesExactly(cfg, c, id, a.token, c.pool.pools[id].repaidAmount);
    }
  }

  lemma SettlesExactly(cfg: Config, env: Env, c: Core, id: Id, token: Address, repaid: i128)
    requires AllPositionsSound(c.pool)
    requires HasStatus(c.nft, id, Funded) ==> 0 <= repaid <= Balance(c.tokens, token, cfg.pool)
    ensures Pools.SettleRepaid(cfg, env, c, id, token, repaid).Ok? <==>
              !env.paused && HasStatus(c.nft, id, Funded) && Payable(cfg, c.pool, id, token, repaid)
  {
    if HasStatus(c.nft, id, Funded) { DistributesExactly(cfg, c, id, token, repaid); }
  }

  lemma CreditedExactly(cfg: Config, env: Env, invoice: Invoice, p: Pool, amount: i128)
    requires OwedRight(cfg, p) && amount > 0
    ensures Pools.Credited(env, invoice, p, amount).Ok? <==> Creditable(env, invoice, p, amount)
    ensures var q := Pools.Credited(env, invoice, p, amount);
            q.Ok? ==>
              && q.value.repaidAmount == p.repaidAmount + CreditFor(env, invoice, amount) >= 0
              && (q.value.isClosed <==> q.value.repaidAmount >= OwedAt(p, invoice.terms.dueDate, env.now))
  {
    BpsOfExact(p.faceValue, p.latePenaltyBps);
    if Oracle.Convert(env.prices, env.now, amount, invoice.currency, USDC).Ok? {
      Oracle.ConvertExact(env.prices, env.now, amount, invoice.currency, USDC);
    }
  }

  /** A pool under its lock, credited and paid in. */
  ghost function Held(c: Core, b: Balances, id: Id, p: Pool): Core {
    c.(tokens := b, pool := c.pool.(pools := c.pool.pools[id := p], locks := c.pool.locks + {id}))
  }

  lemma HeldSettlesExactly(cfg: Config, env: Env, c: Core, b: Balances, id: Id, p: Pool, token: Address)
    requires AllPositionsSound(c.pool)
    requires HasStatus(c.nft, id, Funded) ==> 0 <= p.repaidAmount <= Balance(b, token, cfg.pool)
    ensures Pools.SettleRepaid(cfg, env, Held(c, b, id, p), id, token, p.repaidAmount).Ok? <==>
              !env.paused && HasStatus(c.nft, id, Funded) && Payable(cfg, c.pool, id, token, p.repaidAmount)
  {
    SettlesExactly(cfg, env, Held(c, b, id, p), id, token, p.repaidAmount);
    assert Held(c, b, id, p).pool.PositionsOf(id) == c.pool.PositionsOf(id);
  }

  lemma AcceptCommitsExactly(cfg: Config, env: Env, w: World, a: Action, now: nat)
    requires Solvent(cfg, w, now) && a.AcceptBuyout?
    ensures Commits(cfg, env, w, a) <==> PoolAdmits(cfg, env, w.core, a)
  {
    var c, id := w.core, a.id;
    assert CoupledAt(w, id);
    if id in c.pool.buyouts && OpenPool(c.pool, id) && a.investor in c.pool.PositionsOf(id) {
      var p, offer := c.pool.pools[id], c.pool.buyouts[id];
      OfferCovered(cfg, w, now, id);
      HeldSettlesExactly(cfg, env, c, c.tokens, id, p.(repaidAmount := offer.amount, isClosed := true), p.token);
    }
  }

  /** What is left of a repayment once it is credited and paid in. */
  lemma RepaymentSettles(cfg: Config, env: Env, w: World, a: Action, now: nat)
    requires Solvent(cfg, w, now) && a.Repay? && FairCall(cfg, env, w, a) && OpenPool(w.core.pool, a.id)
    requires a.id in w.core.nft.invoices && 0 < a.amount <= Balance(w.core.tokens, a.token, a.payer)
    requires Pools.Credited(env, w.core.nft.invoices[a.id], w.core.pool.pools[a.id], a.amount).Ok?
    ensures var c, id := w.core, a.id;
            var p := Pools.Credited(env, c.nft.invoices[id], c.pool.pools[id], a.amount).value;
            var b := Transfer(c.tokens, a.token, a.payer, cfg.pool, a.amount).value;
            Pools.SettleRepaid(cfg, env, Held(c, b, id, p), id, a.token, p.repaidAmount).Ok? <==>
              !env.paused && HasStatus(c.nft, id, Funded) && Payable(cfg, c.pool, id, a.token, p.repaidAmount)
  {
    var c, id := w.core, a.id;
    if HasStatus(c.nft, id, Funded) { PaidInCovers(cfg, env, w, a, now); }
    HeldSettlesExactly(cfg, env, c, Transfer(c.tokens, a.token, a.payer, cfg.pool, a.amount).value, id,
                       Pools.Credited(env, c.nft.invoices[id], c.pool.pools[id], a.amount).value, a.token);
  }

  lemma RepayCommitsExactly(cfg: Config, env: Env, w: World, a: Action, now: nat)
    requires Solvent(cfg, w, now) && a.Repay? && FairCall(cfg, env, w, a)
    ensures Commits(cfg, env, w, a) <==> PoolAdmits(cfg, env, w.core, a)
  {
    var c, id := w.core, a.id;
    assert CoupledAt(w, id);
    if OpenPool(c.pool, id) && 0 < a.amount <= Balance(c.tokens, a.token, a.payer) {
      var invoice, p0 := c.nft.invoices[id], c.pool.pools[id];
      CreditedExactly(cfg, env, invoice, p0, a.amount);
      if Creditable(env, invoice, p0, a.amount) {
        RepaymentSettles(cfg, env, w, a, now);
      }
    }
  }

  /** Paying in covers what a Funded invoice has then been repaid. */
  lemma PaidInCovers(cfg: Config, env: Env, w: World, a: Action, now: nat)
    requires Solvent(cfg, w, now) && a.Repay? && FairCall(cfg, env, w, a) && OpenPool(w.core.pool, a.id)
    requires HasStatus(w.core.nft, a.id, Funded) && 0 < a.amount <= Balance(w.core.tokens, a.token, a.payer)
    requires Pools.Credited(env, w.core.nft.invoices[a.id], w.core.pool.pools[a.id], a.amount).Ok?
    ensures var c := w.core;
            var b := Transfer(c.tokens, a.token, a.payer, cfg.pool, a.amount).value;
            0 <= Pools.Credited(env, c.nft.invoices[a.id], c.pool.pools[a.id], a.amount).value.repaidAmount
              <= Balance(b, a.token, cfg.pool)
  {
    var c, id := w.core, a.id;
    CreditGrows(cfg, env, c.nft.invoices[id], c.pool.pools[id], a.amount);
    EachCovered(cfg, w, now, a.token);
    assert OwedRepayments(c, a.token)[id] == c.pool.pools[id].repaidAmount;
    TransferMoves(c.tokens, a.token, a.payer, cfg.pool, a.amount, a.token, cfg.pool);
  }

  // ── Any call, after any fair run ───────────────────────────────────────────

  ghost predicate Admits(cfg: Config, env: Env, w: World, a: Action) {
    if IsNft(a) then NftAdmits(cfg, env, w.core.nft, a)
    else if IsPool(a) then PoolAdmits(cfg, env, w.core, a)
    else MarketAdmits(cfg, env, w, a)
  }

  lemma PoolCommitsExactly(cfg: Config, env: Env, w: World, a: Action, now: nat)
    requires Solvent(cfg, w, now) && IsPool(a) && (a.Repay? || a.MarkDefault? ==> FairCall(cfg, env, w, a))
    ensures Commits(cfg, env, w, a) <==> PoolAdmits(cfg, env, w.core, a)
  {
    if a.RecordPosition? { RecordCommitsExactly(cfg, env, w, a); }
    else if a.Repay? { RepayCommitsExactly(cfg, env, w, a, now); }
    else if a.MarkDefault? { DefaultCommitsExactly(cfg, env, w, a, now); }
    else if a.AcceptBuyout? { AcceptCommitsExactly(cfg, env, w, a, now); }
    else if a.ProposeBuyout? || a.CancelBuyout? { BuyoutCommitsExactly(cfg, env, w, a, now); }
    else { PositionCommitsExactly(cfg, env, w, a); }
  }

  lemma MarketCommitsExactly(cfg: Config, env: Env, w: World, a: Action, now: nat)
    requires cfg.Valid() && Solvent(cfg, w, now) && !IsNft(a) && !IsPool(a)
    requires a.Fund? ==> RecordedWithin(w, a.investor, a.id)
    ensures Commits(cfg, env, w, a) <==> MarketAdmits(cfg, env, w, a)
  {
    if a.Fund? { FundCommitsExactly(cfg, env, w, a.investor, a.id, a.amount, now); }
    else if a.ClaimRefund? { RefundCommitsExactly(cfg, env, w, a, now); }
    else if a.List? { ListCommitsExactly(cfg, env, w, a); }
    else { SettingCommitsExactly(cfg, env, w, a); }
  }

  lemma RecordedOverRun(cfg: Config, w0: World, run: Run, investor: Address, id: Id)
    requires Initial(w0) && Timely(run)
    ensures RecordedWithin(After(cfg, w0, run), investor, id)
  {
    var w := After(cfg, w0, run);
    RunSound(cfg, w0, run);
    FundingConserved(cfg, w0, run, id);
    SumNonNegative(ContributionsTo(w.market, id));
    assert (id, investor) in w.market.contributions ==>
      ContributionsTo(w.market, id)[(id, investor)] == w.market.Contribution(id, investor);
  }

  /** After any run whose committed calls are fair, a call goes through exactly when `Admits`
      says so: nothing else stops it, and in particular never a lack of money in the pool. Of
      a repayment and a default this is said when they are fair themselves. */
  lemma CommitsExactly(cfg: Config, w0: World, run: Run, env: Env, a: Action)
    requires cfg.Valid() && Initial(w0) && Timely(run) && FairRun(cfg, w0, run)
    requires a.Repay? || a.MarkDefault? ==> FairCall(cfg, env, After(cfg, w0, run), a)
    ensures Commits(cfg, env, After(cfg, w0, run), a) <==> Admits(cfg, env, After(cfg, w0, run), a)
  {
    var w := After(cfg, w0, run);
    AlwaysSolvent(cfg, w0, run);
    if IsNft(a) { NftCommitsExactly(cfg, env, w, a); }
    else if IsPool(a) { PoolCommitsExactly(cfg, env, w, a, Clock(run)); }
    else {
      if a.Fund? { RecordedOverRun(cfg, w0, run, a.investor, a.id); }
      MarketCommitsExactly(cfg, env, w, a, Clock(run));
    }
  }

  /** So a refund is paid exactly when it is due. */
  lemma RefundPaidExactlyWhenDue(cfg: Config, w0: World, run: Run, env: Env, investor: Address, id: Id)
    requires cfg.Valid() && Initial(w0) && Timely(run) && FairRun(cfg, w0, run)
    ensures PaysRefund(cfg, env, After(cfg, w0, run), ClaimRefund(investor, id), id, investor)
       <==> RefundDue(env, After(cfg, w0, run).market, investor, id)
  {
    CommitsExactly(cfg, w0, run, env, ClaimRefund(investor, id));
  }
}
