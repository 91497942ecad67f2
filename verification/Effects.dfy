/** What a committed call changes, stated without the code's order of checks and writes: the
    records it writes, the tokens it moves, and that everything else stays. The invariants
    are proved from these effects. */
module Effects {
  import opened Outcomes
  import opened Validation
  import opened Sums
  import opened Records
  import opened TokenLedger
  import opened Distribution
  import opened Protocol
  import Pools = PoolSpec
  import Market = MarketSpec

  ghost function WithInvoice(nft: NftStore, id: Id, invoice: Invoice): NftStore {
    nft.(invoices := nft.invoices[id := invoice])
  }

  ghost predicate HasStatus(nft: NftStore, id: Id, s: InvoiceStatus) {
    id in nft.invoices && nft.invoices[id].status == s
  }

  /** `amount` left one holder for another, who is possibly the same; nothing else moved. */
  ghost predicate Moved(b: Balances, b': Balances, token: Address, from: Address, to: Address, amount: int) {
    && 0 <= amount <= Balance(b, token, from)
    && forall t, h :: Balance(b', t, h) == Balance(b, t, h)
         + (if t == token && h == to then amount else 0)
         - (if t == token && h == from then amount else 0)
  }

  /** The investor paid `fee` to the treasury and `net` to the pool. */
  ghost predicate ContributionMoved(cfg: Config, b: Balances, b': Balances, token: Address, investor: Address,
                                    fee: int, net: int)
  {
    forall t, h :: Balance(b', t, h) == Balance(b, t, h)
      + (if t == token && h == cfg.treasury then fee else 0)
      + (if t == token && h == cfg.pool then net else 0)
      - (if t == token && h == investor then fee + net else 0)
  }

  ghost predicate SmallContributions(ps: Positions) {
    (forall h | h in ps :: ps[h].contributed >= 0) && Sum(Contributed(ps, ps.Keys)) <= I128_MAX
  }

  /** One distribution of `repaid` for the invoice: tokens and the aggregate change, the
      rest of the pool's storage and the invoices do not. */
  ghost predicate Distributed(cfg: Config, c: Core, c': Core, id: Id, token: Address, repaid: i128) {
    var ps := c.pool.PositionsOf(id);
    && c'.nft == c.nft
    && token in cfg.decimals
    && (forall h | h in ps :: BpsOfNormalized(repaid, ps[h].shareBps, cfg.decimals[token]).Ok?)
    && Paid(c.tokens, c'.tokens, token, cfg.pool, Payouts(ps, repaid, cfg.decimals[token], ps.Keys))
    && c'.pool == c.pool.(aggregate := c'.pool.aggregate)
    && (SmallContributions(ps) ==>
          c'.pool.aggregate == c.pool.aggregate[token :=
            Saturate(c.pool.AggregateFunded(token) - Sum(Contributed(ps, ps.Keys)))])
  }

  /** The call commits and runs `distribute_yield` for its invoice. */
  ghost predicate Distributes(env: Env, c: Core, a: Action) {
    match a
    case Repay(_, id, _, amount) =>
      && id in c.pool.pools && id in c.nft.invoices
      && var p := Pools.Credited(env, c.nft.invoices[id], c.pool.pools[id], amount);
      && p.Ok? && p.value.isClosed
    case MarkDefault(_, id, _) => id in c.pool.pools && c.pool.pools[id].repaidAmount > 0
    case AcceptBuyout(investor, id) =>
      && id in c.pool.buyouts && investor in c.pool.PositionsOf(id)
      && c.pool.buyouts[id].acceptedBps + c.pool.PositionsOf(id)[investor].shareBps >= BPS
    case _ => false
  }

  ghost predicate NftEffect(cfg: Config, env: Env, n: NftStore, n': NftStore, a: Action) {
    match a
    case Mint(sme, terms, currency, notes) =>
      && terms.amount > 0
      && n' == WithInvoice(n, n.nextId, Invoice(n.nextId, sme, terms, currency, [], TierFromScore(terms.riskScore),
                                                Created, env.now, None, None, notes)).(nextId := n.nextId + 1)
    case Amend(sme, id, terms) =>
      && HasStatus(n, id, Created) && n.invoices[id].sme == sme && terms.amount > 0
      && n' == WithInvoice(n, id, n.invoices[id].(terms := terms, riskTier := TierFromScore(terms.riskScore)))
    case Withdraw(sme, id) =>
      && HasStatus(n, id, Created) && n.invoices[id].sme == sme
      && n' == n.(invoices := n.invoices - {id}).Released(n.invoices[id])
    case SetDefaulted(caller, id) =>
      && caller == cfg.admin && HasStatus(n, id, Funded) && env.now > n.invoices[id].terms.dueDate
      && n' == WithInvoice(n, id, n.invoices[id].(status := Defaulted)).Released(n.invoices[id])
    case SetFrozen(caller, id, _) => caller == cfg.admin && n' == n.(frozen := n'.frozen)
    case _ => false
  }

  ghost predicate FundEffect(cfg: Config, env: Env, w: World, w': World, investor: Address, id: Id, amount: i128) {
    var m, m', c, c' := w.market, w'.market, w.core, w'.core;
    && amount > 0 && id in m.listings && id in m'.listings
    && Market.FundingFee(cfg, env, w, id, amount).Ok?
    && var l, l', fee := m.listings[id], m'.listings[id], Market.FundingFee(cfg, env, w, id, amount).value;
    && l.isActive && env.now <= l.fundingDeadline && amount <= l.askingPrice - l.fundedAmount
    && l'.fundedAmount == l.fundedAmount + amount
    && (l'.isActive <==> l'.fundedAmount < l.askingPrice)
    && l' == l.(fundedAmount := l'.fundedAmount, isActive := l'.isActive)
    && m' == m.(listings := m.listings[id := l'],
                contributions := m.contributions[(id, investor) := m'.Contribution(id, investor)])
    && m'.Contribution(id, investor) == m.Contribution(id, investor) + amount - fee
    && (0 <= fee <= amount ==> ContributionMoved(cfg, c.tokens, c'.tokens, l.token, investor, fee, amount - fee))
    && if l'.isActive then c'.nft == c.nft && c'.pool == c.pool else
         && id !in c.pool.pools && HasStatus(c.nft, id, Listed)
         && var face := c.nft.invoices[id].terms.amount;
         && 0 < face <= MAX_AMOUNT
         && c'.pool == c.pool.(pools := c.pool.pools[id :=
              Pool(id, l.token, 0, face, 0, false, cfg.latePenaltyBps, face, false)])
         && c'.nft == WithInvoice(c.nft, id, c.nft.invoices[id].(status := Funded, fundedAt := Some(env.now)))
  }

  ghost predicate MarketEffect(cfg: Config, env: Env, w: World, w': World, a: Action) {
    var m, m', c, c' := w.market, w'.market, w.core, w'.core;
    match a
    case SetFee(_, bps) => bps <= BPS && w' == w.(market := m.(feeBps := bps))
    case SetTierFee(_, tier, bps) => bps <= BPS && w' == w.(market := m.(tierFeeBps := m.tierFeeBps[tier := bps]))
    case Whitelist(_, _, _) => w' == w.(market := m.(whitelist := m'.whitelist))
    case List(seller, id, asking, face, token, deadline, _) =>
      && 0 < asking < face <= MAX_AMOUNT && id !in m.listings
      && HasStatus(c.nft, id, Created) && c.nft.invoices[id].terms.amount == face
      && m' == m.(listings := m.listings[id := Listing(id, seller, asking, face, token, 0, deadline, true)],
                  referrers := m'.referrers)
      && c' == c.(nft := WithInvoice(c.nft, id, c.nft.invoices[id].(status := Listed)))
    case Fund(investor, id, amount) => FundEffect(cfg, env, w, w', investor, id, amount)
    case CancelListing(_, id) =>
      && id in m.listings && m.listings[id].isActive && c' == c
      && m' == m.(listings := m.listings[id := m.listings[id].(isActive := false)])
    case RequestCancellation(_, id) =>
      && id in m.listings && m.listings[id].isActive && c' == c
      && (m' == m.(listings := m.listings[id := m.listings[id].(isActive := false)])
          || m' == m.(cancelRequests := m'.cancelRequests))
    case ConfirmCancellation(_, id) =>
      && id in m.listings && m.listings[id].isActive && c' == c
      && m' == m.(listings := m.listings[id := m.listings[id].(isActive := false)],
                  cancelRequests := m'.cancelRequests, cancelConfirmed := m.cancelConfirmed + {id})
    case ClaimRefund(investor, id) =>
      && id in m.listings && m.listings[id].fundedAmount < m.listings[id].askingPrice
      && (id in m.cancelConfirmed || env.now > m.listings[id].fundingDeadline)
      && (id, investor) !in m.refunded && m.Contribution(id, investor) > 0
      && m' == m.(refunded := m.refunded + {(id, investor)})
      && c' == c.(tokens := c'.tokens)
      && Moved(c.tokens, c'.tokens, m.listings[id].token, cfg.pool, investor, m.Contribution(id, investor))
    case _ => false
  }

  ghost predicate RecordEffect(c: Core, c': Core, id: Id, investor: Address, contributed: i128, total: i128) {
    var p, p' := c.pool, c'.pool;
    && id in p.pools && 0 < contributed <= total <= MAX_AMOUNT && contributed * BPS / total <= BPS
    && id in p'.positions && investor in p'.positions[id]
    && var before, token := p.PositionsOf(id), p.pools[id].token;
    && p'.positions[id][investor].contributed == contributed
    && p'.positions[id][investor].shareBps == contributed * BPS / total
    && c' == c.(pool := p.(positions := p.positions[id := before[investor := p'.positions[id][investor]]],
                           aggregate := p.aggregate[token := p'.AggregateFunded(token)]))
    && p'.AggregateFunded(token) == p.AggregateFunded(token)
         - (if investor in before then before[investor].contributed else 0) + contributed
  }

  ghost predicate SettleEffect(cfg: Config, env: Env, c: Core, c': Core, id: Id, token: Address, repaid: i128) {
    && HasStatus(c.nft, id, Funded)
    && c'.nft == WithInvoice(c.nft, id, c.nft.invoices[id].(status := Repaid, repaidAt := Some(env.now)))
                  .Released(c.nft.invoices[id])
    && Distributed(cfg, c, c'.(nft := c.nft), id, token, repaid)
  }

  ghost predicate RepayEffect(cfg: Config, env: Env, c: Core, c': Core, payer: Address, id: Id, token: Address,
                              amount: i128)
  {
    && amount > 0
    && id in c.pool.pools && !c.pool.pools[id].isClosed && id in c.nft.invoices && id !in c.pool.locks
    && Pools.Credited(env, c.nft.invoices[id], c.pool.pools[id], amount).Ok?
    && var p := Pools.Credited(env, c.nft.invoices[id], c.pool.pools[id], amount).value;
    && Transfer(c.tokens, token, payer, cfg.pool, amount).Ok?
    && var credited := c.(tokens := Transfer(c.tokens, token, payer, cfg.pool, amount).value,
                          pool := c.pool.(pools := c.pool.pools[id := p]));
    && if p.isClosed then SettleEffect(cfg, env, credited, c', id, token, p.repaidAmount) else c' == credited
  }

  ghost predicate AcceptEffect(cfg: Config, env: Env, c: Core, c': Core, investor: Address, id: Id) {
    && id in c.pool.pools && !c.pool.pools[id].isClosed && id in c.pool.buyouts && id !in c.pool.locks
    && investor in c.pool.PositionsOf(id) && investor !in c.pool.buyouts[id].accepted
    && var offer, share := c.pool.buyouts[id], c.pool.PositionsOf(id)[investor].shareBps;
    && if offer.acceptedBps + share >= BPS then
         var credited := c.(pool := c.pool.(
           pools := c.pool.pools[id := c.pool.pools[id].(repaidAmount := offer.amount, isClosed := true)],
           buyouts := c.pool.buyouts - {id}));
         SettleEffect(cfg, env, credited, c', id, c.pool.pools[id].token, offer.amount)
       else
         c' == c.(pool := c.pool.(buyouts := c.pool.buyouts[id :=
                 offer.(acceptedBps := offer.acceptedBps + share, accepted := offer.accepted + [investor])]))
  }

  ghost predicate DefaultEffect(cfg: Config, env: Env, c: Core, c': Core, caller: Address, id: Id, token: Address) {
    && caller == cfg.admin && id in c.pool.pools && !c.pool.pools[id].isClosed
    && HasStatus(c.nft, id, Funded) && env.now > c.nft.invoices[id].terms.dueDate
    && c'.nft == WithInvoice(c.nft, id, c.nft.invoices[id].(status := Defaulted)).Released(c.nft.invoices[id])
    && if c.pool.pools[id].repaidAmount > 0
       then Distributed(cfg, c, c'.(nft := c.nft), id, token, c.pool.pools[id].repaidAmount)
       else c' == c.(nft := c'.nft)
  }

  ghost predicate PoolEffect(cfg: Config, env: Env, c: Core, c': Core, a: Action) {
    var p, p' := c.pool, c'.pool;
    match a
    case SetMaxPosition(_, bps) => c' == c.(pool := p.(maxPositionBps := bps))
    case RecordPosition(_, id, investor, contributed, total) => RecordEffect(c, c', id, investor, contributed, total)
    case Repay(payer, id, token, amount) => RepayEffect(cfg, env, c, c', payer, id, token, amount)
    case MarkDefault(caller, id, token) => DefaultEffect(cfg, env, c, c', caller, id, token)
    case ProposeBuyout(sme, id, amount) =>
      && amount > 0 && id in p.pools && !p.pools[id].isClosed && amount < p.pools[id].totalOwed && id !in p.buyouts
      && Moved(c.tokens, c'.tokens, p.pools[id].token, sme, cfg.pool, amount)
      && c' == c.(tokens := c'.tokens, pool := p.(buyouts := p.buyouts[id := Buyout(id, amount, 0, [])]))
    case AcceptBuyout(investor, id) => AcceptEffect(cfg, env, c, c', investor, id)
    case CancelBuyout(sme, id) =>
      && id in p.buyouts && id in p.pools
      && id in c.nft.invoices && c.nft.invoices[id].sme == sme
      && Moved(c.tokens, c'.tokens, p.pools[id].token, cfg.pool, sme, p.buyouts[id].amount)
      && c' == c.(tokens := c'.tokens, pool := p.(buyouts := p.buyouts - {id}))
    case ListForSale(_, _, _, _) => c' == c.(pool := p.(saleOffers := p'.saleOffers))
    case BuyPosition(buyer, id, seller) =>
      && (id, seller) in p.saleOffers && id in p.pools && seller in p.PositionsOf(id)
      && var offer, ps := p.saleOffers[(id, seller)], p.PositionsOf(id);
      && Moved(c.tokens, c'.tokens, offer.token, buyer, seller, offer.price)
      && c' == c.(tokens := c'.tokens,
                  pool := p.(saleOffers := p'.saleOffers,
                             positions := p.positions[id :=
                               (ps - {seller})[buyer := ps[seller].(investor := buyer, invoiceId := id)]]))
    case _ => false
  }

  /** The effect of any committed call. */
  ghost predicate Effect(cfg: Config, env: Env, w: World, w': World, a: Action) {
    if IsNft(a) then w' == w.(core := w.core.(nft := w'.core.nft)) && NftEffect(cfg, env, w.core.nft, w'.core.nft, a)
    else if IsPool(a) then w' == w.(core := w'.core) && PoolEffect(cfg, env, w.core, w'.core, a)
    else if a.TokenTransfer? then
      && w' == w.(core := w.core.(tokens := w'.core.tokens))
      && Moved(w.core.tokens, w'.core.tokens, a.token, a.from, a.to, a.amount)
    else if a.TokenMint? then
      w' == w.(core := w.core.(tokens := Credit(w.core.tokens, a.token, a.to, a.minted)))
    else MarketEffect(cfg, env, w, w', a)
  }

  ghost predicate IsNft(a: Action) {
    a.Mint? || a.Amend? || a.Withdraw? || a.SetDefaulted? || a.SetFrozen?
  }

  ghost predicate Cancels(a: Action) {
    a.CancelListing? || a.RequestCancellation? || a.ConfirmCancellation?
  }

  ghost predicate IsPool(a: Action) {
    || a.SetMaxPosition? || a.RecordPosition? || a.Repay? || a.MarkDefault? || a.ProposeBuyout? || a.AcceptBuyout?
    || a.CancelBuyout? || a.ListForSale? || a.BuyPosition?
  }

  // ── Every committed call has its effect ────────────────────────────────────

  lemma TransferEffect(b: Balances, token: Address, from: Address, to: Address, amount: int)
    requires Transfer(b, token, from, to, amount).Ok?
    ensures Moved(b, Transfer(b, token, from, to, amount).value, token, from, to, amount)
  {
  }

  lemma DistributeEffect(cfg: Config, c: Core, id: Id, token: Address, repaid: i128)
    requires Pools.Distribute(cfg, c, id, token, repaid).Ok?
    ensures Distributed(cfg, c, Pools.Distribute(cfg, c, id, token, repaid).value, id, token, repaid)
  {
    var ps := c.pool.PositionsOf(id);
    PayHoldersPays(cfg, c.tokens, token, cfg.decimals[token], ps, repaid, ps.Keys, 0);
    if SmallContributions(ps) { SettledExact(cfg, c.tokens, token, cfg.decimals[token], ps, repaid, ps.Keys, 0); }
  }

  lemma SettleRepaidEffect(cfg: Config, env: Env, c: Core, id: Id, token: Address, repaid: i128)
    requires Pools.SettleRepaid(cfg, env, c, id, token, repaid).Ok?
    ensures SettleEffect(cfg, env, c, Pools.SettleRepaid(cfg, env, c, id, token, repaid).value, id, token, repaid)
  {
    DistributeEffect(cfg, c, id, token, repaid);
  }

  lemma DistributedWithout(cfg: Config, c: Core, c': Core, id: Id, token: Address, repaid: i128, d: Core, d': Core)
    requires Distributed(cfg, c, c', id, token, repaid)
    requires d.tokens == c.tokens && d'.tokens == c'.tokens && d'.nft == d.nft
    requires d.pool == c.pool.(locks := d.pool.locks, buyouts := d.pool.buyouts)
    requires d'.pool == c'.pool.(locks := d.pool.locks, buyouts := d.pool.buyouts)
    ensures Distributed(cfg, d, d', id, token, repaid)
  {
    assert d.pool.PositionsOf(id) == c.pool.PositionsOf(id);
  }

  /** Settling does not look at the lock it is run under, nor at the buyout. */
  lemma SettleWithout(cfg: Config, env: Env, c: Core, c': Core, id: Id, token: Address, repaid: i128, d: Core, d': Core)
    requires SettleEffect(cfg, env, c, c', id, token, repaid)
    requires d.tokens == c.tokens && d.nft == c.nft && d'.tokens == c'.tokens && d'.nft == c'.nft
    requires d.pool == c.pool.(locks := d.pool.locks, buyouts := d.pool.buyouts)
    requires d'.pool == c'.pool.(locks := d.pool.locks, buyouts := d.pool.buyouts)
    ensures SettleEffect(cfg, env, d, d', id, token, repaid)
  {
    DistributedWithout(cfg, c, c'.(nft := c.nft), id, token, repaid, d, d'.(nft := d.nft));
  }

  lemma RepayHasEffect(cfg: Config, env: Env, c: Core, payer: Address, id: Id, token: Address, amount: i128)
    requires Pools.Repay(cfg, env, c, payer, id, token, amount).Ok?
    ensures RepayEffect(cfg, env, c, Pools.Repay(cfg, env, c, payer, id, token, amount).value, payer, id, token, amount)
  {
    var c' := Pools.Repay(cfg, env, c, payer, id, token, amount).value;
    var p := Pools.Credited(env, c.nft.invoices[id], c.pool.pools[id], amount).value;
    var b := Transfer(c.tokens, token, payer, cfg.pool, amount).value;
    var held := c.(tokens := b, pool := c.pool.(pools := c.pool.pools[id := p], locks := c.pool.locks + {id}));
    assert c.pool.locks + {id} - {id} == c.pool.locks;
    if p.isClosed {
      SettleRepaidEffect(cfg, env, held, id, token, p.repaidAmount);
      var settled := Pools.SettleRepaid(cfg, env, held, id, token, p.repaidAmount).value;
      SettleWithout(cfg, env, held, settled, id, token, p.repaidAmount,
                    held.(pool := held.pool.(locks := c.pool.locks)), c');
    }
  }

  lemma AcceptHasEffect(cfg: Config, env: Env, c: Core, investor: Address, id: Id)
    requires Pools.AcceptBuyout(cfg, env, c, investor, id).Ok?
    ensures AcceptEffect(cfg, env, c, Pools.AcceptBuyout(cfg, env, c, investor, id).value, investor, id)
  {
    var c' := Pools.AcceptBuyout(cfg, env, c, investor, id).value;
    var offer, p := c.pool.buyouts[id], c.pool.pools[id];
    if offer.acceptedBps + c.pool.PositionsOf(id)[investor].shareBps >= BPS {
      var closed := p.(repaidAmount := offer.amount, isClosed := true);
      var held := c.(pool := c.pool.(pools := c.pool.pools[id := closed], locks := c.pool.locks + {id}));
      SettleRepaidEffect(cfg, env, held, id, p.token, offer.amount);
      var settled := Pools.SettleRepaid(cfg, env, held, id, p.token, offer.amount).value;
      assert c.pool.locks + {id} - {id} == c.pool.locks;
      SettleWithout(cfg, env, held, settled, id, p.token, offer.amount,
                    held.(pool := held.pool.(locks := c.pool.locks, buyouts := c.pool.buyouts - {id})), c');
    }
  }

  lemma DefaultHasEffect(cfg: Config, env: Env, c: Core, caller: Address, id: Id, token: Address)
    requires Pools.MarkDefault(cfg, env, c, caller, id, token).Ok?
    ensures DefaultEffect(cfg, env, c, Pools.MarkDefault(cfg, env, c, caller, id, token).value, caller, id, token)
  {
    var repaid := c.pool.pools[id].repaidAmount;
    if repaid > 0 { DistributeEffect(cfg, c, id, token, repaid); }
  }

  lemma FundHasEffect(cfg: Config, env: Env, w: World, investor: Address, id: Id, amount: i128)
    requires Market.FundInvoice(cfg, env, w, investor, id, amount).Ok?
    ensures FundEffect(cfg, env, w, Market.FundInvoice(cfg, env, w, investor, id, amount).value, investor, id, amount)
  {
    var fee := Market.FundingFee(cfg, env, w, id, amount).value;
    if 0 <= fee <= amount {
      TakeContributionEffect(cfg, env, w.core.tokens, w.market.listings[id].token, investor, fee, amount - fee);
    }
  }

  lemma TakeContributionEffect(cfg: Config, env: Env, b: Balances, token: Address, investor: Address, fee: i128,
                               net: i128)
    requires fee >= 0 && net >= 0 && Market.TakeContribution(cfg, env, b, token, investor, fee, net).Ok?
    ensures ContributionMoved(cfg, b, Market.TakeContribution(cfg, env, b, token, investor, fee, net).value, token,
        investor, fee, net)
  {
    var b1 := if fee > 0 then Transfer(b, token, investor, cfg.treasury, fee).value else b;
    var b2 := Market.TakeContribution(cfg, env, b, token, investor, fee, net).value;
    forall t, h
      ensures Balance(b2, t, h) == Balance(b, t, h)
        + (if t == token && h == cfg.treasury then fee else 0)
        + (if t == token && h == cfg.pool then net else 0)
        - (if t == token && h == investor then fee + net else 0)
    {
      if fee > 0 { TransferMoves(b, token, investor, cfg.treasury, fee, t, h); }
      if net > 0 { TransferMoves(b1, token, investor, cfg.pool, net, t, h); }
    }
  }

  lemma RecordHasEffect(cfg: Config, env: Env, c: Core, caller: Address, id: Id, investor: Address,
                        contributed: i128, total: i128)
    requires Pools.RecordPosition(cfg, env, c, caller, id, investor, contributed, total).Ok?
    ensures RecordEffect(c, Pools.RecordPosition(cfg, env, c, caller, id, investor, contributed, total).value,
                         id, investor, contributed, total)
  {
    Pools.ShareInRange(contributed, total);
  }

  lemma ProposeHasEffect(cfg: Config, env: Env, w: World, a: Action)
    requires Commits(cfg, env, w, a) && a.ProposeBuyout?
    ensures PoolEffect(cfg, env, w.core, Step(cfg, env, w, a).core, a)
  {
  }

  lemma CancelHasEffect(cfg: Config, env: Env, w: World, a: Action)
    requires Commits(cfg, env, w, a) && a.CancelBuyout?
    ensures PoolEffect(cfg, env, w.core, Step(cfg, env, w, a).core, a)
  {
  }

  lemma BuyHasEffect(cfg: Config, env: Env, w: World, a: Action)
    requires Commits(cfg, env, w, a) && a.BuyPosition?
    ensures PoolEffect(cfg, env, w.core, Step(cfg, env, w, a).core, a)
  {
  }

  lemma SettleHasEffect(cfg: Config, env: Env, w: World, a: Action)
    requires Commits(cfg, env, w, a) && (a.Repay? || a.AcceptBuyout? || a.MarkDefault?)
    ensures PoolEffect(cfg, env, w.core, Step(cfg, env, w, a).core, a)
  {
    if a.Repay? { RepayHasEffect(cfg, env, w.core, a.payer, a.id, a.token, a.amount); }
    else if a.AcceptBuyout? { AcceptHasEffect(cfg, env, w.core, a.investor, a.id); }
    else { DefaultHasEffect(cfg, env, w.core, a.caller, a.id, a.token); }
  }

  lemma PositionHasEffect(cfg: Config, env: Env, w: World, a: Action)
    requires Commits(cfg, env, w, a) && (a.RecordPosition? || a.SetMaxPosition? || a.ListForSale?)
    ensures PoolEffect(cfg, env, w.core, Step(cfg, env, w, a).core, a)
  {
    if a.RecordPosition? { RecordHasEffect(cfg, env, w.core, a.caller, a.id, a.investor, a.contributed, a.total); }
  }

  /** A pool call touches nothing of the marketplace's storage. */
  lemma OnlyCore(cfg: Config, env: Env, w: World, a: Action)
    requires IsPool(a)
    ensures Step(cfg, env, w, a) == w.(core := Step(cfg, env, w, a).core)
  {
  }

  lemma HasPoolEffect(cfg: Config, env: Env, w: World, a: Action)
    requires Commits(cfg, env, w, a) && IsPool(a)
    ensures PoolEffect(cfg, env, w.core, Step(cfg, env, w, a).core, a)
  {
    if a.ProposeBuyout? { ProposeHasEffect(cfg, env, w, a); }
    else if a.CancelBuyout? { CancelHasEffect(cfg, env, w, a); }
    else if a.BuyPosition? { BuyHasEffect(cfg, env, w, a); }
    else if a.Repay? || a.AcceptBuyout? || a.MarkDefault? { SettleHasEffect(cfg, env, w, a); }
    else { PositionHasEffect(cfg, env, w, a); }
  }

  lemma HasNftEffect(cfg: Config, env: Env, w: World, a: Action)
    requires Commits(cfg, env, w, a) && IsNft(a)
    ensures Effect(cfg, env, w, Step(cfg, env, w, a), a)
  {
  }

  lemma HasMarketEffect(cfg: Config, env: Env, w: World, a: Action)
    requires Commits(cfg, env, w, a) && !IsNft(a) && !IsPool(a) && !a.Fund?
    ensures Effect(cfg, env, w, Step(cfg, env, w, a), a)
  {
    if a.List? { ListHasEffect(cfg, env, w, a); }
    else if a.ClaimRefund? { ClaimHasEffect(cfg, env, w, a); }
    else if Cancels(a) { CancellationHasEffect(cfg, env, w, a); }
    else if a.TokenTransfer? || a.TokenMint? { TokenHasEffect(cfg, env, w, a); }
    else { SettingHasEffect(cfg, env, w, a); }
  }

  lemma ListHasEffect(cfg: Config, env: Env, w: World, a: Action)
    requires Commits(cfg, env, w, a) && a.List?
    ensures Effect(cfg, env, w, Step(cfg, env, w, a), a)
  {
  }

  lemma ClaimHasEffect(cfg: Config, env: Env, w: World, a: Action)
    requires Commits(cfg, env, w, a) && a.ClaimRefund?
    ensures Effect(cfg, env, w, Step(cfg, env, w, a), a)
  {
  }

  lemma CancellationHasEffect(cfg: Config, env: Env, w: World, a: Action)
    requires Commits(cfg, env, w, a) && Cancels(a)
    ensures Effect(cfg, env, w, Step(cfg, env, w, a), a)
  {
  }

  lemma TokenHasEffect(cfg: Config, env: Env, w: World, a: Action)
    requires Commits(cfg, env, w, a) && (a.TokenTransfer? || a.TokenMint?)
    ensures Effect(cfg, env, w, Step(cfg, env, w, a), a)
  {
  }

  lemma SettingHasEffect(cfg: Config, env: Env, w: World, a: Action)
    requires Commits(cfg, env, w, a) && (a.SetFee? || a.SetTierFee? || a.Whitelist?)
    ensures Effect(cfg, env, w, Step(cfg, env, w, a), a)
  {
  }

  lemma FundCallHasEffect(cfg: Config, env: Env, w: World, a: Action)
    requires Commits(cfg, env, w, a) && a.Fund?
    ensures Effect(cfg, env, w, Step(cfg, env, w, a), a)
  {
    FundHasEffect(cfg, env, w, a.investor, a.id, a.amount);
  }

  lemma HasEffect(cfg: Config, env: Env, w: World, a: Action)
    requires Commits(cfg, env, w, a)
    ensures Effect(cfg, env, w, Step(cfg, env, w, a), a)
  {
    if IsPool(a) {
      OnlyCore(cfg, env, w, a);
      HasPoolEffect(cfg, env, w, a);
    } else if IsNft(a) { HasNftEffect(cfg, env, w, a); }
    else if a.Fund? { FundCallHasEffect(cfg, env, w, a); }
    else { HasMarketEffect(cfg, env, w, a); }
  }
}
