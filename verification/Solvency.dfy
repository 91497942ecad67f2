/** Custody solvency: in every token, the pool holds at least what it owes to contributors of
    listings, to investors of funded invoices and to proposers of pending buyouts. */
module Solvency {
  import opened Outcomes
  import opened Validation
  import opened BasisPoints
  import opened Sums
  import opened Records
  import opened TokenLedger
  import opened Distribution
  import opened Protocol
  import opened Effects
  import opened Coupling
  import opened Lifecycle
  import opened Refunds
  import Oracle = PriceOracle
  import Pools = PoolSpec

  // ── What the pool owes in a token ──────────────────────────────────────────

  /** Net contributions never paid back, of listings in the token. They stay in the pool even
      when the listing is fully funded: nothing forwards them to the seller. */
  ghost function OwedContributions(m: MarketStore, t: Address): map<(Id, Address), int> {
    map k | k in m.contributions ::
      if k !in m.refunded && k.0 in m.listings && m.listings[k.0].token == t then m.contributions[k] else 0
  }

  /** Repayments of invoices still Funded, of pools in the token. */
  ghost function OwedRepayments(c: Core, t: Address): map<Id, int> {
    map id | id in c.pool.pools ::
      if HasStatus(c.nft, id, Funded) && c.pool.pools[id].token == t then c.pool.pools[id].repaidAmount else 0
  }

  /** Escrows of pending buyouts, of pools in the token. */
  ghost function OwedBuyouts(p: PoolStore, t: Address): map<Id, int> {
    map id | id in p.buyouts :: if id in p.pools && p.pools[id].token == t then p.buyouts[id].amount else 0
  }

  ghost function Liabilities(w: World, t: Address): int {
    Sum(OwedContributions(w.market, t)) + Sum(OwedRepayments(w.core, t)) + Sum(OwedBuyouts(w.core.pool, t))
  }

  ghost function Slack(cfg: Config, w: World, t: Address): int {
    Balance(w.core.tokens, t, cfg.pool) - Liabilities(w, t)
  }

  // ── What callers must respect ──────────────────────────────────────────────

  ghost predicate PositionsSound(ps: Positions) {
    && Sum(ShareMap(ps)) <= BPS
    && forall h | h in ps :: 0 < ps[h].contributed <= MAX_AMOUNT && ps[h].shareBps <= BPS
  }

  ghost predicate AllPositionsSound(p: PoolStore) {
    forall id | id in p.positions :: PositionsSound(p.positions[id])
  }

  /** The credit a repayment would receive is at most the payment. */
  ghost predicate CreditCovered(env: Env, invoice: Invoice, amount: i128) {
    var credit := Oracle.Convert(env.prices, env.now, amount, invoice.currency, USDC);
    credit.Ok? ==> credit.value <= amount
  }

  /** Conditions the entry points do not check: the pool contract never acts as a user,
      repayments of Funded invoices and distributions name the pool's own token, credits are
      covered, and positions recorded on one pool share at most 10_000 bps. Each can be checked
      before the call. */
  ghost predicate FairCall(cfg: Config, env: Env, w: World, a: Action) {
    var p := w.core.pool;
    match a
    case Fund(investor, _, _) => investor != cfg.pool
    case RecordPosition(_, id, investor, contributed, total) =>
      var ps := p.PositionsOf(id);
      total > 0 ==> Sum(ShareMap(ps)) - (if investor in ps then ps[investor].shareBps else 0)
                    + contributed * BPS / total <= BPS
    case Repay(payer, id, token, amount) =>
      HasStatus(w.core.nft, id, Funded) ==>
        && payer != cfg.pool
        && (id in p.pools ==> token == p.pools[id].token)
        && CreditCovered(env, w.core.nft.invoices[id], amount)
    case MarkDefault(_, id, token) => Distributes(env, w.core, a) ==> token == p.pools[id].token
    case ProposeBuyout(sme, _, _) => sme != cfg.pool
    case BuyPosition(buyer, _, _) => buyer != cfg.pool
    case TokenTransfer(_, from, _, _) => from != cfg.pool
    case _ => true
  }

  /** The state the slack argument rests on. */
  ghost predicate Sound(cfg: Config, w: World, now: nat) {
    cfg.Valid() && Coupled(w) && AllOwedRight(cfg, w) && RefundsSound(w, now) && AllPositionsSound(w.core.pool)
  }

  // ── Positions stay sound ───────────────────────────────────────────────────

  lemma SharesSet(ps: Positions, h: Address, position: Position)
    ensures Sum(ShareMap(ps[h := position])) == Sum(ShareMap(ps))
        - (if h in ps then ps[h].shareBps else 0) + position.shareBps
  {
    SumUpdate(ShareMap(ps), h, position.shareBps);
    assert ShareMap(ps[h := position]) == ShareMap(ps)[h := position.shareBps];
  }

  lemma SharesSold(ps: Positions, seller: Address, buyer: Address, bought: Position)
    requires PositionsSound(ps) && seller in ps
    requires bought.contributed == ps[seller].contributed && bought.shareBps == ps[seller].shareBps
    ensures PositionsSound((ps - {seller})[buyer := bought])
  {
    var rest := ps - {seller};
    SumWithout(ShareMap(ps), seller);
    assert ShareMap(ps) - {seller} == ShareMap(rest);
    SharesSet(rest, buyer, bought);
  }

  lemma PositionsKept(cfg: Config, env: Env, w: World, w': World, a: Action)
    requires Coupled(w) && AllPositionsSound(w.core.pool) && Effect(cfg, env, w, w', a) && FairCall(cfg, env, w, a)
    ensures AllPositionsSound(w'.core.pool)
  {
    if a.RecordPosition? { RecordKept(w.core, w'.core, a.id, a.investor, a.contributed, a.total); }
    else if a.BuyPosition? { BuyKept(cfg, env, w, w', a); }
    else { PositionsSame(cfg, env, w, w', a); }
  }

  lemma PositionsSame(cfg: Config, env: Env, w: World, w': World, a: Action)
    requires Effect(cfg, env, w, w', a) && !a.RecordPosition? && !a.BuyPosition?
    ensures w'.core.pool.positions == w.core.pool.positions
  {
  }

  lemma RecordKept(c: Core, c': Core, id: Id, investor: Address, contributed: i128, total: i128)
    requires AllPositionsSound(c.pool) && RecordEffect(c, c', id, investor, contributed, total)
    requires var ps := c.pool.PositionsOf(id);
             Sum(ShareMap(ps)) - (if investor in ps then ps[investor].shareBps else 0) + contributed * BPS / total
                 <= BPS
    ensures AllPositionsSound(c'.pool)
  {
    SharesSet(c.pool.PositionsOf(id), investor, c'.pool.positions[id][investor]);
  }

  lemma BuyKept(cfg: Config, env: Env, w: World, w': World, a: Action)
    requires Coupled(w) && AllPositionsSound(w.core.pool) && Effect(cfg, env, w, w', a) && a.BuyPosition?
    ensures AllPositionsSound(w'.core.pool)
  {
    var ps := w.core.pool.PositionsOf(a.id);
    SharesSold(ps, a.seller, a.buyer, ps[a.seller].(investor := a.buyer, invoiceId := a.id));
  }

  // ── No call lowers the slack of any token ──────────────────────────────────

  lemma SlackFund(cfg: Config, env: Env, w: World, w': World, a: Action, now: nat, t: Address)
    requires Sound(cfg, w, now) && now <= env.now && FairCall(cfg, env, w, a)
    requires a.Fund? && Effect(cfg, env, w, w', a)
    ensures Slack(cfg, w', t) >= Slack(cfg, w, t)
  {
    var m, k := w.market, (a.id, a.investor);
    FeeWithinAmount(cfg, env, w, a.id, a.amount);
    assert CoupledAt(w, a.id);
    assert k !in m.refunded;
    ContributionAdded(m, w'.market, a.id, a.investor, t);
    RepaymentsOpened(w.core, w'.core, a.id, t);
  }

  lemma ContributionAdded(m: MarketStore, m': MarketStore, id: Id, investor: Address, t: Address)
    requires id in m.listings && id in m'.listings && m'.listings[id].token == m.listings[id].token
    requires (id, investor) !in m.refunded && m'.refunded == m.refunded
    requires m'.listings == m.listings[id := m'.listings[id]]
    requires m'.contributions == m.contributions[(id, investor) := m'.Contribution(id, investor)]
    ensures Sum(OwedContributions(m', t)) == Sum(OwedContributions(m, t))
      + (if m.listings[id].token == t then m'.Contribution(id, investor) - m.Contribution(id, investor) else 0)
  {
    var k := (id, investor);
    var v := if m.listings[id].token == t then m'.contributions[k] else 0;
    SumUpdate(OwedContributions(m, t), k, v);
    assert OwedContributions(m', t) == OwedContributions(m, t)[k := v];
  }

  /** Opening a pool adds nothing to what is owed. */
  lemma RepaymentsOpened(c: Core, c': Core, id: Id, t: Address)
    requires (c'.nft == c.nft && c'.pool == c.pool) ||
             (&& id !in c.pool.pools && id !in c.pool.buyouts && id in c'.pool.pools
                 && c'.pool.pools[id].repaidAmount == 0
              && id in c'.nft.invoices && c'.nft.invoices == c.nft.invoices[id := c'.nft.invoices[id]]
              && c'.pool == c.pool.(pools := c.pool.pools[id := c'.pool.pools[id]]))
    ensures Sum(OwedRepayments(c', t)) == Sum(OwedRepayments(c, t))
    ensures Sum(OwedBuyouts(c'.pool, t)) == Sum(OwedBuyouts(c.pool, t))
  {
    if c'.pool == c.pool && c'.nft == c.nft {
      assert OwedRepayments(c', t) == OwedRepayments(c, t);
    } else {
      OpenedOwesNothing(c, c', id, t);
      assert OwedBuyouts(c'.pool, t) == OwedBuyouts(c.pool, t);
    }
  }

  lemma OpenedOwesNothing(c: Core, c': Core, id: Id, t: Address)
    requires id !in c.pool.pools && c'.pool.pools.Keys == c.pool.pools.Keys + {id}
        && c'.pool.pools[id].repaidAmount == 0
    requires c'.pool.pools == c.pool.pools[id := c'.pool.pools[id]]
    requires id in c'.nft.invoices && c'.nft.invoices == c.nft.invoices[id := c'.nft.invoices[id]]
    ensures Sum(OwedRepayments(c', t)) == Sum(OwedRepayments(c, t))
  {
    SumUpdate(OwedRepayments(c, t), id, 0);
    assert OwedRepayments(c', t) == OwedRepayments(c, t)[id := 0];
  }

  lemma SlackRefund(cfg: Config, env: Env, w: World, w': World, a: Action, t: Address)
    requires a.ClaimRefund? && Effect(cfg, env, w, w', a)
    ensures Slack(cfg, w', t) >= Slack(cfg, w, t)
  {
    ContributionRefunded(w.market, w'.market, a.id, a.investor, t);
    assert OwedRepayments(w'.core, t) == OwedRepayments(w.core, t);
    assert OwedBuyouts(w'.core.pool, t) == OwedBuyouts(w.core.pool, t);
    RefundBalance(cfg, env, w, w', a, t);
  }

  lemma RefundBalance(cfg: Config, env: Env, w: World, w': World, a: Action, t: Address)
    requires a.ClaimRefund? && Effect(cfg, env, w, w', a)
    ensures a.id in w.market.listings
    ensures Balance(w'.core.tokens, t, cfg.pool) >= Balance(w.core.tokens, t, cfg.pool)
          - (if t == w.market.listings[a.id].token then w.market.Contribution(a.id, a.investor) else 0)
  {
  }

  lemma ContributionRefunded(m: MarketStore, m': MarketStore, id: Id, investor: Address, t: Address)
    requires id in m.listings && (id, investor) in m.contributions && (id, investor) !in m.refunded
    requires m' == m.(refunded := m.refunded + {(id, investor)})
    ensures Sum(OwedContributions(m', t)) == Sum(OwedContributions(m, t))
      - (if m.listings[id].token == t then m.contributions[(id, investor)] else 0)
  {
    var k := (id, investor);
    SumUpdate(OwedContributions(m, t), k, 0);
    assert OwedContributions(m', t) == OwedContributions(m, t)[k := 0];
  }

  /** One invoice's pool, status and buyout replaced: how that changes what the core owes. */
  lemma RepaymentsReplaced(c: Core, c': Core, id: Id, t: Address)
    requires id in c.pool.pools && id in c'.pool.pools
    requires c'.pool.pools == c.pool.pools[id := c'.pool.pools[id]]
    requires c'.nft == c.nft || (id in c'.nft.invoices && c'.nft.invoices == c.nft.invoices[id := c'.nft.invoices[id]])
    ensures Sum(OwedRepayments(c', t)) == Sum(OwedRepayments(c, t)) - OwedRepayments(c, t)[id] + OwedRepayments(c',
        t)[id]
  {
    SumUpdate(OwedRepayments(c, t), id, OwedRepayments(c', t)[id]);
    assert OwedRepayments(c', t) == OwedRepayments(c, t)[id := OwedRepayments(c', t)[id]];
  }

  lemma BuyoutsReplaced(p: PoolStore, p': PoolStore, id: Id, t: Address)
    requires id in p.pools && id in p'.pools && p'.pools[id].token == p.pools[id].token
    requires p'.pools == p.pools[id := p'.pools[id]]
    requires p'.buyouts == p.buyouts || (id in p.buyouts && p'.buyouts == p.buyouts - {id})
    ensures Sum(OwedBuyouts(p', t)) == Sum(OwedBuyouts(p, t))
        - (if p'.buyouts == p.buyouts then 0 else OwedBuyouts(p, t)[id])
  {
    if p'.buyouts == p.buyouts { assert OwedBuyouts(p', t) == OwedBuyouts(p, t); }
    else {
      SumWithout(OwedBuyouts(p, t), id);
      assert OwedBuyouts(p', t) == OwedBuyouts(p, t) - {id};
    }
  }

  lemma CoreOwed(c: Core, c': Core, id: Id, t: Address)
    requires id in c.pool.pools && id in c'.pool.pools && c'.pool.pools[id].token == c.pool.pools[id].token
    requires c'.pool.pools == c.pool.pools[id := c'.pool.pools[id]]
    requires c'.nft == c.nft || (id in c'.nft.invoices && c'.nft.invoices == c.nft.invoices[id := c'.nft.invoices[id]])
    requires c'.pool.buyouts == c.pool.buyouts || (id in c.pool.buyouts && c'.pool.buyouts == c.pool.buyouts - {id})
    ensures Sum(OwedRepayments(c', t)) == Sum(OwedRepayments(c, t)) - OwedRepayments(c, t)[id] + OwedRepayments(c',
        t)[id]
    ensures Sum(OwedBuyouts(c'.pool, t)) == Sum(OwedBuyouts(c.pool, t))
              - (if c'.pool.buyouts == c.pool.buyouts then 0 else OwedBuyouts(c.pool, t)[id])
  {
    RepaymentsReplaced(c, c', id, t);
    BuyoutsReplaced(c.pool, c'.pool, id, t);
  }

  /** A distribution lowers the pool's balance by at most what was repaid, in its own token
      only. */
  lemma DistributionCost(cfg: Config, c: Core, c': Core, id: Id, token: Address, repaid: i128, t: Address)
    requires Distributed(cfg, c, c', id, token, repaid) && repaid >= 0 && PositionsSound(c.pool.PositionsOf(id))
    ensures Balance(c'.tokens, t, cfg.pool) >= Balance(c.tokens, t, cfg.pool) - (if t == token then repaid else 0)
  {
    var ps, decimals := c.pool.PositionsOf(id), cfg.decimals[token];
    PaysAtMostRepaid(ps, repaid, decimals);
    var payouts := Payouts(ps, repaid, decimals, ps.Keys);
    forall h | h in payouts
      ensures payouts[h] >= 0
    {
      NeverAboveExactShare(repaid, ps[h].shareBps, decimals);
    }
  }

  lemma NoPositionsSound(p: PoolStore, id: Id)
    requires AllPositionsSound(p)
    ensures PositionsSound(p.PositionsOf(id))
  {
    if id !in p.positions { assert ShareMap(map[]) == map[]; }
  }

  lemma CreditIsConversion(env: Env, invoice: Invoice, p: Pool, amount: i128)
    requires Pools.Credited(env, invoice, p, amount).Ok?
    ensures var credit := Oracle.Convert(env.prices, env.now, amount, invoice.currency, USDC);
            credit.Ok? && Pools.Credited(env, invoice, p, amount).value.repaidAmount == p.repaidAmount + credit.value
  {
  }

  /** What is credited raises the repaid amount, by no more than the payment exactly when it
      is covered. */
  lemma CreditGrows(cfg: Config, env: Env, invoice: Invoice, p: Pool, amount: i128)
    requires OwedRight(cfg, p) && !p.isClosed && amount > 0 && Pools.Credited(env, invoice, p, amount).Ok?
    ensures var q := Pools.Credited(env, invoice, p, amount).value;
            && q.token == p.token && q.repaidAmount > p.repaidAmount >= 0
            && (CreditCovered(env, invoice, amount) <==> q.repaidAmount - p.repaidAmount <= amount)
  {
    CreditedProgress(cfg, env, invoice, p, amount);
    CreditIsConversion(env, invoice, p, amount);
  }

  lemma SlackRepay(cfg: Config, env: Env, w: World, w': World, a: Action, now: nat, t: Address)
    requires Sound(cfg, w, now) && FairCall(cfg, env, w, a) && a.Repay? && Effect(cfg, env, w, w', a)
    ensures Slack(cfg, w', t) >= Slack(cfg, w, t)
  {
    var c, c', id := w.core, w'.core, a.id;
    var p0 := c.pool.pools[id];
    CreditGrows(cfg, env, c.nft.invoices[id], p0, a.amount);
    CoreOwed(c, c', id, t);
    if HasStatus(c.nft, id, Funded) { RepaymentBalance(cfg, env, c, c', a, t); }
    else { TransferMoves(c.tokens, a.token, a.payer, cfg.pool, a.amount, t, cfg.pool); }
  }

  /** A fair repayment leaves the balance no lower than the payment, less what is distributed. */
  lemma RepaymentBalance(cfg: Config, env: Env, c: Core, c': Core, a: Action, t: Address)
    requires a.Repay? && a.payer != cfg.pool && AllPositionsSound(c.pool)
    requires RepayEffect(cfg, env, c, c', a.payer, a.id, a.token, a.amount)
    requires Pools.Credited(env, c.nft.invoices[a.id], c.pool.pools[a.id], a.amount).value.repaidAmount >= 0
    ensures var p := Pools.Credited(env, c.nft.invoices[a.id], c.pool.pools[a.id], a.amount).value;
            Balance(c'.tokens, t, cfg.pool) >= Balance(c.tokens, t, cfg.pool)
              + (if t == a.token then a.amount - (if p.isClosed then p.repaidAmount else 0) else 0)
  {
    var p := Pools.Credited(env, c.nft.invoices[a.id], c.pool.pools[a.id], a.amount).value;
    TransferMoves(c.tokens, a.token, a.payer, cfg.pool, a.amount, t, cfg.pool);
    if p.isClosed {
      NoPositionsSound(c.pool, a.id);
      var credited := c.(tokens := Transfer(c.tokens, a.token, a.payer, cfg.pool, a.amount).value,
                         pool := c.pool.(pools := c.pool.pools[a.id := p]));
      DistributionCost(cfg, credited, c'.(nft := c.nft), a.id, a.token, p.repaidAmount, t);
    }
  }

  lemma SlackAccept(cfg: Config, env: Env, w: World, w': World, a: Action, now: nat, t: Address)
    requires Sound(cfg, w, now) && a.AcceptBuyout? && Effect(cfg, env, w, w', a)
    ensures Slack(cfg, w', t) >= Slack(cfg, w, t)
  {
    var c, c', id := w.core, w'.core, a.id;
    var offer, p := c.pool.buyouts[id], c.pool.pools[id];
    assert CoupledAt(w, id);
    if offer.acceptedBps + c.pool.PositionsOf(id)[a.investor].shareBps >= BPS {
      CoreOwed(c, c', id, t);
      NoPositionsSound(c.pool, id);
      var credited := c.(pool := c.pool.(
        pools := c.pool.pools[id := p.(repaidAmount := offer.amount, isClosed := true)],
        buyouts := c.pool.buyouts - {id}));
      DistributionCost(cfg, credited, c'.(nft := c.nft), id, p.token, offer.amount, t);
    } else {
      assert OwedRepayments(c', t) == OwedRepayments(c, t);
      assert OwedBuyouts(c'.pool, t) == OwedBuyouts(c.pool, t);
    }
  }

  lemma SlackDefault(cfg: Config, env: Env, w: World, w': World, a: Action, now: nat, t: Address)
    requires Sound(cfg, w, now) && FairCall(cfg, env, w, a) && a.MarkDefault? && Effect(cfg, env, w, w', a)
    ensures Slack(cfg, w', t) >= Slack(cfg, w, t)
  {
    var c, c', id := w.core, w'.core, a.id;
    CoreOwed(c, c', id, t);
    if c.pool.pools[id].repaidAmount > 0 {
      NoPositionsSound(c.pool, id);
      DistributionCost(cfg, c, c'.(nft := c.nft), id, a.token, c.pool.pools[id].repaidAmount, t);
    }
  }

  lemma SlackEscrow(cfg: Config, env: Env, w: World, w': World, a: Action, t: Address)
    requires FairCall(cfg, env, w, a) && (a.ProposeBuyout? || a.CancelBuyout?) && Effect(cfg, env, w, w', a)
    ensures Slack(cfg, w', t) >= Slack(cfg, w, t)
  {
    assert OwedRepayments(w'.core, t) == OwedRepayments(w.core, t);
    if a.ProposeBuyout? { EscrowTaken(w.core.pool, w'.core.pool, a.id, a.amount, t); }
    else { EscrowReturned(w.core.pool, w'.core.pool, a.id, t); }
  }

  lemma EscrowTaken(p: PoolStore, p': PoolStore, id: Id, amount: i128, t: Address)
    requires id in p.pools && id !in p.buyouts && p' == p.(buyouts := p.buyouts[id := Buyout(id, amount, 0, [])])
    ensures Sum(OwedBuyouts(p', t)) == Sum(OwedBuyouts(p, t)) + (if p.pools[id].token == t then amount else 0)
  {
    var v := if p.pools[id].token == t then amount else 0;
    SumUpdate(OwedBuyouts(p, t), id, v);
    assert OwedBuyouts(p', t) == OwedBuyouts(p, t)[id := v];
  }

  lemma EscrowReturned(p: PoolStore, p': PoolStore, id: Id, t: Address)
    requires id in p.pools && id in p.buyouts && p' == p.(buyouts := p.buyouts - {id})
    ensures Sum(OwedBuyouts(p', t)) == Sum(OwedBuyouts(p, t))
        - (if p.pools[id].token == t then p.buyouts[id].amount else 0)
  {
    SumWithout(OwedBuyouts(p, t), id);
    assert OwedBuyouts(p', t) == OwedBuyouts(p, t) - {id};
  }

  lemma SlackNft(cfg: Config, env: Env, w: World, w': World, a: Action, now: nat, t: Address)
    requires Sound(cfg, w, now) && IsNft(a) && Effect(cfg, env, w, w', a)
    ensures Slack(cfg, w', t) >= Slack(cfg, w, t)
  {
    var low, high := OwedRepayments(w'.core, t), OwedRepayments(w.core, t);
    forall id | id in low
      ensures low[id] <= high[id]
    {
      assert CoupledAt(w, id);
    }
    SumPointwiseAtMost(low, high);
  }

  /** Storage in which only entries that carry no obligation changed. */
  ghost predicate SameObligations(w: World, w': World) {
    && w'.market.contributions == w.market.contributions && w'.market.refunded == w.market.refunded
    && w'.market.listings.Keys == w.market.listings.Keys
    && (forall id | id in w.market.listings :: w'.market.listings[id].token == w.market.listings[id].token)
    && w'.core.nft == w.core.nft
    && w'.core.pool.pools == w.core.pool.pools && w'.core.pool.buyouts == w.core.pool.buyouts
  }

  lemma SameOwed(w: World, w': World, t: Address)
    requires SameObligations(w, w')
    ensures Liabilities(w', t) == Liabilities(w, t)
  {
    assert OwedRepayments(w'.core, t) == OwedRepayments(w.core, t);
    assert OwedBuyouts(w'.core.pool, t) == OwedBuyouts(w.core.pool, t);
    assert OwedContributions(w'.market, t) == OwedContributions(w.market, t);
  }

  lemma SlackOtherwise(cfg: Config, env: Env, w: World, w': World, a: Action, t: Address)
    requires FairCall(cfg, env, w, a) && Effect(cfg, env, w, w', a)
    requires !IsNft(a) && !a.Fund? && !a.ClaimRefund? && !a.List?
    requires !a.Repay? && !a.AcceptBuyout? && !a.MarkDefault? && !a.ProposeBuyout? && !a.CancelBuyout?
    ensures Slack(cfg, w', t) >= Slack(cfg, w, t)
  {
    assert SameObligations(w, w');
    SameOwed(w, w', t);
  }

  lemma SlackList(cfg: Config, env: Env, w: World, w': World, a: Action, now: nat, t: Address)
    requires Sound(cfg, w, now) && a.List? && Effect(cfg, env, w, w', a)
    ensures Slack(cfg, w', t) >= Slack(cfg, w, t)
  {
    assert CoupledAt(w, a.id);
    assert OwedRepayments(w'.core, t) == OwedRepayments(w.core, t);
    assert OwedContributions(w'.market, t) == OwedContributions(w.market, t);
  }

  /** No fair call lowers the slack of any token. */
  lemma SlackKept(cfg: Config, env: Env, w: World, w': World, a: Action, now: nat, t: Address)
    requires Sound(cfg, w, now) && now <= env.now && FairCall(cfg, env, w, a) && Effect(cfg, env, w, w', a)
    ensures Slack(cfg, w', t) >= Slack(cfg, w, t)
  {
    if a.Fund? { SlackFund(cfg, env, w, w', a, now, t); }
    else if a.ClaimRefund? { SlackRefund(cfg, env, w, w', a, t); }
    else if a.List? { SlackList(cfg, env, w, w', a, now, t); }
    else if a.Repay? { SlackRepay(cfg, env, w, w', a, now, t); }
    else if a.AcceptBuyout? { SlackAccept(cfg, env, w, w', a, now, t); }
    else if a.MarkDefault? { SlackDefault(cfg, env, w, w', a, now, t); }
    else if a.ProposeBuyout? || a.CancelBuyout? { SlackEscrow(cfg, env, w, w', a, t); }
    else if IsNft(a) { SlackNft(cfg, env, w, w', a, now, t); }
    else { SlackOtherwise(cfg, env, w, w', a, t); }
  }

  // ── Every reachable state ──────────────────────────────────────────────────

  /** Every call that commits is fair; calls that are rejected may be anything. */
  ghost predicate FairRun(cfg: Config, w: World, run: Run) {
    run == [] ||
    var last, earlier := run[|run| - 1], run[..|run| - 1];
    && FairRun(cfg, w, earlier)
    && var before := After(cfg, w, earlier);
    && (Commits(cfg, last.env, before, last.action) ==> FairCall(cfg, last.env, before, last.action))
  }

  ghost predicate Solvent(cfg: Config, w: World, now: nat) {
    Sound(cfg, w, now) && forall t :: Slack(cfg, w, t) >= 0
  }

  lemma SoundKept(cfg: Config, env: Env, w: World, a: Action, now: nat)
    requires Sound(cfg, w, now) && now <= env.now && (Commits(cfg, env, w, a) ==> FairCall(cfg, env, w, a))
    ensures Sound(cfg, Step(cfg, env, w, a), env.now)
  {
    StepKeeps(cfg, env, w, a);
    StepSound(cfg, env, w, a, now);
    if Commits(cfg, env, w, a) {
      HasEffect(cfg, env, w, a);
      AmountsKeep(cfg, env, w, Step(cfg, env, w, a), a);
      PositionsKept(cfg, env, w, Step(cfg, env, w, a), a);
    }
  }

  lemma SolventKept(cfg: Config, env: Env, w: World, a: Action, now: nat)
    requires Solvent(cfg, w, now) && now <= env.now && (Commits(cfg, env, w, a) ==> FairCall(cfg, env, w, a))
    ensures Solvent(cfg, Step(cfg, env, w, a), env.now)
  {
    SoundKept(cfg, env, w, a, now);
    if Commits(cfg, env, w, a) {
      HasEffect(cfg, env, w, a);
      forall t
        ensures Slack(cfg, Step(cfg, env, w, a), t) >= 0
      {
        SlackKept(cfg, env, w, Step(cfg, env, w, a), a, now, t);
        assert Slack(cfg, w, t) >= 0;
      }
    }
  }

  lemma InitialSolvent(cfg: Config, w0: World)
    requires cfg.Valid() && Initial(w0)
    ensures Solvent(cfg, w0, 0)
  {
    InitialCoupled(w0);
    forall t
      ensures Slack(cfg, w0, t) >= 0
    {
      assert OwedContributions(w0.market, t) == map[] && OwedRepayments(w0.core, t) == map[]
          && OwedBuyouts(w0.core.pool, t) == map[];
    }
  }

  /** After any run of fair calls, in every token, the pool's balance covers the unrefunded
      contributions, the repayments of Funded invoices and the pending escrows. */
  lemma {:induction false} AlwaysSolvent(cfg: Config, w0: World, run: Run)
    requires cfg.Valid() && Initial(w0) && Timely(run) && FairRun(cfg, w0, run)
    ensures Solvent(cfg, After(cfg, w0, run), Clock(run))
    ensures forall t :: Liabilities(After(cfg, w0, run), t) <= Balance(After(cfg, w0, run).core.tokens, t, cfg.pool)
  {
    if run == [] { InitialSolvent(cfg, w0); }
    else {
      var last, earlier := run[|run| - 1], run[..|run| - 1];
      AlwaysSolvent(cfg, w0, earlier);
      SolventKept(cfg, last.env, After(cfg, w0, earlier), last.action, Clock(earlier));
    }
    forall t
      ensures Liabilities(After(cfg, w0, run), t) <= Balance(After(cfg, w0, run).core.tokens, t, cfg.pool)
    {
      assert Slack(cfg, After(cfg, w0, run), t) >= 0;
    }
  }

  // ── Nothing owed fails for lack of money ───────────────────────────────────

  lemma EachCovered(cfg: Config, w: World, now: nat, t: Address)
    requires Solvent(cfg, w, now)
    ensures var held := Balance(w.core.tokens, t, cfg.pool);
            && (forall k | k in OwedContributions(w.market, t) :: OwedContributions(w.market, t)[k] <= held)
            && (forall id | id in OwedRepayments(w.core, t) :: OwedRepayments(w.core, t)[id] <= held)
            && (forall id | id in OwedBuyouts(w.core.pool, t) :: OwedBuyouts(w.core.pool, t)[id] <= held)
  {
    forall id | id in w.core.pool.buyouts ensures w.core.pool.buyouts[id].amount >= 0 { assert CoupledAt(w, id); }
    SumNonNegative(OwedContributions(w.market, t));
    SumNonNegative(OwedRepayments(w.core, t));
    SumNonNegative(OwedBuyouts(w.core.pool, t));
    assert Slack(cfg, w, t) >= 0;
  }

  lemma RefundNeverShort(cfg: Config, env: Env, w: World, now: nat, investor: Address, id: Id)
    requires Solvent(cfg, w, now)
    ensures Apply(cfg, env, w, ClaimRefund(investor, id)) != Err(TransferFailed)
  {
    if id in w.market.listings {
      EachCovered(cfg, w, now, w.market.listings[id].token);
      var k := (id, investor);
      assert k in w.market.contributions && k !in w.market.refunded ==>
        OwedContributions(w.market, w.market.listings[id].token)[k] == w.market.contributions[k];
    }
  }

  lemma CancelBuyoutNeverShort(cfg: Config, env: Env, w: World, now: nat, sme: Address, id: Id)
    requires Solvent(cfg, w, now)
    ensures Apply(cfg, env, w, CancelBuyout(sme, id)) != Err(TransferFailed)
  {
    if id in w.core.pool.buyouts && id in w.core.pool.pools {
      EachCovered(cfg, w, now, w.core.pool.pools[id].token);
      assert CoupledAt(w, id);
      assert OwedBuyouts(w.core.pool, w.core.pool.pools[id].token)[id] == w.core.pool.buyouts[id].amount;
    }
  }

  lemma DistributeNeverShort(cfg: Config, c: Core, id: Id, token: Address, repaid: i128)
    requires AllPositionsSound(c.pool) && 0 <= repaid <= Balance(c.tokens, token, cfg.pool)
    ensures Pools.Distribute(cfg, c, id, token, repaid) != Err(TransferFailed)
  {
    NoPositionsSound(c.pool, id);
    var ps := c.pool.PositionsOf(id);
    if token in cfg.decimals {
      PaysAtMostRepaid(ps, repaid, cfg.decimals[token]);
      NeverShort(cfg, c.tokens, token, cfg.decimals[token], ps, repaid, ps.Keys, 0);
    }
  }

  lemma OfferCovered(cfg: Config, w: World, now: nat, id: Id)
    requires Solvent(cfg, w, now) && id in w.core.pool.buyouts && id in w.core.pool.pools
    ensures 0 <= w.core.pool.buyouts[id].amount <= Balance(w.core.tokens, w.core.pool.pools[id].token, cfg.pool)
  {
    EachCovered(cfg, w, now, w.core.pool.pools[id].token);
    assert CoupledAt(w, id);
    assert OwedBuyouts(w.core.pool, w.core.pool.pools[id].token)[id] == w.core.pool.buyouts[id].amount;
  }

  lemma AcceptNeverShort(cfg: Config, env: Env, w: World, now: nat, investor: Address, id: Id)
    requires Solvent(cfg, w, now)
    ensures Apply(cfg, env, w, AcceptBuyout(investor, id)) != Err(TransferFailed)
  {
    var c := w.core;
    if id in c.pool.buyouts && id in c.pool.pools {
      var p, offer := c.pool.pools[id], c.pool.buyouts[id];
      OfferCovered(cfg, w, now, id);
      var closed := p.(repaidAmount := offer.amount, isClosed := true);
      DistributeNeverShort(cfg,
        c.(pool := c.pool.(pools := c.pool.pools[id := closed], locks := c.pool.locks + {id})), id, p.token,
            offer.amount);
    }
  }

  lemma DefaultNeverShort(cfg: Config, env: Env, w: World, now: nat, caller: Address, id: Id, token: Address)
    requires Solvent(cfg, w, now) && FairCall(cfg, env, w, MarkDefault(caller, id, token))
    requires HasStatus(w.core.nft, id, Funded)
    ensures Apply(cfg, env, w, MarkDefault(caller, id, token)) != Err(TransferFailed)
  {
    var c := w.core;
    if id in c.pool.pools && c.pool.pools[id].repaidAmount > 0 {
      EachCovered(cfg, w, now, token);
      assert OwedRepayments(c, token)[id] == c.pool.pools[id].repaidAmount;
      DistributeNeverShort(cfg, c, id, token, c.pool.pools[id].repaidAmount);
    }
  }

  /** A fair repayment of a Funded invoice fails for lack of money only if the payer's own
      balance is short: distributing what was repaid never is. */
  lemma RepayNeverShort(cfg: Config, env: Env, w: World, now: nat, payer: Address, id: Id, token: Address, amount: i128)
    requires Solvent(cfg, w, now) && FairCall(cfg, env, w, Repay(payer, id, token, amount))
    requires HasStatus(w.core.nft, id, Funded) && Balance(w.core.tokens, token, payer) >= amount
    ensures Apply(cfg, env, w, Repay(payer, id, token, amount)) != Err(TransferFailed)
  {
    var c := w.core;
    if amount > 0 && id in c.pool.pools && !c.pool.pools[id].isClosed
       && Pools.Credited(env, c.nft.invoices[id], c.pool.pools[id], amount).Ok? {
      var p0 := c.pool.pools[id];
      var p := Pools.Credited(env, c.nft.invoices[id], p0, amount).value;
      CreditedProgress(cfg, env, c.nft.invoices[id], p0, amount);
      EachCovered(cfg, w, now, token);
      assert OwedRepayments(c, token)[id] == p0.repaidAmount;
      var b := Transfer(c.tokens, token, payer, cfg.pool, amount).value;
      TransferEffect(c.tokens, token, payer, cfg.pool, amount);
      DistributeNeverShort(cfg,
        c.(tokens := b, pool := c.pool.(pools := c.pool.pools[id := p], locks := c.pool.locks + {id})),
        id, token, p.repaidAmount);
    }
  }

  // ── Which repayments the solvency of the pool depends on ───────────────────

  lemma PartialRepaymentSlack(cfg: Config, env: Env, w: World, w': World, a: Action, t: Address)
    requires a.Repay? && a.payer != cfg.pool && Effect(cfg, env, w, w', a)
    requires w'.core.pool.pools[a.id].isClosed == false
    requires w'.core.pool.pools[a.id].token == w.core.pool.pools[a.id].token
    ensures Slack(cfg, w', t) == Slack(cfg, w, t)
      + (if t == a.token then a.amount else 0)
      - (if t == w.core.pool.pools[a.id].token && HasStatus(w.core.nft, a.id, Funded)
         then w'.core.pool.pools[a.id].repaidAmount - w.core.pool.pools[a.id].repaidAmount else 0)
  {
    TransferEffect(w.core.tokens, a.token, a.payer, cfg.pool, a.amount);
    CoreOwed(w.core, w'.core, a.id, t);
  }

  /** A partial repayment lowers no slack exactly when the invoice has defaulted, so that its
      credit is owed to nobody, or it is made in the pool's own token and covers its credit. */
  lemma RepaymentCoveredExactly(cfg: Config, env: Env, w: World, a: Action, now: nat)
    requires Sound(cfg, w, now) && a.Repay? && a.payer != cfg.pool
    requires Commits(cfg, env, w, a) && !Step(cfg, env, w, a).core.pool.pools[a.id].isClosed
    ensures a.id in w.core.nft.invoices && a.id in w.core.pool.pools
    ensures (forall t :: Slack(cfg, Step(cfg, env, w, a), t) >= Slack(cfg, w, t)) <==>
              || w.core.nft.invoices[a.id].status == Defaulted
              || (a.token == w.core.pool.pools[a.id].token && CreditCovered(env, w.core.nft.invoices[a.id], a.amount))
  {
    var w' := Step(cfg, env, w, a);
    HasEffect(cfg, env, w, a);
    CoveredExactly(cfg, env, w, w', a, now);
  }

  lemma CreditOwed(cfg: Config, env: Env, w: World, w': World, a: Action, now: nat)
    requires Sound(cfg, w, now) && a.Repay?
    requires Effect(cfg, env, w, w', a) && !w'.core.pool.pools[a.id].isClosed
    ensures a.id in w.core.nft.invoices && a.id in w.core.pool.pools && a.amount > 0
    ensures var p, p', invoice := w.core.pool.pools[a.id], w'.core.pool.pools[a.id], w.core.nft.invoices[a.id];
            && p'.token == p.token && p'.repaidAmount > p.repaidAmount
            && (invoice.status == Funded || invoice.status == Defaulted)
            && (CreditCovered(env, invoice, a.amount) <==> p'.repaidAmount - p.repaidAmount <= a.amount)
  {
    var p, invoice := w.core.pool.pools[a.id], w.core.nft.invoices[a.id];
    assert CoupledAt(w, a.id);
    CreditGrows(cfg, env, invoice, p, a.amount);
  }

  lemma CoveredExactly(cfg: Config, env: Env, w: World, w': World, a: Action, now: nat)
    requires Sound(cfg, w, now) && a.Repay? && a.payer != cfg.pool
    requires Effect(cfg, env, w, w', a) && !w'.core.pool.pools[a.id].isClosed
    ensures a.id in w.core.nft.invoices && a.id in w.core.pool.pools
    ensures (forall t :: Slack(cfg, w', t) >= Slack(cfg, w, t)) <==>
              || w.core.nft.invoices[a.id].status == Defaulted
              || (a.token == w.core.pool.pools[a.id].token && CreditCovered(env, w.core.nft.invoices[a.id], a.amount))
  {
    var p, p', invoice := w.core.pool.pools[a.id], w'.core.pool.pools[a.id], w.core.nft.invoices[a.id];
    CreditOwed(cfg, env, w, w', a, now);
    var owed := if invoice.status == Funded then p'.repaidAmount - p.repaidAmount else 0;
    forall t
      ensures Slack(cfg, w', t) == Slack(cfg, w, t) + (if t == a.token then a.amount else 0)
          - (if t == p.token then owed else 0)
    {
      PartialRepaymentSlack(cfg, env, w, w', a, t);
    }
    assert Slack(cfg, w', p.token) == Slack(cfg, w, p.token) + (if p.token == a.token then a.amount else 0) - owed;
  }
}
