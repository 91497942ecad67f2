/** What each entry point of the financing pool does to the pool's storage, the invoices and
    the token balances (contracts/financing_pool/src/lib.rs). */
module PoolSpec {
  import opened Outcomes
  import opened Validation
  import opened Records
  import Oracle = PriceOracle
  import Tokens = TokenLedger
  import Nft = InvoiceNft

  ghost function ReleaseFunds(cfg: Config, env: Env, c: Core, id: Id, token: Address): Result<Core> {
    if env.paused then Err(ProtocolPaused)
    else if id in c.pool.pools then Err(PoolAlreadyClosed)
    else if token == cfg.pool then Err(InvalidAddress)
    else if id !in c.nft.invoices then Err(InvoiceNotFound)
    else
      var amount := c.nft.invoices[id].terms.amount;
      if amount <= 0 || amount > MAX_AMOUNT then Err(InvalidAmount) else
      var pool := Pool(id, token, 0, amount, 0, false, cfg.latePenaltyBps, amount, false);
      var nft :- Nft.SetFunded(cfg, env, c.nft, cfg.pool, id);
      Ok(c.(pool := c.pool.(pools := c.pool.pools[id := pool]), nft := nft))
  }

  ghost function SetMaxPosition(cfg: Config, c: Core, caller: Address, bps: u32): Result<Core> {
    if caller != cfg.admin then Err(NotAdmin)
    else if bps == 0 || bps > BPS then Err(InvalidFeeRate)
    else Ok(c.(pool := c.pool.(maxPositionBps := bps)))
  }

  /** The share a contribution holds of a total, rounded down to a basis point. */
  function ShareOf(contributed: i128, total: i128): Result<int>
    requires total > 0
  {
    var product :- Fit(contributed * BPS);
    Ok(TruncDiv(product, total))
  }

  lemma ShareInRange(contributed: i128, total: i128)
    requires 0 < contributed <= total && ShareOf(contributed, total).Ok?
    ensures 0 <= ShareOf(contributed, total).value <= BPS
    ensures ShareOf(contributed, total).value == contributed * BPS / total
  {
    DivBounds(contributed * BPS, total);
    var share := contributed * BPS / total;
    if share > BPS { MulMono(BPS + 1, share, total); MulMono(contributed, total, BPS); }
  }

  ghost function RecordPosition(cfg: Config, env: Env, c: Core, caller: Address, id: Id, investor: Address,
                                contributed: i128, total: i128): Result<Core>
  {
    if caller != cfg.admin then Err(NotAdmin)
    else if env.paused then Err(ProtocolPaused)
    else if contributed <= 0 || total <= 0 then Err(InvalidAmount)
    else if contributed > total || contributed > MAX_AMOUNT || total > MAX_AMOUNT then Err(InvalidAmount)
    else
      var share :- ShareOf(contributed, total);
      ShareInRange(contributed, total);
      if share > c.pool.maxPositionBps then Err(ExceedsFundingTarget)
      else if id !in c.pool.pools then Err(PoolNotFound)
      else
        var ps := c.pool.PositionsOf(id);
        var previous := if investor in ps then ps[investor].contributed else 0;
        var token := c.pool.pools[id].token;
        var reduced :- Fit(c.pool.AggregateFunded(token) - previous);
        var aggregate :- Fit(reduced + contributed);
        Ok(c.(pool := c.pool.(
          positions := c.pool.positions[id := ps[investor := Position(investor, id, contributed, share, 0)]],
          aggregate := c.pool.aggregate[token := aggregate])))
  }

  /** The holder whose turn it is: positions are visited in ascending address order. */
  ghost predicate IsNext(h: Address, rest: set<Address>) {
    h in rest && forall o | o in rest :: h <= o
  }

  lemma {:induction false} NextExists(rest: set<Address>)
    requires rest != {}
    ensures exists h :: IsNext(h, rest)
    decreases |rest|
  {
    var h :| h in rest;
    if rest == {h} {
      assert IsNext(h, rest);
    } else {
      NextExists(rest - {h});
      var m :| IsNext(m, rest - {h});
      assert forall o | o in rest :: o == h || o in rest - {h};
      assert IsNext(if m < h then m else h, rest);
    }
  }

  ghost function NextHolder(rest: set<Address>): (h: Address)
    requires rest != {}
    ensures IsNext(h, rest)
  {
    NextExists(rest);
    var h :| IsNext(h, rest);
    h
  }

  /** Pays every holder in `rest` their share of `repaid` out of the pool's balance, and adds
      up what they had contributed; the first failure aborts. */
  ghost function PayHolders(cfg: Config, b: Balances, token: Address, decimals: u32, ps: Positions, repaid: i128,
                            rest: set<Address>, settled: i128): Result<(Balances, i128)>
    requires rest <= ps.Keys
    decreases |rest|
  {
    if rest == {} then Ok((b, settled)) else
    var h := NextHolder(rest);
    var payout :- BpsOfNormalized(repaid, ps[h].shareBps, decimals);
    var _ :- Fit(payout - ps[h].contributed);
    var paid :- Tokens.Transfer(b, token, cfg.pool, h, payout);
    PayHolders(cfg, paid, token, decimals, ps, repaid, rest - {h}, Saturate(settled + ps[h].contributed))
  }

  /** One turn of the distribution, for whichever holder is found to be next. */
  lemma PayNext(cfg: Config, b: Balances, token: Address, decimals: u32, ps: Positions, repaid: i128,
                rest: set<Address>, settled: i128, h: Address)
    requires rest <= ps.Keys && IsNext(h, rest)
    ensures var payout := BpsOfNormalized(repaid, ps[h].shareBps, decimals);
            var all := PayHolders(cfg, b, token, decimals, ps, repaid, rest, settled);
            if payout.Err? then all == Err(payout.error)
            else if Fit(payout.value - ps[h].contributed).Err? then all == Err(ArithmeticOverflow)
            else
              var paid := Tokens.Transfer(b, token, cfg.pool, h, payout.value);
              if paid.Err? then all == Err(paid.error)
              else all == PayHolders(cfg, paid.value, token, decimals, ps, repaid, rest - {h},
                                     Saturate(settled + ps[h].contributed))
  {
    assert NextHolder(rest) == h;
  }

  ghost function Distribute(cfg: Config, c: Core, id: Id, token: Address, repaid: i128): Result<Core> {
    var ps := c.pool.PositionsOf(id);
    if token !in cfg.decimals then Err(HostTrap) else
    var (b, settled) :- PayHolders(cfg, c.tokens, token, cfg.decimals[token], ps, repaid, ps.Keys, 0);
    Ok(c.(tokens := b,
          pool := c.pool.(aggregate := c.pool.aggregate[token := Saturate(c.pool.AggregateFunded(token) - settled)])))
  }

  /** The pool once the one-time late penalty is applied, if it is due. */
  function WithPenalty(p: Pool, dueDate: nat, now: nat): Result<Pool> {
    if !p.penaltyApplied && p.latePenaltyBps > 0 && now > dueDate then
      var penalty :- BpsOf(p.faceValue, p.latePenaltyBps);
      var owed :- Fit(p.totalOwed + penalty);
      Ok(p.(totalOwed := owed, penaltyApplied := true))
    else Ok(p)
  }

  /** The pool after a repayment credited as `amount` is converted: penalty first, then the
      credit, closing when nothing is owed any more. */
  function Credited(env: Env, invoice: Invoice, p: Pool, amount: i128): Result<Pool> {
    var credit :- Oracle.Convert(env.prices, env.now, amount, invoice.currency, USDC);
    var due :- WithPenalty(p, invoice.terms.dueDate, env.now);
    var repaid :- Fit(due.repaidAmount + credit);
    Ok(due.(repaidAmount := repaid, isClosed := repaid >= due.totalOwed))
  }

  ghost function Repay(cfg: Config, env: Env, c: Core, payer: Address, id: Id, token: Address, amount: i128)
    : Result<Core>
  {
    if amount <= 0 || amount > MAX_AMOUNT then Err(InvalidAmount)
    else if id in c.nft.frozen then Err(InvoiceFrozen)
    else if id in c.pool.locks then Err(Unauthorized)
    else if id !in c.pool.pools then Err(PoolNotFound)
    else if c.pool.pools[id].isClosed then Err(RepaymentAlreadyMade)
    else if id !in c.nft.invoices then Err(InvoiceNotFound)
    else
      var p :- Credited(env, c.nft.invoices[id], c.pool.pools[id], amount);
      var b :- Tokens.Transfer(c.tokens, token, payer, cfg.pool, amount);
      var credited := c.(tokens := b, pool := c.pool.(pools := c.pool.pools[id := p], locks := c.pool.locks + {id}));
      var settled :- if p.isClosed then SettleRepaid(cfg, env, credited, id, token, p.repaidAmount) else Ok(credited);
      Ok(settled.(pool := settled.pool.(locks := settled.pool.locks - {id})))
  }

  /** Distribution followed by the invoice's step to Repaid. */
  ghost function SettleRepaid(cfg: Config, env: Env, c: Core, id: Id, token: Address, repaid: i128): Result<Core> {
    var paid :- Distribute(cfg, c, id, token, repaid);
    var nft :- Nft.SetRepaid(cfg, env, paid.nft, cfg.pool, id);
    Ok(paid.(nft := nft))
  }

  ghost function MarkDefault(cfg: Config, env: Env, c: Core, caller: Address, id: Id, token: Address): Result<Core> {
    if caller != cfg.admin then Err(NotAdmin)
    else if env.paused then Err(ProtocolPaused)
    else if id in c.pool.locks then Err(Unauthorized)
    else if id !in c.pool.pools then Err(PoolNotFound)
    else if c.pool.pools[id].isClosed then Err(PoolAlreadyClosed)
    else
      var repaid := c.pool.pools[id].repaidAmount;
      var paid :- if repaid > 0 then Distribute(cfg, c, id, token, repaid) else Ok(c);
      var nft :- Nft.SetDefaulted(cfg, env, paid.nft, caller, id);
      Ok(paid.(nft := nft))
  }

  ghost function ProposeBuyout(cfg: Config, env: Env, c: Core, sme: Address, id: Id, amount: i128): Result<Core> {
    if env.paused then Err(ProtocolPaused)
    else if amount <= 0 || amount > MAX_AMOUNT then Err(InvalidAmount)
    else if id !in c.pool.pools then Err(PoolNotFound)
    else
      var p := c.pool.pools[id];
      if p.isClosed then Err(PoolAlreadyClosed)
      else if amount < p.totalFunded || amount >= p.totalOwed then Err(InvalidAmount)
      else if id in c.pool.buyouts then Err(AlreadyInitialized)
      else if id !in c.nft.invoices then Err(InvoiceNotFound)
      else if c.nft.invoices[id].sme != sme then Err(Unauthorized)
      else
        var b :- Tokens.Transfer(c.tokens, p.token, sme, cfg.pool, amount);
        Ok(c.(tokens := b, pool := c.pool.(buyouts := c.pool.buyouts[id := Buyout(id, amount, 0, [])])))
  }

  ghost function AcceptBuyout(cfg: Config, env: Env, c: Core, investor: Address, id: Id): Result<Core> {
    if env.paused then Err(ProtocolPaused)
    else if id in c.pool.locks then Err(Unauthorized)
    else if id !in c.pool.buyouts || id !in c.pool.pools then Err(PoolNotFound)
    else
      var offer, p, ps := c.pool.buyouts[id], c.pool.pools[id], c.pool.PositionsOf(id);
      if p.isClosed then Err(PoolAlreadyClosed)
      else if investor !in ps then Err(Unauthorized)
      else if investor in offer.accepted then Err(AlreadyInitialized)
      else if offer.acceptedBps + ps[investor].shareBps >= 0x1_0000_0000 then Err(ArithmeticOverflow)
      else
        var tally := offer.acceptedBps + ps[investor].shareBps;
        if tally < BPS then
          Ok(c.(pool := c.pool.(buyouts := c.pool.buyouts[id :=
                offer.(acceptedBps := tally, accepted := offer.accepted + [investor])])))
        else
          var closed := p.(repaidAmount := offer.amount, isClosed := true);
          var credited := c.(pool := c.pool.(pools := c.pool.pools[id := closed], locks := c.pool.locks + {id}));
          var settled :- SettleRepaid(cfg, env, credited, id, p.token, offer.amount);
          Ok(settled.(pool := settled.pool.(buyouts := settled.pool.buyouts - {id},
              locks := settled.pool.locks - {id})))
  }

  ghost function CancelBuyout(cfg: Config, c: Core, sme: Address, id: Id): Result<Core> {
    if id !in c.pool.buyouts || id !in c.pool.pools then Err(PoolNotFound)
    else if id !in c.nft.invoices then Err(InvoiceNotFound)
    else if c.nft.invoices[id].sme != sme then Err(Unauthorized)
    else
      var b :- Tokens.Transfer(c.tokens, c.pool.pools[id].token, cfg.pool, sme, c.pool.buyouts[id].amount);
      Ok(c.(tokens := b, pool := c.pool.(buyouts := c.pool.buyouts - {id})))
  }

  ghost function ListForSale(env: Env, c: Core, seller: Address, id: Id, token: Address, price: i128): Result<Core> {
    if env.paused then Err(ProtocolPaused)
    else if price <= 0 then Err(InvalidAmount)
    else if id !in c.pool.pools then Err(PoolNotFound)
    else if c.pool.pools[id].isClosed then Err(PoolAlreadyClosed)
    else if seller !in c.pool.PositionsOf(id) then Err(PositionNotFound)
    else if (id, seller) in c.pool.saleOffers then Err(SaleAlreadyListed)
    else Ok(c.(pool := c.pool.(saleOffers := c.pool.saleOffers[(id, seller) := SaleOffer(seller, id, token, price)])))
  }

  ghost function BuyPosition(env: Env, c: Core, buyer: Address, id: Id, seller: Address): Result<Core> {
    if env.paused then Err(ProtocolPaused)
    else if (id, seller) !in c.pool.saleOffers then Err(SaleNotFound)
    else if id !in c.pool.pools then Err(PoolNotFound)
    else if c.pool.pools[id].isClosed then Err(PoolAlreadyClosed)
    else if seller !in c.pool.PositionsOf(id) then Err(PositionNotFound)
    else
      var ps, offer := c.pool.PositionsOf(id), c.pool.saleOffers[(id, seller)];
      var b :- Tokens.Transfer(c.tokens, offer.token, buyer, seller, offer.price);
      Ok(c.(tokens := b,
            pool := c.pool.(
              saleOffers := c.pool.saleOffers - {(id, seller)},
              positions := c.pool.positions[id :=
                (ps - {seller})[buyer := ps[seller].(investor := buyer, invoiceId := id)]])))
  }
}
