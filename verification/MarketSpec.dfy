/** What each entry point of the marketplace does to its own storage and, through the pool,
    to the invoices and the token balances (contracts/marketplace/src/lib.rs). */
module MarketSpec {
  import opened Outcomes
  import opened Validation
  import opened Records
  import Tokens = TokenLedger
  import Nft = InvoiceNft
  import Pool = PoolSpec

  ghost function SetFee(cfg: Config, w: World, caller: Address, bps: u32): Result<World> {
    if caller != cfg.admin then Err(NotAdmin)
    else if bps > BPS then Err(InvalidFeeRate)
    else Ok(w.(market := w.market.(feeBps := bps)))
  }

  ghost function SetTierFee(cfg: Config, w: World, caller: Address, tier: RiskTier, bps: u32): Result<World> {
    if caller != cfg.admin then Err(NotAdmin)
    else if bps > BPS then Err(InvalidFeeRate)
    else Ok(w.(market := w.market.(tierFeeBps := w.market.tierFeeBps[tier := bps])))
  }

  ghost function Whitelist(cfg: Config, w: World, caller: Address, token: Address, add: bool): Result<World> {
    if caller != cfg.admin then Err(NotAdmin)
    else if !add && token !in w.market.whitelist then Err(TokenNotWhitelisted)
    else Ok(w.(market := w.market.(whitelist := if add then w.market.whitelist + {token}
        else w.market.whitelist - {token})))
  }

  ghost function ListInvoice(cfg: Config, env: Env, w: World, seller: Address, id: Id, asking: i128, face: i128,
                             token: Address, deadline: nat, referrer: Option<Address>): Result<World>
  {
    var m := w.market;
    if env.paused then Err(ProtocolPaused)
    else if asking <= 0 || face <= 0 || asking > MAX_AMOUNT || face > MAX_AMOUNT then Err(InvalidAmount)
    else if deadline <= env.now then Err(InvalidDueDate)
    else if asking >= face then Err(InvalidAmount)
    else if token !in m.whitelist then Err(TokenNotWhitelisted)
    else if seller !in env.attested then Err(ComplianceNotAttested)
    else if id in m.listings then Err(InvoiceAlreadyExists)
    else if referrer == Some(seller) then Err(InvalidAddress)
    else if id !in w.core.nft.invoices then Err(InvoiceNotFound)
    else if w.core.nft.invoices[id].terms.amount != face then Err(InvalidAmount)
    else
      var nft :- Nft.SetListed(cfg, env, w.core.nft, cfg.marketplace, id);
      Ok(World(
        m.(listings := m.listings[id := Listing(id, seller, asking, face, token, 0, deadline, true)],
           referrers := if referrer.Some? then m.referrers[id := referrer.value] else m.referrers),
        w.core.(nft := nft)))
  }

  /** The checks before a contribution moves any token, and the fee it will be charged: at
      the rate of the invoice's tier, or the flat one. */
  ghost function FundingFee(cfg: Config, env: Env, w: World, id: Id, amount: i128): Result<i128> {
    var m := w.market;
    if env.paused then Err(ProtocolPaused)
    else if amount <= 0 || amount > MAX_AMOUNT then Err(InvalidAmount)
    else if id !in m.listings then Err(ListingNotFound)
    else
      var l := m.listings[id];
      if !l.isActive then Err(ListingAlreadyCancelled)
      else if env.now > l.fundingDeadline then Err(FundingDeadlinePassed)
      else if Fit(l.askingPrice - l.fundedAmount).Err? then Err(ArithmeticUnderflow)
      else if amount > l.askingPrice - l.fundedAmount then Err(ExceedsFundingTarget)
      else if id in w.core.nft.frozen then Err(InvoiceFrozen)
      else if l.token !in cfg.decimals then Err(HostTrap)
      else if id !in w.core.nft.invoices then Err(InvoiceNotFound)
      else BpsOfNormalized(amount, m.FeeFor(w.core.nft.invoices[id].riskTier), cfg.decimals[l.token])
  }

  /** The two transfers of a contribution: fee to the treasury, net amount to the pool. */
  ghost function TakeContribution(cfg: Config, env: Env, b: Balances, token: Address, investor: Address, fee: i128,
                                  net: i128): Result<Balances>
  {
    var b1 :- if fee > 0 then Tokens.Transfer(b, token, investor, cfg.treasury, fee) else Ok(b);
    if fee > 0 && env.CollectFee(token, fee).Err? then Err(env.CollectFee(token, fee).error)
    else if net > 0 then Tokens.Transfer(b1, token, investor, cfg.pool, net) else Ok(b1)
  }

  /** The marketplace's storage with the contribution added: the listing's funded amount, which
      makes it inactive once it reaches the asking price, and the investor's net amount. */
  ghost function RecordContribution(m: MarketStore, id: Id, investor: Address, amount: i128, net: i128)
    : Result<MarketStore>
    requires id in m.listings
  {
    var l := m.listings[id];
    var funded :- Fit(l.fundedAmount + amount);
    var contribution :- Fit(m.Contribution(id, investor) + net);
    Ok(m.(listings := m.listings[id := l.(fundedAmount := funded, isActive := l.isActive && funded < l.askingPrice)],
          contributions := m.contributions[(id, investor) := contribution]))
  }

  /** A contribution of `fee` to the treasury and `amount - fee` to the pool; the one that
      completes the asking price also opens the pool. */
  ghost function Contribute(cfg: Config, env: Env, w: World, investor: Address, id: Id, amount: i128, fee: i128)
    : Result<World>
    requires id in w.market.listings
  {
    var l := w.market.listings[id];
    var net :- Fit(amount - fee);
    var b :- TakeContribution(cfg, env, w.core.tokens, l.token, investor, fee, net);
    var market :- RecordContribution(w.market, id, investor, amount, net);
    var core := w.core.(tokens := b);
    var released :- if market.listings[id].fundedAmount >= l.askingPrice
        then Pool.ReleaseFunds(cfg, env, core, id, l.token)
                    else Ok(core);
    Ok(World(market, released))
  }

  ghost function FundInvoice(cfg: Config, env: Env, w: World, investor: Address, id: Id, amount: i128): Result<World> {
    var fee :- FundingFee(cfg, env, w, id, amount);
    Contribute(cfg, env, w, investor, id, amount, fee)
  }

  ghost function Deactivate(w: World, id: Id): World
    requires id in w.market.listings
  {
    w.(market := w.market.(listings := w.market.listings[id := w.market.listings[id].(isActive := false)]))
  }

  ghost function CancelListing(cfg: Config, w: World, caller: Address, id: Id): Result<World> {
    if id !in w.market.listings then Err(ListingNotFound)
    else if !w.market.listings[id].isActive then Err(ListingAlreadyCancelled)
    else if caller != w.market.listings[id].seller && caller != cfg.admin then Err(Unauthorized)
    else Ok(Deactivate(w, id))
  }

  ghost function RequestCancellation(cfg: Config, w: World, caller: Address, id: Id): Result<World> {
    if id !in w.market.listings then Err(ListingNotFound)
    else if !w.market.listings[id].isActive then Err(ListingAlreadyCancelled)
    else if caller != w.market.listings[id].seller && caller != cfg.admin then Err(Unauthorized)
    else if w.market.listings[id].fundedAmount == 0 then Ok(Deactivate(w, id))
    else if id in w.market.cancelRequests then Err(CancellationPending)
    else Ok(w.(market := w.market.(cancelRequests := w.market.cancelRequests[id := caller])))
  }

  ghost function ConfirmCancellation(cfg: Config, w: World, caller: Address, id: Id): Result<World> {
    if caller != cfg.admin then Err(NotAdmin)
    else if id !in w.market.cancelRequests then Err(NoCancellationPending)
    else if id !in w.market.listings then Err(ListingNotFound)
    else if !w.market.listings[id].isActive then Err(ListingAlreadyCancelled)
    else
      var off := Deactivate(w, id);
      Ok(off.(market := off.market.(
        cancelRequests := off.market.cancelRequests - {id},
        cancelConfirmed := off.market.cancelConfirmed + {id})))
  }

  ghost function ClaimRefund(cfg: Config, env: Env, w: World, investor: Address, id: Id): Result<World> {
    var m := w.market;
    if id !in m.listings then Err(ListingNotFound)
    else
      var l := m.listings[id];
      if l.fundedAmount >= l.askingPrice then Err(ListingFullyFunded)
      else if id !in m.cancelConfirmed && env.now <= l.fundingDeadline then Err(FundingNotExpired)
      else if (id, investor) in m.refunded then Err(RefundAlreadyClaimed)
      else if m.Contribution(id, investor) <= 0 then Err(NoContribution)
      else
        var b :- Tokens.Transfer(w.core.tokens, l.token, cfg.pool, investor, m.Contribution(id, investor));
        Ok(World(m.(refunded := m.refunded + {(id, investor)}), w.core.(tokens := b)))
  }
}
