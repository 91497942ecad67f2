/** The marketplace contract (contracts/marketplace/src/lib.rs): listings, contributions,
    cancellations and refunds, each entry point proved to do what `MarketSpec` says. */
module Marketplace {
  import opened Outcomes
  import opened Validation
  import opened Records
  import opened FinancingPool
  import Spec = MarketSpec

  class Marketplace {
    const cfg: Config
    const pool: FinancingPool

    var feeBps: u32
    var tierFeeBps: map<RiskTier, u32>
    var whitelist: set<Address>
    var listings: map<Id, Listing>
    var contributions: map<(Id, Address), i128>
    var refunded: set<(Id, Address)>
    var referrers: map<Id, Address>
    var cancelRequests: map<Id, Address>
    var cancelConfirmed: set<Id>

    constructor (cfg: Config, pool: FinancingPool, feeBps: u32)
      requires pool.cfg == cfg && pool.Wired() && feeBps <= BPS
      ensures this.cfg == cfg && this.pool == pool && Wired()
      ensures Store() == MarketStore(feeBps, map[], {}, map[], map[], {}, map[], map[], {})
    {
      this.cfg, this.pool, this.feeBps := cfg, pool, feeBps;
      tierFeeBps, whitelist, listings, contributions, refunded := map[], {}, map[], map[], {};
      referrers, cancelRequests, cancelConfirmed := map[], map[], {};
    }

    ghost predicate Wired() {
      pool.cfg == cfg && pool.Wired()
    }

    function Store(): MarketStore
      reads this
    {
      MarketStore(feeBps, tierFeeBps, whitelist, listings, contributions, refunded, referrers,
                  cancelRequests, cancelConfirmed)
    }

    function Contents(): World
      reads this, pool, pool.nft, pool.bank
    {
      World(Store(), pool.Contents())
    }

    method Restore(saved: World)
      modifies this, pool, pool.nft, pool.bank
      ensures Contents() == saved
    {
      var m := saved.market;
      feeBps, tierFeeBps, whitelist, listings := m.feeBps, m.tierFeeBps, m.whitelist, m.listings;
      contributions, refunded, referrers := m.contributions, m.refunded, m.referrers;
      cancelRequests, cancelConfirmed := m.cancelRequests, m.cancelConfirmed;
      pool.Restore(saved.core);
    }

    method SetFeeBps(caller: Address, bps: u32) returns (r: Status)
      modifies this
      ensures r == StatusOf(Spec.SetFee(cfg, old(Contents()), caller, bps))
      ensures Contents() == Commit(old(Contents()), Spec.SetFee(cfg, old(Contents()), caller, bps))
    {
      if caller != cfg.admin { return Failed(NotAdmin); }
      if bps > BPS { return Failed(InvalidFeeRate); }
      feeBps := bps;
      return Done;
    }

    method SetTierFeeBps(caller: Address, tier: RiskTier, bps: u32) returns (r: Status)
      modifies this
      ensures r == StatusOf(Spec.SetTierFee(cfg, old(Contents()), caller, tier, bps))
      ensures Contents() == Commit(old(Contents()), Spec.SetTierFee(cfg, old(Contents()), caller, tier, bps))
    {
      if caller != cfg.admin { return Failed(NotAdmin); }
      if bps > BPS { return Failed(InvalidFeeRate); }
      tierFeeBps := tierFeeBps[tier := bps];
      return Done;
    }

    method SetWhitelisted(caller: Address, token: Address, add: bool) returns (r: Status)
      modifies this
      ensures r == StatusOf(Spec.Whitelist(cfg, old(Contents()), caller, token, add))
      ensures Contents() == Commit(old(Contents()), Spec.Whitelist(cfg, old(Contents()), caller, token, add))
    {
      if caller != cfg.admin { return Failed(NotAdmin); }
      if !add && token !in whitelist { return Failed(TokenNotWhitelisted); }
      whitelist := if add then whitelist + {token} else whitelist - {token};
      return Done;
    }

    /** The referrer is written before the invoice is checked: a failure undoes it. */
    method ListInvoice(env: Env, seller: Address, id: Id, asking: i128, face: i128, token: Address,
                       deadline: nat, referrer: Option<Address>) returns (r: Status)
      requires Wired()
      modifies this, pool, pool.nft, pool.bank
      ensures r == StatusOf(Spec.ListInvoice(cfg, env, old(Contents()), seller, id, asking, face, token, deadline,
          referrer))
      ensures Contents() == Commit(old(Contents()),
                Spec.ListInvoice(cfg, env, old(Contents()), seller, id, asking, face, token, deadline, referrer))
    {
      if env.paused { return Failed(ProtocolPaused); }
      if asking <= 0 { return Failed(InvalidAmount); }
      if face <= 0 { return Failed(InvalidAmount); }
      if asking > MAX_AMOUNT { return Failed(InvalidAmount); }
      if face > MAX_AMOUNT { return Failed(InvalidAmount); }
      if deadline <= env.now { return Failed(InvalidDueDate); }
      if asking >= face { return Failed(InvalidAmount); }
      if token !in whitelist { return Failed(TokenNotWhitelisted); }
      if seller !in env.attested { return Failed(ComplianceNotAttested); }
      if id in listings { return Failed(InvoiceAlreadyExists); }
      var saved := Contents();
      label invocation: {
        if referrer.Some? {
          if referrer.value == seller { r := Failed(InvalidAddress); break invocation; }
          referrers := referrers[id := referrer.value];
        }
        if id !in pool.nft.invoices { r := Failed(InvoiceNotFound); break invocation; }
        if pool.nft.invoices[id].terms.amount != face { r := Failed(InvalidAmount); break invocation; }
        r := pool.nft.MarkListed(env, cfg.marketplace, id);
        if r.Failed? { break invocation; }
        listings := listings[id := Listing(id, seller, asking, face, token, 0, deadline, true)];
        return Done;
      }
      Restore(saved);
    }

    /** The two transfers of a contribution. */
    method TakeContribution(env: Env, token: Address, investor: Address, fee: i128, net: i128) returns (r: Status)
      modifies pool.bank
      ensures var spec := Spec.TakeContribution(cfg, env, old(pool.bank.balances), token, investor, fee, net);
              r == StatusOf(spec) && (r.Done? ==> pool.bank.balances == spec.value)
    {
      r := Done;
      if fee > 0 {
        r := pool.bank.Move(token, investor, cfg.treasury, fee);
        if r.Failed? { return; }
        var recorded := env.CollectFee(token, fee);
        if recorded.Err? { return Failed(recorded.error); }
      }
      if net > 0 {
        r := pool.bank.Move(token, investor, cfg.pool, net);
      }
    }

    /** The checks before any token moves, and the fee. */
    method CheckFunding(env: Env, id: Id, amount: i128) returns (fee: Result<i128>)
      ensures fee == Spec.FundingFee(cfg, env, Contents(), id, amount)
    {
      if env.paused { return Err(ProtocolPaused); }
      if amount <= 0 { return Err(InvalidAmount); }
      if amount > MAX_AMOUNT { return Err(InvalidAmount); }
      if id !in listings { return Err(ListingNotFound); }
      var listing := listings[id];
      if !listing.isActive { return Err(ListingAlreadyCancelled); }
      if env.now > listing.fundingDeadline { return Err(FundingDeadlinePassed); }
      var remaining := Fit(listing.askingPrice - listing.fundedAmount);
      if remaining.Err? { return Err(ArithmeticUnderflow); }
      if amount > remaining.value { return Err(ExceedsFundingTarget); }
      if id in pool.nft.frozen { return Err(InvoiceFrozen); }
      if listing.token !in cfg.decimals { return Err(HostTrap); }
      if id !in pool.nft.invoices { return Err(InvoiceNotFound); }
      var rate := Store().FeeFor(pool.nft.invoices[id].riskTier);
      return BpsOfNormalized(amount, rate, cfg.decimals[listing.token]);
    }

    method FundInvoice(env: Env, investor: Address, id: Id, amount: i128) returns (r: Status)
      requires Wired()
      modifies this, pool, pool.nft, pool.bank
      ensures r == StatusOf(Spec.FundInvoice(cfg, env, old(Contents()), investor, id, amount))
      ensures Contents() == Commit(old(Contents()), Spec.FundInvoice(cfg, env, old(Contents()), investor, id, amount))
    {
      var fee := CheckFunding(env, id, amount);
      if fee.Err? { return Failed(fee.error); }
      var saved := Contents();
      r := Contribute(env, investor, id, amount, fee.value);
      if r.Failed? { Restore(saved); }
    }

    /** The part of a contribution that moves tokens and writes storage; a failure is undone
        by its caller. */
    method Contribute(env: Env, investor: Address, id: Id, amount: i128, fee: i128) returns (r: Status)
      requires Wired() && id in listings
      modifies this, pool, pool.nft, pool.bank
      ensures var spec := Spec.Contribute(cfg, env, old(Contents()), investor, id, amount, fee);
              r == StatusOf(spec) && (r.Done? ==> Contents() == spec.value)
    {
      var listing := listings[id];
      var net := Fit(amount - fee);
      if net.Err? { return Failed(net.error); }
      r := TakeContribution(env, listing.token, investor, fee, net.value);
      if r.Failed? { return; }
      r := RecordContribution(id, investor, amount, net.value);
      if r.Failed? { return; }
      if listings[id].fundedAmount >= listing.askingPrice {
        r := pool.ReleaseFunds(env, id, listing.token);
      }
    }

    /** Adds the contribution to the listing and to the investor's net amount. */
    method RecordContribution(id: Id, investor: Address, amount: i128, net: i128) returns (r: Status)
      requires id in listings
      modifies this`listings, this`contributions
      ensures id in listings
      ensures var spec := Spec.RecordContribution(old(Store()), id, investor, amount, net);
              r == StatusOf(spec) && (r.Done? ==> Store() == spec.value)
    {
      var listing := listings[id];
      var funded := Fit(listing.fundedAmount + amount);
      if funded.Err? { return Failed(funded.error); }
      listing := listing.(fundedAmount := funded.value);
      var contribution := Fit(Store().Contribution(id, investor) + net);
      if contribution.Err? { return Failed(contribution.error); }
      contributions := contributions[(id, investor) := contribution.value];
      if listing.fundedAmount >= listing.askingPrice { listing := listing.(isActive := false); }
      listings := listings[id := listing];
      return Done;
    }

    method CancelListing(caller: Address, id: Id) returns (r: Status)
      modifies this
      ensures r == StatusOf(Spec.CancelListing(cfg, old(Contents()), caller, id))
      ensures Contents() == Commit(old(Contents()), Spec.CancelListing(cfg, old(Contents()), caller, id))
    {
      if id !in listings { return Failed(ListingNotFound); }
      var listing := listings[id];
      if !listing.isActive { return Failed(ListingAlreadyCancelled); }
      if caller != listing.seller && caller != cfg.admin { return Failed(Unauthorized); }
      listings := listings[id := listing.(isActive := false)];
      return Done;
    }

    method RequestCancellation(caller: Address, id: Id) returns (r: Status)
      modifies this
      ensures r == StatusOf(Spec.RequestCancellation(cfg, old(Contents()), caller, id))
      ensures Contents() == Commit(old(Contents()), Spec.RequestCancellation(cfg, old(Contents()), caller, id))
    {
      if id !in listings { return Failed(ListingNotFound); }
      var listing := listings[id];
      if !listing.isActive { return Failed(ListingAlreadyCancelled); }
      if caller != listing.seller && caller != cfg.admin { return Failed(Unauthorized); }
      if listing.fundedAmount == 0 {
        listings := listings[id := listing.(isActive := false)];
        return Done;
      }
      if id in cancelRequests { return Failed(CancellationPending); }
      cancelRequests := cancelRequests[id := caller];
      return Done;
    }

    method AdminConfirmCancellation(caller: Address, id: Id) returns (r: Status)
      modifies this
      ensures r == StatusOf(Spec.ConfirmCancellation(cfg, old(Contents()), caller, id))
      ensures Contents() == Commit(old(Contents()), Spec.ConfirmCancellation(cfg, old(Contents()), caller, id))
    {
      if caller != cfg.admin { return Failed(NotAdmin); }
      if id !in cancelRequests { return Failed(NoCancellationPending); }
      if id !in listings { return Failed(ListingNotFound); }
      var listing := listings[id];
      if !listing.isActive { return Failed(ListingAlreadyCancelled); }
      listings := listings[id := listing.(isActive := false)];
      cancelRequests := cancelRequests - {id};
      cancelConfirmed := cancelConfirmed + {id};
      return Done;
    }

    method ClaimRefund(env: Env, investor: Address, id: Id) returns (r: Status)
      modifies this, pool, pool.nft, pool.bank
      ensures r == StatusOf(Spec.ClaimRefund(cfg, env, old(Contents()), investor, id))
      ensures Contents() == Commit(old(Contents()), Spec.ClaimRefund(cfg, env, old(Contents()), investor, id))
    {
      if id !in listings { return Failed(ListingNotFound); }
      var listing := listings[id];
      if listing.fundedAmount >= listing.askingPrice { return Failed(ListingFullyFunded); }
      if id !in cancelConfirmed && env.now <= listing.fundingDeadline { return Failed(FundingNotExpired); }
      if (id, investor) in refunded { return Failed(RefundAlreadyClaimed); }
      var net := Store().Contribution(id, investor);
      if net <= 0 { return Failed(NoContribution); }
      var saved := Contents();
      refunded := refunded + {(id, investor)};
      r := pool.bank.Move(listing.token, cfg.pool, investor, net);
      if r.Failed? { Restore(saved); }
    }
  }
}
