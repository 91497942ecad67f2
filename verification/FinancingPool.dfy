/** The financing pool contract (contracts/financing_pool/src/lib.rs): every entry point
    reads, changes and writes back storage step by step, and is proved to do what `PoolSpec`
    says; a failing invocation leaves no trace, because the host undoes its writes. */
module FinancingPool {
  import opened Outcomes
  import opened Validation
  import opened Records
  import opened TokenLedger
  import Oracle = PriceOracle
  import opened InvoiceNft
  import Spec = PoolSpec

  class FinancingPool {
    const cfg: Config
    const nft: InvoiceNft
    const bank: TokenLedger

    var pools: map<Id, Pool>
    var positions: map<Id, Positions>
    var saleOffers: map<(Id, Address), SaleOffer>
    var buyouts: map<Id, Buyout>
    var locks: set<Id>
    var maxPositionBps: u32
    var aggregate: map<Address, i128>

    constructor (cfg: Config, nft: InvoiceNft, bank: TokenLedger, maxPositionBps: u32)
      requires nft.cfg == cfg
      ensures this.cfg == cfg && this.nft == nft && this.bank == bank
      ensures Store() == PoolStore(map[], map[], map[], map[], {}, maxPositionBps, map[])
    {
      this.cfg, this.nft, this.bank, this.maxPositionBps := cfg, nft, bank, maxPositionBps;
      pools, positions, saleOffers, buyouts, locks, aggregate := map[], map[], map[], map[], {}, map[];
    }

    function Store(): PoolStore
      reads this
    {
      PoolStore(pools, positions, saleOffers, buyouts, locks, maxPositionBps, aggregate)
    }

    function Contents(): Core
      reads this, nft, bank
    {
      Core(bank.balances, nft.Store(), Store())
    }

    /** The host undoing an invocation, nested contract calls included. */
    method Restore(saved: Core)
      modifies this, nft, bank
      ensures Contents() == saved
    {
      bank.Restore(saved.tokens);
      nft.Restore(saved.nft);
      pools, positions, saleOffers := saved.pool.pools, saved.pool.positions, saved.pool.saleOffers;
      buyouts, locks, maxPositionBps := saved.pool.buyouts, saved.pool.locks, saved.pool.maxPositionBps;
      aggregate := saved.pool.aggregate;
    }

    ghost predicate Wired() {
      nft.cfg == cfg
    }

    method ReleaseFunds(env: Env, id: Id, token: Address) returns (r: Status)
      requires Wired()
      modifies this, nft, bank
      ensures r == StatusOf(Spec.ReleaseFunds(cfg, env, old(Contents()), id, token))
      ensures Contents() == Commit(old(Contents()), Spec.ReleaseFunds(cfg, env, old(Contents()), id, token))
    {
      if env.paused { return Failed(ProtocolPaused); }
      if id in pools { return Failed(PoolAlreadyClosed); }
      if token == cfg.pool { return Failed(InvalidAddress); }
      if id !in nft.invoices { return Failed(InvoiceNotFound); }
      var invoice := nft.invoices[id];
      if invoice.terms.amount <= 0 || invoice.terms.amount > MAX_AMOUNT { return Failed(InvalidAmount); }
      var saved := Contents();
      pools := pools[id := Pool(id, token, 0, invoice.terms.amount, 0, false, cfg.latePenaltyBps,
                                invoice.terms.amount, false)];
      r := nft.MarkFunded(env, cfg.pool, id);
      if r.Failed? { Restore(saved); }
    }

    method SetMaxPositionBps(caller: Address, bps: u32) returns (r: Status)
      modifies this
      ensures r == StatusOf(Spec.SetMaxPosition(cfg, old(Contents()), caller, bps))
      ensures Contents() == Commit(old(Contents()), Spec.SetMaxPosition(cfg, old(Contents()), caller, bps))
    {
      if caller != cfg.admin { return Failed(NotAdmin); }
      if bps == 0 || bps > BPS { return Failed(InvalidFeeRate); }
      maxPositionBps := bps;
      return Done;
    }

    /** The position is written before the pool is looked up: a missing pool undoes it. */
    method RecordPosition(env: Env, caller: Address, id: Id, investor: Address, contributed: i128, total: i128)
      returns (r: Status)
      modifies this, nft, bank
      ensures r == StatusOf(Spec.RecordPosition(cfg, env, old(Contents()), caller, id, investor, contributed, total))
      ensures Contents() == Commit(old(Contents()),
          Spec.RecordPosition(cfg, env, old(Contents()), caller, id, investor, contributed, total))
    {
      if caller != cfg.admin { return Failed(NotAdmin); }
      if env.paused { return Failed(ProtocolPaused); }
      if contributed <= 0 || total <= 0 { return Failed(InvalidAmount); }
      if contributed > total || contributed > MAX_AMOUNT || total > MAX_AMOUNT { return Failed(InvalidAmount); }
      var share := Spec.ShareOf(contributed, total);
      if share.Err? { return Failed(share.error); }
      Spec.ShareInRange(contributed, total);
      if share.value > maxPositionBps { return Failed(ExceedsFundingTarget); }

      var saved := Contents();
      label invocation: {
        var ps := Store().PositionsOf(id);
        var before := if investor in ps then ps[investor].contributed else 0;
        ps := ps[investor := Position(investor, id, contributed, share.value, 0)];
        positions := positions[id := ps];
        if id !in pools { r := Failed(PoolNotFound); break invocation; }
        var token := pools[id].token;
        var reduced := Fit(Store().AggregateFunded(token) - before);
        if reduced.Err? { r := Failed(reduced.error); break invocation; }
        var funded := Fit(reduced.value + contributed);
        if funded.Err? { r := Failed(funded.error); break invocation; }
        aggregate := aggregate[token := funded.value];
        return Done;
      }
      Restore(saved);
    }

    /** Pays every position its share, in ascending address order. */
    method PayPositions(token: Address, decimals: u32, ps: Positions, repaid: i128)
      returns (r: Status, settled: i128)
      modifies bank
      ensures var spec := Spec.PayHolders(cfg, old(bank.balances), token, decimals, ps, repaid, ps.Keys, 0);
              r == StatusOf(spec) && (r.Done? ==> (bank.balances, settled) == spec.value)
    {
      var rest := ps.Keys;
      settled := 0;
      while rest != {}
        invariant rest <= ps.Keys
        invariant Spec.PayHolders(cfg, old(bank.balances), token, decimals, ps, repaid, ps.Keys, 0)
               == Spec.PayHolders(cfg, bank.balances, token, decimals, ps, repaid, rest, settled)
        decreases |rest|
      {
        Spec.NextExists(rest);
        ghost var next :| Spec.IsNext(next, rest);
        assert next in rest && forall o | o in rest :: next <= o;
        var h :| h in rest && forall o | o in rest :: h <= o;
        Spec.PayNext(cfg, bank.balances, token, decimals, ps, repaid, rest, settled, h);
        var payout := BpsOfNormalized(repaid, ps[h].shareBps, decimals);
        if payout.Err? { return Failed(payout.error), settled; }
        var earned := Fit(payout.value - ps[h].contributed);
        if earned.Err? { return Failed(earned.error), settled; }
        settled := Saturate(settled + ps[h].contributed);
        r := bank.Move(token, cfg.pool, h, payout.value);
        if r.Failed? { return; }
        rest := rest - {h};
      }
      r := Done;
    }

    /** Distribution, and the settled contributions taken off the aggregate. */
    method DistributeYield(id: Id, token: Address, repaid: i128) returns (r: Status)
      modifies this, bank
      ensures r == StatusOf(Spec.Distribute(cfg, old(Contents()), id, token, repaid))
      ensures r.Done? ==> Contents() == Spec.Distribute(cfg, old(Contents()), id, token, repaid).value
    {
      var ps := Store().PositionsOf(id);
      if token !in cfg.decimals { return Failed(HostTrap); }
      var settled: i128;
      r, settled := PayPositions(token, cfg.decimals[token], ps, repaid);
      if r.Failed? { return; }
      aggregate := aggregate[token := Saturate(Store().AggregateFunded(token) - settled)];
    }

    /** Distribution, then the invoice's step to Repaid. */
    method SettleRepaid(env: Env, id: Id, token: Address, repaid: i128) returns (r: Status)
      requires Wired()
      modifies this, nft, bank
      ensures r == StatusOf(Spec.SettleRepaid(cfg, env, old(Contents()), id, token, repaid))
      ensures r.Done? ==> Contents() == Spec.SettleRepaid(cfg, env, old(Contents()), id, token, repaid).value
    {
      r := DistributeYield(id, token, repaid);
      if r.Done? {
        r := nft.MarkRepaid(env, cfg.pool, id);
      }
    }

    /** The part of a repayment that only computes: conversion, one-time penalty, credit. */
    method CreditRepayment(env: Env, invoice: Invoice, open: Pool, amount: i128) returns (r: Result<Pool>)
      requires !open.isClosed
      ensures r == Spec.Credited(env, invoice, open, amount)
    {
      var pool := open;
      var credit := Oracle.Convert(env.prices, env.now, amount, invoice.currency, USDC);
      if credit.Err? { return Err(credit.error); }
      if !pool.penaltyApplied && pool.latePenaltyBps > 0 {
        if env.now > invoice.terms.dueDate {
          var penalty := BpsOf(pool.faceValue, pool.latePenaltyBps);
          if penalty.Err? { return Err(penalty.error); }
          var owed := Fit(pool.totalOwed + penalty.value);
          if owed.Err? { return Err(owed.error); }
          pool := pool.(totalOwed := owed.value);
          pool := pool.(penaltyApplied := true);
        }
      }
      var repaid := Fit(pool.repaidAmount + credit.value);
      if repaid.Err? { return Err(repaid.error); }
      pool := pool.(repaidAmount := repaid.value);
      if pool.repaidAmount >= pool.totalOwed { pool := pool.(isClosed := true); }
      return Ok(pool);
    }

    /** The lock is held from the pool lookup to the end; every failure in between undoes it. */
    method Repay(env: Env, payer: Address, id: Id, token: Address, amount: i128) returns (r: Status)
      requires Wired()
      modifies this, nft, bank
      ensures r == StatusOf(Spec.Repay(cfg, env, old(Contents()), payer, id, token, amount))
      ensures Contents() == Commit(old(Contents()), Spec.Repay(cfg, env, old(Contents()), payer, id, token, amount))
    {
      if amount <= 0 || amount > MAX_AMOUNT { return Failed(InvalidAmount); }
      if id in nft.frozen { return Failed(InvoiceFrozen); }
      if id in locks { return Failed(Unauthorized); }
      var saved := Contents();
      label invocation: {
        locks := locks + {id};
        if id !in pools { r := Failed(PoolNotFound); break invocation; }
        var pool := pools[id];
        if pool.isClosed { r := Failed(RepaymentAlreadyMade); break invocation; }
        if id !in nft.invoices { r := Failed(InvoiceNotFound); break invocation; }
        var invoice := nft.invoices[id];
        var credited := CreditRepayment(env, invoice, pool, amount);
        if credited.Err? { r := Failed(credited.error); break invocation; }
        pool := credited.value;
        pools := pools[id := pool];
        r := bank.Move(token, payer, cfg.pool, amount);
        if r.Failed? { break invocation; }
        if pool.isClosed {
          r := SettleRepaid(env, id, token, pool.repaidAmount);
          if r.Failed? { break invocation; }
        }
        locks := locks - {id};
        return Done;
      }
      Restore(saved);
    }

    /** Also names the SME whose default is reported to the risk registry; whether that
        report is accepted there does not matter here. */
    method MarkDefault(env: Env, caller: Address, id: Id, token: Address)
      returns (r: Status, reported: Option<Address>)
      requires Wired()
      modifies this, nft, bank
      ensures r == StatusOf(Spec.MarkDefault(cfg, env, old(Contents()), caller, id, token))
      ensures Contents() == Commit(old(Contents()), Spec.MarkDefault(cfg, env, old(Contents()), caller, id, token))
      ensures reported.Some? <==> r.Done?
      ensures r.Done? ==> id in old(nft.invoices) && reported == Some(old(nft.invoices)[id].sme)
    {
      reported := None;
      if caller != cfg.admin { r := Failed(NotAdmin); return; }
      if env.paused { r := Failed(ProtocolPaused); return; }
      if id in locks { r := Failed(Unauthorized); return; }
      if id !in pools { r := Failed(PoolNotFound); return; }
      var pool := pools[id];
      if pool.isClosed { r := Failed(PoolAlreadyClosed); return; }
      var saved := Contents();
      label invocation: {
        if pool.repaidAmount > 0 {
          r := DistributeYield(id, token, pool.repaidAmount);
          if r.Failed? { break invocation; }
        }
        r := nft.MarkDefaulted(env, caller, id);
        if r.Failed? { break invocation; }
        reported := Some(nft.invoices[id].sme);
        return;
      }
      Restore(saved);
    }

    method ProposeEarlySettlement(env: Env, sme: Address, id: Id, amount: i128) returns (r: Status)
      modifies this, nft, bank
      ensures r == StatusOf(Spec.ProposeBuyout(cfg, env, old(Contents()), sme, id, amount))
      ensures Contents() == Commit(old(Contents()), Spec.ProposeBuyout(cfg, env, old(Contents()), sme, id, amount))
    {
      if env.paused { return Failed(ProtocolPaused); }
      if amount <= 0 || amount > MAX_AMOUNT { return Failed(InvalidAmount); }
      if id !in pools { return Failed(PoolNotFound); }
      var pool := pools[id];
      if pool.isClosed { return Failed(PoolAlreadyClosed); }
      if amount < pool.totalFunded || amount >= pool.totalOwed { return Failed(InvalidAmount); }
      if id in buyouts { return Failed(AlreadyInitialized); }
      if id !in nft.invoices { return Failed(InvoiceNotFound); }
      if nft.invoices[id].sme != sme { return Failed(Unauthorized); }
      r := bank.Move(pool.token, sme, cfg.pool, amount);
      if r.Failed? { return; }
      buyouts := buyouts[id := Buyout(id, amount, 0, [])];
    }

    method AcceptEarlySettlement(env: Env, investor: Address, id: Id) returns (r: Status)
      requires Wired()
      modifies this, nft, bank
      ensures r == StatusOf(Spec.AcceptBuyout(cfg, env, old(Contents()), investor, id))
      ensures Contents() == Commit(old(Contents()), Spec.AcceptBuyout(cfg, env, old(Contents()), investor, id))
    {
      if env.paused { return Failed(ProtocolPaused); }
      if id in locks { return Failed(Unauthorized); }
      if id !in buyouts { return Failed(PoolNotFound); }
      var offer := buyouts[id];
      if id !in pools { return Failed(PoolNotFound); }
      var pool := pools[id];
      if pool.isClosed { return Failed(PoolAlreadyClosed); }
      var ps := Store().PositionsOf(id);
      if investor !in ps { return Failed(Unauthorized); }
      if investor in offer.accepted { return Failed(AlreadyInitialized); }
      offer := offer.(accepted := offer.accepted + [investor]);
      if offer.acceptedBps + ps[investor].shareBps >= 0x1_0000_0000 { return Failed(ArithmeticOverflow); }
      offer := offer.(acceptedBps := offer.acceptedBps + ps[investor].shareBps);
      if offer.acceptedBps < BPS {
        buyouts := buyouts[id := offer];
        return Done;
      }
      var saved := Contents();
      label invocation: {
        locks := locks + {id};
        pool := pool.(repaidAmount := offer.amount);
        pool := pool.(isClosed := true);
        pools := pools[id := pool];
        r := SettleRepaid(env, id, pool.token, offer.amount);
        if r.Failed? { break invocation; }
        buyouts := buyouts - {id};
        locks := locks - {id};
        return Done;
      }
      Restore(saved);
    }

    method CancelEarlySettlement(sme: Address, id: Id) returns (r: Status)
      modifies this, nft, bank
      ensures r == StatusOf(Spec.CancelBuyout(cfg, old(Contents()), sme, id))
      ensures Contents() == Commit(old(Contents()), Spec.CancelBuyout(cfg, old(Contents()), sme, id))
    {
      if id !in buyouts { return Failed(PoolNotFound); }
      var offer := buyouts[id];
      if id !in pools { return Failed(PoolNotFound); }
      if id !in nft.invoices { return Failed(InvoiceNotFound); }
      if nft.invoices[id].sme != sme { return Failed(Unauthorized); }
      var saved := Contents();
      buyouts := buyouts - {id};
      r := bank.Move(pools[id].token, cfg.pool, sme, offer.amount);
      if r.Failed? { Restore(saved); }
    }

    method ListPositionForSale(env: Env, seller: Address, id: Id, token: Address, price: i128) returns (r: Status)
      modifies this
      ensures r == StatusOf(Spec.ListForSale(env, old(Contents()), seller, id, token, price))
      ensures Contents() == Commit(old(Contents()), Spec.ListForSale(env, old(Contents()), seller, id, token, price))
    {
      if env.paused { return Failed(ProtocolPaused); }
      if price <= 0 { return Failed(InvalidAmount); }
      if id !in pools { return Failed(PoolNotFound); }
      if pools[id].isClosed { return Failed(PoolAlreadyClosed); }
      if seller !in Store().PositionsOf(id) { return Failed(PositionNotFound); }
      if (id, seller) in saleOffers { return Failed(SaleAlreadyListed); }
      saleOffers := saleOffers[(id, seller) := SaleOffer(seller, id, token, price)];
      return Done;
    }

    method BuyPosition(env: Env, buyer: Address, id: Id, seller: Address) returns (r: Status)
      modifies this, nft, bank
      ensures r == StatusOf(Spec.BuyPosition(env, old(Contents()), buyer, id, seller))
      ensures Contents() == Commit(old(Contents()), Spec.BuyPosition(env, old(Contents()), buyer, id, seller))
    {
      if env.paused { return Failed(ProtocolPaused); }
      if (id, seller) !in saleOffers { return Failed(SaleNotFound); }
      var offer := saleOffers[(id, seller)];
      if id !in pools { return Failed(PoolNotFound); }
      if pools[id].isClosed { return Failed(PoolAlreadyClosed); }
      var ps := Store().PositionsOf(id);
      if seller !in ps { return Failed(PositionNotFound); }
      var sold := ps[seller];
      var saved := Contents();
      saleOffers := saleOffers - {(id, seller)};
      ps := ps - {seller};
      ps := ps[buyer := Position(buyer, id, sold.contributed, sold.shareBps, sold.yieldClaimed)];
      positions := positions[id := ps];
      r := bank.Move(offer.token, buyer, seller, offer.price);
      if r.Failed? { Restore(saved); }
    }
  }
}
