/** The listing, the pool and the invoice of one id stay coupled in every reachable state. */
module Coupling {
  import opened Validation
  import opened Records
  import opened Protocol
  import opened Effects

  ghost predicate PoolStatus(s: InvoiceStatus) {
    s == Funded || s == Repaid || s == Defaulted
  }

  ghost predicate ListingFits(l: Listing, invoice: Invoice) {
    && 0 < l.askingPrice < l.faceValue <= MAX_AMOUNT
    && 0 <= l.fundedAmount <= l.askingPrice
    && l.faceValue == invoice.terms.amount
    && (l.fundedAmount < l.askingPrice <==> invoice.status == Listed)
    && (l.isActive ==> l.fundedAmount < l.askingPrice)
  }

  ghost predicate PoolFits(p: Pool, l: Listing, invoice: Invoice) {
    && p.faceValue == invoice.terms.amount
    && p.token == l.token
    && p.totalFunded == 0
    && (p.isClosed <==> invoice.status == Repaid)
  }

  ghost predicate CoupledAt(w: World, id: Id) {
    var inv, ls, ps := w.core.nft.invoices, w.market.listings, w.core.pool.pools;
    && (id in inv ==> inv[id].id == id && id < w.core.nft.nextId)
    && (id in ls <==> id in inv && inv[id].status != Created)
    && (id in ps <==> id in inv && PoolStatus(inv[id].status))
    && (id in ls ==> ListingFits(ls[id], inv[id]))
    && (id in ps ==> PoolFits(ps[id], ls[id], inv[id]))
    && (id in w.core.pool.buyouts ==> id in ps && w.core.pool.buyouts[id].amount > 0)
    && (id in w.core.pool.positions ==> id in ps)
  }

  ghost predicate Coupled(w: World) {
    && (forall id: Id :: CoupledAt(w, id))
    && w.core.pool.locks == {}
    && w.market.feeBps <= BPS
    && (forall tier | tier in w.market.tierFeeBps :: w.market.tierFeeBps[tier] <= BPS)
  }

  // ── Every effect keeps it ──────────────────────────────────────────────────

  lemma NftKeeps(cfg: Config, env: Env, w: World, w': World, a: Action)
    requires Coupled(w) && Effect(cfg, env, w, w', a) && IsNft(a)
    ensures Coupled(w')
  {
    assert CoupledAt(w, w.core.nft.nextId);
    forall i: Id
      ensures CoupledAt(w', i)
    {
      assert CoupledAt(w, i);
    }
  }

  lemma MarketKeeps(cfg: Config, env: Env, w: World, w': World, a: Action)
    requires Coupled(w) && Effect(cfg, env, w, w', a) && !IsNft(a) && !IsPool(a)
    ensures Coupled(w')
  {
    if a.Fund? { FundKeeps(cfg, env, w, w', a); }
    else if a.List? { ListKeeps(cfg, env, w, w', a); }
    else if Cancels(a) { CancellationKeeps(cfg, env, w, w', a); }
    else { RecordsUntouched(cfg, env, w, w', a); }
  }

  lemma FundKeeps(cfg: Config, env: Env, w: World, w': World, a: Action)
    requires Coupled(w) && Effect(cfg, env, w, w', a) && a.Fund?
    ensures Coupled(w')
  {
    forall i: Id
      ensures CoupledAt(w', i)
    {
      assert CoupledAt(w, i);
    }
  }

  lemma ListKeeps(cfg: Config, env: Env, w: World, w': World, a: Action)
    requires Coupled(w) && Effect(cfg, env, w, w', a) && a.List?
    ensures Coupled(w')
  {
    forall i: Id
      ensures CoupledAt(w', i)
    {
      assert CoupledAt(w, i);
    }
  }

  lemma CancellationKeeps(cfg: Config, env: Env, w: World, w': World, a: Action)
    requires Coupled(w) && Effect(cfg, env, w, w', a) && Cancels(a)
    ensures Coupled(w')
  {
    forall i: Id
      ensures CoupledAt(w', i)
    {
      assert CoupledAt(w, i);
    }
  }

  /** Fees, the whitelist, refunds and token transfers touch none of the three records. */
  lemma RecordsUntouched(cfg: Config, env: Env, w: World, w': World, a: Action)
    requires Coupled(w) && Effect(cfg, env, w, w', a)
    requires a.SetFee? || a.SetTierFee? || a.Whitelist? || a.ClaimRefund? || a.TokenTransfer? || a.TokenMint?
    ensures Coupled(w')
  {
    assert w'.market.listings == w.market.listings && w'.core.nft == w.core.nft && w'.core.pool == w.core.pool;
    forall i: Id
      ensures CoupledAt(w', i)
    {
      assert CoupledAt(w, i);
    }
  }

  lemma RepayKeeps(cfg: Config, env: Env, w: World, w': World, a: Action)
    requires Coupled(w) && Effect(cfg, env, w, w', a) && a.Repay?
    ensures Coupled(w')
  {
    forall i: Id
      ensures CoupledAt(w', i)
    {
      assert CoupledAt(w, i);
    }
  }

  lemma AcceptKeeps(cfg: Config, env: Env, w: World, w': World, a: Action)
    requires Coupled(w) && Effect(cfg, env, w, w', a) && a.AcceptBuyout?
    ensures Coupled(w')
  {
    forall i: Id
      ensures CoupledAt(w', i)
    {
      assert CoupledAt(w, i);
    }
  }

  lemma PoolKeeps(cfg: Config, env: Env, w: World, w': World, a: Action)
    requires Coupled(w) && Effect(cfg, env, w, w', a) && IsPool(a) && !a.Repay? && !a.AcceptBuyout?
    ensures Coupled(w')
  {
    forall i: Id
      ensures CoupledAt(w', i)
    {
      assert CoupledAt(w, i);
    }
  }

  lemma StepKeeps(cfg: Config, env: Env, w: World, a: Action)
    requires Coupled(w)
    ensures Coupled(Step(cfg, env, w, a))
  {
    if Commits(cfg, env, w, a) {
      HasEffect(cfg, env, w, a);
      EffectKeeps(cfg, env, w, Step(cfg, env, w, a), a);
    }
  }

  lemma EffectKeeps(cfg: Config, env: Env, w: World, w': World, a: Action)
    requires Coupled(w) && Effect(cfg, env, w, w', a)
    ensures Coupled(w')
  {
    if IsNft(a) { NftKeeps(cfg, env, w, w', a); }
    else if a.Repay? { RepayKeeps(cfg, env, w, w', a); }
    else if a.AcceptBuyout? { AcceptKeeps(cfg, env, w, w', a); }
    else if IsPool(a) { PoolKeeps(cfg, env, w, w', a); }
    else { MarketKeeps(cfg, env, w, w', a); }
  }

  lemma {:induction false} RunKeeps(cfg: Config, w: World, run: Run)
    requires Coupled(w)
    ensures Coupled(After(cfg, w, run))
  {
    if run != [] {
      var last := run[|run| - 1];
      RunKeeps(cfg, w, run[..|run| - 1]);
      StepKeeps(cfg, last.env, After(cfg, w, run[..|run| - 1]), last.action);
    }
  }
}
