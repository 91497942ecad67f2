/** Settings over whole runs: each is what the latest call that could change it asked for. The
    fee a contribution is charged follows from them. */
module Settings {
  import opened Outcomes
  import opened Validation
  import opened BasisPoints
  import opened Records
  import opened TokenLedger
  import opened Protocol
  import opened Effects
  import opened Coupling
  import opened Lifecycle
  import opened Refunds

  // ── The latest call that set it ────────────────────────────────────────────

  /** The flat fee: what the admin set last, within range, or what it was initialized to. */
  ghost function FlatRate(cfg: Config, w0: World, run: Run): int {
    if run == [] then w0.market.feeBps else
    var last, earlier := run[|run| - 1].action, run[..|run| - 1];
    if last.SetFee? && last.caller == cfg.admin && last.bps <= 10_000 then last.bps else FlatRate(cfg, w0, earlier)
  }

  /** The fee of a tier, if the admin ever set one. */
  ghost function TierRate(cfg: Config, run: Run, tier: RiskTier): Option<int> {
    if run == [] then None else
    var last, earlier := run[|run| - 1].action, run[..|run| - 1];
    if last.SetTierFee? && last.tier == tier && last.caller == cfg.admin && last.bps <= 10_000 then Some(last.bps)
    else TierRate(cfg, earlier, tier)
  }

  ghost function RateInForce(cfg: Config, w0: World, run: Run, tier: RiskTier): int {
    match TierRate(cfg, run, tier)
    case Some(bps) => bps
    case None => FlatRate(cfg, w0, run)
  }

  /** The admin's latest word on the token was to add it. */
  ghost predicate Accepted(cfg: Config, run: Run, token: Address) {
    run != [] &&
    var last, earlier := run[|run| - 1].action, run[..|run| - 1];
    if last.Whitelist? && last.token == token && last.caller == cfg.admin then last.add
    else Accepted(cfg, earlier, token)
  }

  ghost function PositionLimit(cfg: Config, w0: World, run: Run): int {
    if run == [] then w0.core.pool.maxPositionBps else
    var last, earlier := run[|run| - 1].action, run[..|run| - 1];
    if last.SetMaxPosition? && last.caller == cfg.admin && 1 <= last.bps <= 10_000 then last.bps
    else PositionLimit(cfg, w0, earlier)
  }

  /** The admin's latest word on an invoice that existed was to freeze it. */
  ghost predicate FrozenNow(cfg: Config, w0: World, run: Run, id: Id) {
    run != [] &&
    var last, earlier := run[|run| - 1].action, run[..|run| - 1];
    if last.SetFrozen? && last.id == id && last.caller == cfg.admin
        && id in After(cfg, w0, earlier).core.nft.invoices then last.freeze
    else FrozenNow(cfg, w0, earlier, id)
  }

  /** Who asked to cancel a listing that had money in it, until the admin confirms it. */
  ghost function Requested(cfg: Config, w0: World, run: Run, id: Id): Option<Address> {
    if run == [] then None else
    var last, earlier := run[|run| - 1], run[..|run| - 1];
    var before := After(cfg, w0, earlier);
    if !Commits(cfg, last.env, before, last.action) then Requested(cfg, w0, earlier, id)
    else if last.action.RequestCancellation? && last.action.id == id && FundedOf(before, id) != 0 then
      Some(last.action.caller)
    else if last.action.ConfirmCancellation? && last.action.id == id then None
    else Requested(cfg, w0, earlier, id)
  }

  /** Who the seller named as referrer when listing. */
  ghost function Referred(cfg: Config, w0: World, run: Run, id: Id): Option<Address> {
    if run == [] then None else
    var last, earlier := run[|run| - 1], run[..|run| - 1];
    if last.action.List? && last.action.id == id && Commits(cfg, last.env, After(cfg, w0, earlier), last.action)
    then last.action.referrer else Referred(cfg, w0, earlier, id)
  }

  // ── What one call does to them ─────────────────────────────────────────────

  ghost predicate FeesStep(cfg: Config, m: MarketStore, m': MarketStore, a: Action) {
    && m'.feeBps == (if a.SetFee? && a.caller == cfg.admin && a.bps <= 10_000 then a.bps else m.feeBps)
    && m'.tierFeeBps == (if a.SetTierFee? && a.caller == cfg.admin && a.bps <= 10_000
        then m.tierFeeBps[a.tier := a.bps] else m.tierFeeBps)
    && (forall t :: t in m'.whitelist <==>
          if a.Whitelist? && a.token == t && a.caller == cfg.admin then a.add else t in m.whitelist)
  }

  ghost predicate GuardsStep(cfg: Config, c: Core, c': Core, a: Action) {
    && c'.pool.maxPositionBps == (if a.SetMaxPosition? && a.caller == cfg.admin && 1 <= a.bps <= 10_000
        then a.bps else c.pool.maxPositionBps)
    && (forall id :: id in c'.nft.frozen <==>
          if a.SetFrozen? && a.id == id && a.caller == cfg.admin && id in c.nft.invoices then a.freeze
          else id in c.nft.frozen)
  }

  ghost predicate RequestsStep(w: World, w': World, a: Action) {
    && w'.market.referrers == (if a.List? && a.referrer.Some? then w.market.referrers[a.id := a.referrer.value]
        else w.market.referrers)
    && w'.market.cancelRequests ==
      if a.RequestCancellation? && FundedOf(w, a.id) != 0 then w.market.cancelRequests[a.id := a.caller]
      else if a.ConfirmCancellation? then w.market.cancelRequests - {a.id} else w.market.cancelRequests
  }

  lemma SettersStep(cfg: Config, env: Env, w: World, a: Action)
    requires a.SetFee? || a.SetTierFee? || a.Whitelist? || a.SetMaxPosition? || a.SetFrozen?
    ensures FeesStep(cfg, w.market, Step(cfg, env, w, a).market, a)
    ensures GuardsStep(cfg, w.core, Step(cfg, env, w, a).core, a)
    ensures Commits(cfg, env, w, a) ==> RequestsStep(w, Step(cfg, env, w, a), a)
  {
  }

  lemma OthersStep(cfg: Config, env: Env, w: World, w': World, a: Action)
    requires Effect(cfg, env, w, w', a)
    requires !a.SetFee? && !a.SetTierFee? && !a.Whitelist? && !a.SetMaxPosition? && !a.SetFrozen?
    ensures FeesStep(cfg, w.market, w'.market, a) && GuardsStep(cfg, w.core, w'.core, a)
    ensures !Cancels(a) && !a.List? ==> RequestsStep(w, w', a)
  {
    if IsNft(a) {} else if IsPool(a) { PoolGuards(cfg, env, w.core, w'.core, a); }
    else { MarketFees(cfg, env, w, w', a); }
  }

  lemma PoolGuards(cfg: Config, env: Env, c: Core, c': Core, a: Action)
    requires IsPool(a) && !a.SetMaxPosition? && PoolEffect(cfg, env, c, c', a)
    ensures c'.nft.frozen == c.nft.frozen && c'.pool.maxPositionBps == c.pool.maxPositionBps
  {
  }

  lemma MarketFees(cfg: Config, env: Env, w: World, w': World, a: Action)
    requires !IsPool(a) && !IsNft(a) && !a.SetFee? && !a.SetTierFee? && !a.Whitelist? && Effect(cfg, env, w, w', a)
    ensures w'.market.feeBps == w.market.feeBps && w'.market.tierFeeBps == w.market.tierFeeBps
    ensures w'.market.whitelist == w.market.whitelist
    ensures w'.core.nft.frozen == w.core.nft.frozen && w'.core.pool.maxPositionBps == w.core.pool.maxPositionBps
    ensures !Cancels(a) ==> w'.market.cancelRequests == w.market.cancelRequests
    ensures !a.List? ==> w'.market.referrers == w.market.referrers
  {
  }

  lemma RequestsChange(cfg: Config, env: Env, w: World, a: Action)
    requires (Cancels(a) || a.List?) && Commits(cfg, env, w, a)
    ensures RequestsStep(w, Step(cfg, env, w, a), a)
  {
  }

  /** One call changes the settings exactly as it asks to, if its caller may. */
  lemma SettingsStep(cfg: Config, env: Env, w: World, a: Action)
    ensures FeesStep(cfg, w.market, Step(cfg, env, w, a).market, a)
    ensures GuardsStep(cfg, w.core, Step(cfg, env, w, a).core, a)
    ensures Commits(cfg, env, w, a) ==> RequestsStep(w, Step(cfg, env, w, a), a)
  {
    if a.SetFee? || a.SetTierFee? || a.Whitelist? || a.SetMaxPosition? || a.SetFrozen? {
      SettersStep(cfg, env, w, a);
    } else if Commits(cfg, env, w, a) {
      HasEffect(cfg, env, w, a);
      OthersStep(cfg, env, w, Step(cfg, env, w, a), a);
      if Cancels(a) || a.List? { RequestsChange(cfg, env, w, a); }
    }
  }

  // ── Over runs ──────────────────────────────────────────────────────────────

  /** After every run the fees, the accepted tokens, the position limit and the freezes are
      what the admin's latest call for each asked for. */
  lemma {:induction false} SettingsAreLatest(cfg: Config, w0: World, run: Run)
    requires Initial(w0)
    ensures var w := After(cfg, w0, run);
            && w.market.feeBps == FlatRate(cfg, w0, run)
            && (forall tier :: TierRate(cfg, run, tier) ==
                  if tier in w.market.tierFeeBps then Some(w.market.tierFeeBps[tier]) else None)
            && (forall token :: token in w.market.whitelist <==> Accepted(cfg, run, token))
            && w.core.pool.maxPositionBps == PositionLimit(cfg, w0, run)
            && (forall id :: id in w.core.nft.frozen <==> FrozenNow(cfg, w0, run, id))
  {
    if run != [] {
      var last, earlier := run[|run| - 1], run[..|run| - 1];
      SettingsAreLatest(cfg, w0, earlier);
      SettingsStep(cfg, last.env, After(cfg, w0, earlier), last.action);
    }
  }

  ghost function Entry(m: map<Id, Address>, id: Id): Option<Address> {
    if id in m then Some(m[id]) else None
  }

  lemma RequestChange(cfg: Config, env: Env, w: World, a: Action, id: Id)
    ensures Entry(Step(cfg, env, w, a).market.cancelRequests, id) ==
      if !Commits(cfg, env, w, a) then Entry(w.market.cancelRequests, id)
      else if a.RequestCancellation? && a.id == id && FundedOf(w, id) != 0 then Some(a.caller)
      else if a.ConfirmCancellation? && a.id == id then None
      else Entry(w.market.cancelRequests, id)
  {
    SettingsStep(cfg, env, w, a);
  }

  /** A cancellation waits for the admin exactly when it was requested with money in the
      listing and not confirmed since. */
  lemma {:induction false} RequestsAreLatest(cfg: Config, w0: World, run: Run, id: Id)
    requires Initial(w0)
    ensures Requested(cfg, w0, run, id) == Entry(After(cfg, w0, run).market.cancelRequests, id)
  {
    if run != [] {
      var last, earlier := run[|run| - 1], run[..|run| - 1];
      RequestsAreLatest(cfg, w0, earlier, id);
      RequestChange(cfg, last.env, After(cfg, w0, earlier), last.action, id);
    }
  }

  /** A cancellation that goes through shuts the listing at once, unless it is a request with
      money in the listing: that one leaves it open until the admin confirms it. */
  lemma CancellationTakesHold(cfg: Config, env: Env, w: World, a: Action)
    requires Cancels(a) && Commits(cfg, env, w, a)
    ensures a.id in w.market.listings && a.id in Step(cfg, env, w, a).market.listings
    ensures Step(cfg, env, w, a).market.listings[a.id].isActive <==> a.RequestCancellation? && FundedOf(w, a.id) != 0
    ensures forall id | id != a.id ::
              id in Step(cfg, env, w, a).market.cancelConfirmed <==> id in w.market.cancelConfirmed
    ensures a.id in Step(cfg, env, w, a).market.cancelConfirmed <==>
              a.id in w.market.cancelConfirmed || a.ConfirmCancellation?
  {
  }

  lemma ReferrerChange(cfg: Config, env: Env, w: World, a: Action, id: Id)
    requires id in w.market.referrers ==> id in w.market.listings
    ensures var m' := Step(cfg, env, w, a).market;
            && (id in m'.referrers ==> id in m'.listings)
            && Entry(m'.referrers, id) ==
                 if a.List? && a.id == id && Commits(cfg, env, w, a) then a.referrer else Entry(w.market.referrers, id)
  {
    SettingsStep(cfg, env, w, a);
    ListingsStay(cfg, env, w, a, id);
  }

  lemma ListingsStay(cfg: Config, env: Env, w: World, a: Action, id: Id)
    ensures id in w.market.listings ==> id in Step(cfg, env, w, a).market.listings
    ensures a.List? && a.id == id && Commits(cfg, env, w, a) ==>
              id !in w.market.listings && id in Step(cfg, env, w, a).market.listings
  {
    if Commits(cfg, env, w, a) { HasEffect(cfg, env, w, a); }
  }

  /** The referrer on record is the one the seller named when listing. */
  lemma {:induction false} ReferrersAsListed(cfg: Config, w0: World, run: Run, id: Id)
    requires Initial(w0)
    ensures var m := After(cfg, w0, run).market;
            Referred(cfg, w0, run, id) == Entry(m.referrers, id) && (id in m.referrers ==> id in m.listings)
  {
    if run != [] {
      var last, earlier := run[|run| - 1], run[..|run| - 1];
      ReferrersAsListed(cfg, w0, earlier, id);
      ReferrerChange(cfg, last.env, After(cfg, w0, earlier), last.action, id);
    }
  }

  // ── The fee of a contribution ──────────────────────────────────────────────

  /** The five risk tiers are bands of the score. */
  ghost predicate InBand(tier: RiskTier, score: int) {
    match tier
    case AAA => score <= 20
    case AA => 20 < score <= 40
    case A => 40 < score <= 60
    case B => 60 < score <= 80
    case C => 80 < score
  }

  ghost predicate AllInBand(n: NftStore) {
    forall id | id in n.invoices :: InBand(n.invoices[id].riskTier, n.invoices[id].terms.riskScore)
  }

  lemma BandsKept(cfg: Config, env: Env, w: World, w': World, a: Action)
    requires AllInBand(w.core.nft) && Effect(cfg, env, w, w', a)
    ensures AllInBand(w'.core.nft)
  {
    if IsNft(a) {} else if IsPool(a) { PoolBands(cfg, env, w.core, w'.core, a); }
    else { MarketBands(cfg, env, w, w', a); }
  }

  lemma PoolBands(cfg: Config, env: Env, c: Core, c': Core, a: Action)
    requires AllInBand(c.nft) && IsPool(a) && PoolEffect(cfg, env, c, c', a)
    ensures AllInBand(c'.nft)
  {
  }

  lemma MarketBands(cfg: Config, env: Env, w: World, w': World, a: Action)
    requires AllInBand(w.core.nft) && !IsNft(a) && !IsPool(a) && Effect(cfg, env, w, w', a)
    ensures AllInBand(w'.core.nft)
  {
  }

  /** In every reachable state the tier of an invoice is the band its score lies in. */
  lemma {:induction false} TiersAreBands(cfg: Config, w0: World, run: Run)
    requires Initial(w0)
    ensures AllInBand(After(cfg, w0, run).core.nft)
  {
    if run != [] {
      var last, earlier := run[|run| - 1], run[..|run| - 1];
      var before := After(cfg, w0, earlier);
      TiersAreBands(cfg, w0, earlier);
      if Commits(cfg, last.env, before, last.action) {
        HasEffect(cfg, last.env, before, last.action);
        BandsKept(cfg, last.env, before, Step(cfg, last.env, before, last.action), last.action);
      }
    }
  }

  /** What the holder of `token` gains in a call. */
  ghost function Gain(w: World, w': World, token: Address, holder: Address): int {
    Balance(w'.core.tokens, token, holder) - Balance(w.core.tokens, token, holder)
  }

  lemma FeeReaches(cfg: Config, env: Env, w: World, investor: Address, id: Id, amount: i128)
    requires cfg.Valid() && Coupled(w) && Commits(cfg, env, w, Fund(investor, id, amount))
    requires investor != cfg.pool && investor != cfg.treasury
    ensures id in w.market.listings && id in w.core.nft.invoices && w.market.listings[id].token in cfg.decimals
    ensures var w', token := Step(cfg, env, w, Fund(investor, id, amount)), w.market.listings[id].token;
            var tier, fee := w.core.nft.invoices[id].riskTier, Gain(w, w', token, cfg.treasury);
            var rate := if tier in w.market.tierFeeBps then w.market.tierFeeBps[tier] else w.market.feeBps;
            && 0 <= amount * rate / BPS - fee <= Slip(cfg.decimals[token])
            && Gain(w, w', token, cfg.pool) == amount - fee && Gain(w, w', token, investor) == -amount
  {
    ContributionMoves(cfg, env, w, investor, id, amount);
    var tier := w.core.nft.invoices[id].riskTier;
    NearPlainFee(amount, w.market.FeeFor(tier), cfg.decimals[w.market.listings[id].token]);
  }

  /** After any run, a contribution that goes through brings the treasury its amount at the
      rate set last for the band the invoice's score lies in, or at the flat rate set last if
      none was: exactly, rounded down, up to 7 decimals. The rest reaches the pool. */
  lemma FeesFollowRates(cfg: Config, w0: World, run: Run, env: Env, investor: Address, id: Id, amount: i128)
    requires cfg.Valid() && Initial(w0) && Commits(cfg, env, After(cfg, w0, run), Fund(investor, id, amount))
    requires investor != cfg.pool && investor != cfg.treasury
    ensures var w := After(cfg, w0, run);
            && id in w.market.listings && id in w.core.nft.invoices && w.market.listings[id].token in cfg.decimals
            && var w', token := Step(cfg, env, w, Fund(investor, id, amount)), w.market.listings[id].token;
            && var tier, fee := w.core.nft.invoices[id].riskTier, Gain(w, w', token, cfg.treasury);
            && InBand(tier, w.core.nft.invoices[id].terms.riskScore)
            && 0 <= amount * RateInForce(cfg, w0, run, tier) / BPS - fee <= Slip(cfg.decimals[token])
            && Gain(w, w', token, cfg.pool) == amount - fee && Gain(w, w', token, investor) == -amount
  {
    InitialCoupled(w0);
    RunKeeps(cfg, w0, run);
    SettingsAreLatest(cfg, w0, run);
    TiersAreBands(cfg, w0, run);
    FeeReaches(cfg, env, After(cfg, w0, run), investor, id, amount);
  }
}
