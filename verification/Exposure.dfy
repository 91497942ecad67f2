/** The credit limit of an SME: what `mint_invoice` compares with it over whole runs, and when
    that keeps the SME's live invoices within it. */
module Exposure {
  import opened Outcomes
  import opened Validation
  import opened Sums
  import opened Records
  import opened Protocol
  import opened Effects
  import opened Coupling
  import Nft = InvoiceNft

  // ── What an SME has outstanding, and what was given back ───────────────────

  /** The invoice still stands: it is neither withdrawn, repaid nor defaulted. */
  ghost predicate Live(s: NftStore, id: Id) {
    id in s.invoices && !s.invoices[id].status.Repaid? && !s.invoices[id].status.Defaulted?
  }

  ghost function LiveAmounts(s: NftStore, sme: Address): map<Id, int> {
    map id | id in s.invoices :: if Live(s, id) && s.invoices[id].sme == sme then s.invoices[id].terms.amount else 0
  }

  /** The sum of the SME's live invoices, which its credit limit is documented to bound. */
  ghost function LiveTotal(s: NftStore, sme: Address): int {
    Sum(LiveAmounts(s, sme))
  }

  /** The amounts of the SME's invoices that are live in the first state and not in the second. */
  ghost function Ended(s: NftStore, s': NftStore, sme: Address): map<Id, int> {
    map id | id in s.invoices ::
      if Live(s, id) && !Live(s', id) && s.invoices[id].sme == sme then s.invoices[id].terms.amount else 0
  }

  /** What the call, if it commits, gives back of the SME's invoices. */
  ghost function Gives(cfg: Config, env: Env, w: World, a: Action, sme: Address): int {
    if Commits(cfg, env, w, a) then Sum(Ended(w.core.nft, Step(cfg, env, w, a).core.nft, sme)) else 0
  }

  /** Everything the SME's invoices withdrawn, repaid or defaulted in a run amounted to. */
  ghost function GivenBack(cfg: Config, w: World, run: Run, sme: Address): int {
    if run == [] then 0 else
    var last, earlier := run[|run| - 1], run[..|run| - 1];
    GivenBack(cfg, w, earlier, sme) + Gives(cfg, last.env, After(cfg, w, earlier), last.action, sme)
  }

  ghost predicate AmountsPositive(s: NftStore) {
    forall id | id in s.invoices :: s.invoices[id].terms.amount > 0
  }

  lemma NoneEnded(s: NftStore, s': NftStore, sme: Address)
    requires forall id | Live(s, id) :: Live(s', id)
    ensures Sum(Ended(s, s', sme)) == 0
  {
    SumZero(Ended(s, s', sme));
  }

  lemma OneEnded(s: NftStore, s': NftStore, id: Id, sme: Address)
    requires Live(s, id) && !Live(s', id) && forall i | i != id && Live(s, i) :: Live(s', i)
    ensures Sum(Ended(s, s', sme)) == if s.invoices[id].sme == sme then s.invoices[id].terms.amount else 0
  {
    SumWithout(Ended(s, s', sme), id);
    SumZero(Ended(s, s', sme) - {id});
  }

  /** What a call does to the stored exposure: it gives back what ended, saturating. */
  ghost predicate GivesBack(s: NftStore, s': NftStore, sme: Address) {
    s'.Outstanding(sme) == Saturate(s.Outstanding(sme) - Sum(Ended(s, s', sme)))
  }

  lemma KeptExposure(s: NftStore, s': NftStore, sme: Address)
    requires s'.exposure == s.exposure && forall id | Live(s, id) :: Live(s', id)
    ensures GivesBack(s, s', sme)
  {
    NoneEnded(s, s', sme);
  }

  lemma ReleasedExposure(s: NftStore, s': NftStore, id: Id, sme: Address)
    requires Live(s, id) && !Live(s', id) && (forall i | i != id && Live(s, i) :: Live(s', i))
    requires s'.exposure == s.Released(s.invoices[id]).exposure
    ensures GivesBack(s, s', sme)
  {
    OneEnded(s, s', id, sme);
  }

  lemma NftGivesBack(cfg: Config, env: Env, n: NftStore, n': NftStore, a: Action, sme: Address)
    requires IsNft(a) && NftEffect(cfg, env, n, n', a)
    ensures GivesBack(n, n', sme)
  {
    if a.Withdraw? || a.SetDefaulted? { ReleasedExposure(n, n', a.id, sme); } else { KeptExposure(n, n', sme); }
  }

  lemma PoolGivesBack(cfg: Config, env: Env, c: Core, c': Core, a: Action, sme: Address)
    requires IsPool(a) && PoolEffect(cfg, env, c, c', a)
    ensures GivesBack(c.nft, c'.nft, sme)
  {
    if a.MarkDefault? || ((a.Repay? || a.AcceptBuyout?) && Distributes(env, c, a)) {
      ReleasedExposure(c.nft, c'.nft, a.id, sme);
    } else {
      KeptExposure(c.nft, c'.nft, sme);
    }
  }

  lemma MarketGivesBack(cfg: Config, env: Env, w: World, w': World, a: Action, sme: Address)
    requires !IsNft(a) && !IsPool(a) && Effect(cfg, env, w, w', a)
    ensures GivesBack(w.core.nft, w'.core.nft, sme)
  {
    KeptExposure(w.core.nft, w'.core.nft, sme);
  }

  lemma EffectGivesBack(cfg: Config, env: Env, w: World, w': World, a: Action, sme: Address)
    requires Effect(cfg, env, w, w', a)
    ensures GivesBack(w.core.nft, w'.core.nft, sme)
  {
    if IsNft(a) { NftGivesBack(cfg, env, w.core.nft, w'.core.nft, a, sme); }
    else if IsPool(a) { PoolGivesBack(cfg, env, w.core, w'.core, a, sme); }
    else { MarketGivesBack(cfg, env, w, w', a, sme); }
  }

  lemma AmountsStayPositive(cfg: Config, env: Env, w: World, w': World, a: Action)
    requires AmountsPositive(w.core.nft) && Effect(cfg, env, w, w', a)
    ensures AmountsPositive(w'.core.nft)
  {
    if IsNft(a) { NftAmounts(cfg, env, w.core.nft, w'.core.nft, a); }
    else if IsPool(a) { PoolAmounts(cfg, env, w.core, w'.core, a); }
    else { MarketAmounts(cfg, env, w, w', a); }
  }

  lemma NftAmounts(cfg: Config, env: Env, n: NftStore, n': NftStore, a: Action)
    requires AmountsPositive(n) && IsNft(a) && NftEffect(cfg, env, n, n', a)
    ensures AmountsPositive(n')
  {
  }

  lemma MarketAmounts(cfg: Config, env: Env, w: World, w': World, a: Action)
    requires AmountsPositive(w.core.nft) && !IsNft(a) && !IsPool(a) && Effect(cfg, env, w, w', a)
    ensures AmountsPositive(w'.core.nft)
  {
  }

  lemma PoolAmounts(cfg: Config, env: Env, c: Core, c': Core, a: Action)
    requires AmountsPositive(c.nft) && IsPool(a) && PoolEffect(cfg, env, c, c', a)
    ensures AmountsPositive(c'.nft)
  {
  }

  /** The stored exposure is minus `given`, clamped. */
  ghost predicate Stands(s: NftStore, sme: Address, given: int) {
    AmountsPositive(s) && given >= 0 && s.Outstanding(sme) == Saturate(-given)
  }

  lemma StepGivesBack(cfg: Config, env: Env, w: World, a: Action, sme: Address, given: int)
    requires Stands(w.core.nft, sme, given)
    ensures Stands(Step(cfg, env, w, a).core.nft, sme, given + Gives(cfg, env, w, a, sme))
  {
    if Commits(cfg, env, w, a) {
      var w' := Step(cfg, env, w, a);
      HasEffect(cfg, env, w, a);
      AmountsStayPositive(cfg, env, w, w', a);
      EffectGivesBack(cfg, env, w, w', a, sme);
      SumNonNegative(Ended(w.core.nft, w'.core.nft, sme));
    }
  }

  /** Over every run the stored exposure is exactly minus what was given back, clamped to the
      integer range: minting reads it and never adds to it. So it is never positive. */
  lemma {:induction false} ExposureIsGivenBack(cfg: Config, w0: World, run: Run, sme: Address)
    requires Initial(w0)
    ensures Stands(After(cfg, w0, run).core.nft, sme, GivenBack(cfg, w0, run, sme))
    ensures After(cfg, w0, run).core.nft.Outstanding(sme) <= 0
  {
    if run != [] {
      var last, earlier := run[|run| - 1], run[..|run| - 1];
      ExposureIsGivenBack(cfg, w0, earlier, sme);
      StepGivesBack(cfg, last.env, After(cfg, w0, earlier), last.action, sme, GivenBack(cfg, w0, earlier, sme));
    }
  }

  // ── What the guard refuses, and what it should refuse ──────────────────────

  lemma RefusedWith(env: Env, s: NftStore, sme: Address, terms: InvoiceTerms, currency: Symbol,
                    notes: Option<string>, given: int)
    requires Stands(s, sme, given) && Nft.MintCheck(env, terms).Ok? && env.CreditLimit(sme) > 0
    ensures Nft.Mint(env, s, sme, terms, currency, notes) == Err(CreditLimitExceeded) <==>
              terms.amount > env.CreditLimit(sme) + given
  {
  }

  /** In every reachable state a mint that passes the other checks is refused for the limit
      exactly when its amount exceeds the limit by more than everything given back so far,
      whatever is live. */
  lemma RefusedForLimitExactly(cfg: Config, w0: World, run: Run, env: Env, sme: Address, terms: InvoiceTerms,
                               currency: Symbol, notes: Option<string>)
    requires Initial(w0) && Nft.MintCheck(env, terms).Ok? && env.CreditLimit(sme) > 0
    ensures Nft.Mint(env, After(cfg, w0, run).core.nft, sme, terms, currency, notes) == Err(CreditLimitExceeded) <==>
              terms.amount > env.CreditLimit(sme) + GivenBack(cfg, w0, run, sme)
  {
    ExposureIsGivenBack(cfg, w0, run, sme);
    RefusedWith(env, After(cfg, w0, run).core.nft, sme, terms, currency, notes, GivenBack(cfg, w0, run, sme));
  }

  /** Every mint that the guard lets through leaves the SME's live invoices within the limit. */
  ghost predicate GuardSuffices(env: Env, s: NftStore, sme: Address) {
    forall amount: i128 | amount > 0 && Nft.LimitCheck(env, s, sme, amount).Ok? ::
      LiveTotal(s, sme) + amount <= env.CreditLimit(sme)
  }

  lemma SufficesWith(env: Env, s: NftStore, sme: Address, given: int)
    requires Stands(s, sme, given) && env.CreditLimit(sme) > 0
    ensures GuardSuffices(env, s, sme) <==>
              LiveTotal(s, sme) == 0 && (given == 0 || env.CreditLimit(sme) == I128_MAX)
  {
    SumNonNegative(LiveAmounts(s, sme));
    var room := env.CreditLimit(sme) - s.Outstanding(sme);
    var amount: i128 := if room <= I128_MAX then room else I128_MAX;
    assert Nft.LimitCheck(env, s, sme, amount).Ok?;
  }

  /** The guard keeps the SME's live invoices within the limit, whatever is minted next,
      exactly when none is live and none ever ended; with the largest limit there is, it is
      enough that none is live. */
  lemma GuardKeepsLimitExactly(cfg: Config, w0: World, run: Run, env: Env, sme: Address)
    requires Initial(w0) && env.CreditLimit(sme) > 0
    ensures var s := After(cfg, w0, run).core.nft;
            GuardSuffices(env, s, sme) <==>
              LiveTotal(s, sme) == 0 && (GivenBack(cfg, w0, run, sme) == 0 || env.CreditLimit(sme) == I128_MAX)
  {
    ExposureIsGivenBack(cfg, w0, run, sme);
    SufficesWith(env, After(cfg, w0, run).core.nft, sme, GivenBack(cfg, w0, run, sme));
  }

  lemma LiveSet(s: NftStore, s': NftStore, id: Id, sme: Address)
    requires id in s'.invoices && s'.invoices == s.invoices[id := s'.invoices[id]]
    ensures LiveTotal(s', sme) == LiveTotal(s, sme) - (if id in s.invoices then LiveAmounts(s, sme)[id] else 0)
          + LiveAmounts(s', sme)[id]
  {
    SumUpdate(LiveAmounts(s, sme), id, LiveAmounts(s', sme)[id]);
    assert LiveAmounts(s', sme) == LiveAmounts(s, sme)[id := LiveAmounts(s', sme)[id]];
  }

  /** A committed mint leaves the SME's live invoices within a limit exactly when its amount
      is within what the live ones leave of it. */
  lemma MintKeepsLimitExactly(cfg: Config, env: Env, w: World, a: Action, limit: int)
    requires Coupled(w) && a.Mint? && Commits(cfg, env, w, a)
    ensures var s, s' := w.core.nft, Step(cfg, env, w, a).core.nft;
            LiveTotal(s', a.sme) <= limit <==> a.terms.amount <= limit - LiveTotal(s, a.sme)
  {
    HasEffect(cfg, env, w, a);
    assert CoupledAt(w, w.core.nft.nextId);
    LiveSet(w.core.nft, Step(cfg, env, w, a).core.nft, w.core.nft.nextId, a.sme);
  }

  /** A committed amendment, which no limit is checked for, does so exactly when the new amount
      is within what the other live invoices leave of it. */
  lemma AmendKeepsLimitExactly(cfg: Config, env: Env, w: World, a: Action, limit: int)
    requires a.Amend? && Commits(cfg, env, w, a)
    ensures a.id in w.core.nft.invoices
    ensures var s, s' := w.core.nft, Step(cfg, env, w, a).core.nft;
            LiveTotal(s', a.sme) <= limit <==>
              a.terms.amount <= limit - (LiveTotal(s, a.sme) - s.invoices[a.id].terms.amount)
  {
    HasEffect(cfg, env, w, a);
    LiveSet(w.core.nft, Step(cfg, env, w, a).core.nft, a.id, a.sme);
  }
}
