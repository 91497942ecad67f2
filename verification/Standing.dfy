/** The standing of verifiers and SMEs in the risk registry over whole runs: when a call goes
    through, and what stakes, reputations and profiles the calls so far add up to. */
module Standing {
  import opened Outcomes
  import opened Records
  import opened RiskRegistry
  import Sums
  import Tokens = TokenLedger

  // ── When a call goes through ───────────────────────────────────────────────

  ghost predicate Admits(setup: Setup, r: Registry, a: Action) {
    var s := r.store;
    match a
    case Adding(caller, verifier, stake) =>
      && caller == s.admin && verifier != setup.self && setup.minimumStake <= stake
      && 0 <= stake <= Tokens.Balance(r.tokens, setup.stakingToken, verifier)
    case Removing(caller, verifier) => caller == s.admin && verifier in s.verifiers
    case Registering(caller, sme, score, _) => caller in s.verifiers && score <= 100 && sme !in s.profiles
    case Defaulting(caller, sme) =>
      && caller == s.admin && sme in s.profiles && s.profiles[sme].defaults < U32_MAX
      && (StakeOf(s, s.profiles[sme].verifier) > 0 ==>
            StakeOf(s, s.profiles[sme].verifier) * setup.slashBps <= U128_MAX)
    case Appointing(caller, _) => caller == s.admin
    case Paying(token, from, _, amount) => from != setup.self && 0 <= amount <= Tokens.Balance(r.tokens, token, from)
    case Issuing(_, _, _) => true
  }

  lemma StepCommitsExactly(setup: Setup, now: nat, r: Registry, a: Action)
    requires a.Removing? && a.verifier in r.store.verifiers ==>
               StakeOf(r.store, a.verifier) <= Held(setup, r)
    ensures Apply(setup, now, r, a).Ok? <==> Admits(setup, r, a)
  {
    if a.Defaulting? && a.sme in r.store.profiles && StakeOf(r.store, r.store.profiles[a.sme].verifier) > 0 {
      SlashIsExact(StakeOf(r.store, r.store.profiles[a.sme].verifier), setup.slashBps);
    }
  }

  /** After any run from initialization, whatever the slash rate, a call goes through exactly
      when `Admits` says so; no removal ever fails for want of money. */
  lemma CommitsExactly(setup: Setup, admin: Address, tokens: Balances, run: Run, now: nat, a: Action)
    requires Tokens.Balance(tokens, setup.stakingToken, setup.self) == 0
    ensures var r := After(setup, Registry(InitialStore(admin), tokens), run);
            Apply(setup, now, r, a).Ok? <==> Admits(setup, r, a)
  {
    var r := After(setup, Registry(InitialStore(admin), tokens), run);
    if a.Removing? && a.verifier in r.store.verifiers {
      StakeSolvency(setup, admin, tokens, run);
      Sums.SumNonNegative(Claims(r.store));
      assert Claims(r.store)[a.verifier] == Claim(StakeOf(r.store, a.verifier));
    }
    StepCommitsExactly(setup, now, r, a);
  }

  // ── Stakes and reputations ─────────────────────────────────────────────────

  /** A verifier's stake and reputation; each may be missing. */
  datatype Record = Record(stake: Option<int>, reputation: Option<int>)

  function RecordOf(s: Store, verifier: Address): Record {
    Record(if verifier in s.stakes then Some(s.stakes[verifier]) else None,
           if verifier in s.reputations then Some(s.reputations[verifier]) else None)
  }

  /** What a default of one of their SMEs makes of it: the slash rate's share of a positive
      stake is gone, and ten points of reputation, down to 0. */
  function Blamed(had: Record, slashBps: int): Record {
    var reputation := if had.reputation.Some? then had.reputation.value else 100;
    Record(
      if had.stake.Some? && had.stake.value > 0 then Some(had.stake.value - had.stake.value * slashBps / 10_000)
      else had.stake,
      Some(if reputation < 10 then 0 else reputation - 10))
  }

  ghost function RecordAfter(setup: Setup, r: Registry, a: Action, verifier: Address, had: Record): Record {
    match a
    case Adding(_, v, stake) => if v == verifier then Record(Some(stake), Some(100)) else had
    case Removing(_, v) => if v == verifier then Record(None, None) else had
    case Defaulting(_, sme) =>
      if sme in r.store.profiles && r.store.profiles[sme].verifier == verifier then Blamed(had, setup.slashBps)
      else had
    case _ => had
  }

  lemma RecordChanges(setup: Setup, now: nat, r: Registry, a: Action, verifier: Address)
    requires Apply(setup, now, r, a).Ok?
    ensures RecordOf(Apply(setup, now, r, a).value.store, verifier)
         == RecordAfter(setup, r, a, verifier, RecordOf(r.store, verifier))
  {
    if a.Defaulting? && StakeOf(r.store, r.store.profiles[a.sme].verifier) > 0 {
      SlashIsExact(StakeOf(r.store, r.store.profiles[a.sme].verifier), setup.slashBps);
    }
  }

  // ── Profiles ───────────────────────────────────────────────────────────────

  /** Registered once, by a verifier, with no default; after that only defaults are counted. */
  ghost function ProfileAfter(now: nat, a: Action, sme: Address, had: Option<SmeProfile>): Option<SmeProfile> {
    match a
    case Registering(caller, who, score, attested) =>
      if who == sme then Some(SmeProfile(sme, true, caller, score, 0, 0, now, attested, 0)) else had
    case Defaulting(_, who) =>
      if who == sme && had.Some? && had.value.defaults < U32_MAX
      then Some(had.value.(defaults := had.value.defaults + 1)) else had
    case _ => had
  }

  ghost function ProfileOf(s: Store, sme: Address): Option<SmeProfile> {
    if sme in s.profiles then Some(s.profiles[sme]) else None
  }

  lemma ProfileChanges(setup: Setup, now: nat, r: Registry, a: Action, sme: Address)
    requires Apply(setup, now, r, a).Ok?
    ensures ProfileOf(Apply(setup, now, r, a).value.store, sme) == ProfileAfter(now, a, sme, ProfileOf(r.store, sme))
  {
  }

  /** Who is the admin and a verifier after a call. */
  lemma OfficesChange(setup: Setup, now: nat, r: Registry, a: Action, who: Address)
    requires Apply(setup, now, r, a).Ok?
    ensures var s, s' := r.store, Apply(setup, now, r, a).value.store;
            && s'.admin == (if a.Appointing? then a.newAdmin else s.admin)
            && (who in s'.verifiers <==>
                  if a.Adding? && a.verifier == who then true
                  else if a.Removing? && a.verifier == who then false else who in s.verifiers)
  {
  }

  // ── Over runs ──────────────────────────────────────────────────────────────

  ghost function RecordMade(setup: Setup, r: Registry, run: Run, verifier: Address): Record {
    if run == [] then Record(None, None) else
    var last, before := run[|run| - 1], run[..|run| - 1];
    var w, had := After(setup, r, before), RecordMade(setup, r, before, verifier);
    if Admits(setup, w, last.action) then RecordAfter(setup, w, last.action, verifier, had) else had
  }

  ghost function ProfileMade(setup: Setup, r: Registry, run: Run, sme: Address): Option<SmeProfile> {
    if run == [] then None else
    var last, before := run[|run| - 1], run[..|run| - 1];
    var had := ProfileMade(setup, r, before, sme);
    if Admits(setup, After(setup, r, before), last.action) then ProfileAfter(last.now, last.action, sme, had) else had
  }

  /** How many defaults of the SME were recorded. */
  ghost function DefaultsIn(setup: Setup, r: Registry, run: Run, sme: Address): nat {
    if run == [] then 0 else
    var last, before := run[|run| - 1], run[..|run| - 1];
    DefaultsIn(setup, r, before, sme) +
    (if last.action.Defaulting? && last.action.sme == sme && Admits(setup, After(setup, r, before), last.action)
     then 1 else 0)
  }

  /** After every run each stake and reputation is what additions, removals and the defaults of
      the verifier's own SMEs made of it; each profile is as its verifier registered it, but
      for the defaults, and counts exactly those recorded. */
  lemma {:induction false} StandingAccounted(setup: Setup, admin: Address, tokens: Balances, run: Run,
                                             verifier: Address, sme: Address)
    requires Tokens.Balance(tokens, setup.stakingToken, setup.self) == 0
    ensures var r0 := Registry(InitialStore(admin), tokens);
            var s := After(setup, r0, run).store;
            && RecordOf(s, verifier) == RecordMade(setup, r0, run, verifier)
            && ProfileOf(s, sme) == ProfileMade(setup, r0, run, sme)
            && DefaultsIn(setup, r0, run, sme) == if sme in s.profiles then s.profiles[sme].defaults else 0
  {
    if run != [] {
      var last, before := run[|run| - 1], run[..|run| - 1];
      var w := After(setup, Registry(InitialStore(admin), tokens), before);
      StandingAccounted(setup, admin, tokens, before, verifier, sme);
      CommitsExactly(setup, admin, tokens, before, last.now, last.action);
      if Apply(setup, last.now, w, last.action).Ok? {
        RecordChanges(setup, last.now, w, last.action, verifier);
        ProfileChanges(setup, last.now, w, last.action, sme);
      }
    }
  }

  /** What a call brings the registry from its verifier, or pays them if negative. */
  ghost function PaidIn(r: Registry, a: Action): int {
    match a
    case Adding(_, _, stake) => stake
    case Removing(_, verifier) => 0 - Claim(StakeOf(r.store, verifier))
    case _ => 0
  }

  /** A stake is paid in by its verifier, and a removal pays its verifier; nothing else the
      registry does moves a token. */
  lemma StakesMove(setup: Setup, now: nat, r: Registry, a: Action, t: Address, h: Address)
    requires Apply(setup, now, r, a).Ok? && !a.Paying? && !a.Issuing?
    ensures var moved := PaidIn(r, a);
            Tokens.Balance(Apply(setup, now, r, a).value.tokens, t, h) == Tokens.Balance(r.tokens, t, h)
              + (if t == setup.stakingToken && h == setup.self then moved else 0)
              - (if t == setup.stakingToken && (a.Adding? || a.Removing?) && h == a.verifier then moved else 0)
  {
  }
}
