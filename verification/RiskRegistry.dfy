/** Verifier stakes in the risk registry (contracts/risk_registry/src/lib.rs): deposits,
    slashing on a default, and what the registry can always pay back. */
module RiskRegistry {
  import opened Outcomes
  import opened Validation
  import opened Records
  import opened Sums
  import Tokens = TokenLedger
  import Audit = AuditLog

  /** Fixed at initialization; neither the minimum stake nor the slash rate is validated. */
  datatype Setup = Setup(self: Address, stakingToken: Address, minimumStake: i128, slashBps: u32)

  datatype SmeProfile = SmeProfile(
    address: Address, verified: bool, verifier: Address, riskScore: u32, totalInvoices: u32,
    defaults: u32, registeredAt: nat, complianceAttested: bool, creditLimit: i128)

  datatype Store = Store(
    admin: Address,
    verifiers: set<Address>,
    stakes: map<Address, i128>,
    reputations: map<Address, u32>,
    profiles: map<Address, SmeProfile>)

  datatype Registry = Registry(store: Store, tokens: Balances)

  const U128_MAX: int := 0xFFFF_FFFF_FFFF_FFFF_FFFF_FFFF_FFFF_FFFF
  const U32_MAX: int := 0xFFFF_FFFF

  function InitialStore(admin: Address): Store {
    Store(admin, {}, map[], map[], map[])
  }

  function StakeOf(s: Store, verifier: Address): i128 {
    if verifier in s.stakes then s.stakes[verifier] else 0
  }

  // ── What each entry point does ─────────────────────────────────────────────

  ghost function AddVerifier(setup: Setup, r: Registry, caller: Address, verifier: Address, stake: i128)
    : Result<Registry>
  {
    var s := r.store;
    if caller != s.admin then Err(NotAdmin)
    else if verifier == setup.self then Err(InvalidAddress)
    else if stake < setup.minimumStake then Err(InsufficientFunds)
    else
      var tokens :- Tokens.Transfer(r.tokens, setup.stakingToken, verifier, setup.self, stake);
      Ok(Registry(
        s.(verifiers := s.verifiers + {verifier}, stakes := s.stakes[verifier := stake],
           reputations := s.reputations[verifier := 100]),
        tokens))
  }

  ghost function RemoveVerifier(setup: Setup, r: Registry, caller: Address, verifier: Address): Result<Registry> {
    var s, stake := r.store, StakeOf(r.store, verifier);
    if caller != s.admin then Err(NotAdmin)
    else if verifier !in s.verifiers then Err(NotVerifier)
    else
      var tokens :- if stake > 0 then Tokens.Transfer(r.tokens, setup.stakingToken, setup.self, verifier, stake)
          else Ok(r.tokens);
      Ok(Registry(
        s.(verifiers := s.verifiers - {verifier}, stakes := s.stakes - {verifier},
           reputations := s.reputations - {verifier}),
        tokens))
  }

  ghost function RegisterSme(now: nat, r: Registry, caller: Address, sme: Address, score: u32, attested: bool)
    : Result<Registry>
  {
    var s := r.store;
    if caller !in s.verifiers then Err(NotVerifier)
    else if score > 100 then Err(InvalidRiskScore)
    else if sme in s.profiles then Err(AlreadyInitialized)
    else Ok(r.(store := s.(profiles := s.profiles[sme :=
                SmeProfile(sme, true, caller, score, 0, 0, now, attested, 0)])))
  }

  /** The slashed share is computed in 128 unsigned bits, where the product traps when it does
      not fit, and cast back to a signed integer; `SlashIsExact` shows the cast never wraps. */
  function SlashOf(stake: i128, bps: u32): Result<i128>
    requires stake > 0
  {
    if stake * bps > U128_MAX then Err(HostTrap) else
    var slash := stake * bps / BPS;
    SlashWraps(stake, bps);
    Ok(if slash > I128_MAX then slash - 2 * (I128_MAX + 1) else slash)
  }

  /** The stake left after a slash. */
  function Slashed(stake: i128, bps: u32): Result<i128> {
    if stake <= 0 then Ok(stake) else
    var slash :- SlashOf(stake, bps);
    if I128_MIN <= stake - slash <= I128_MAX then Ok(stake - slash) else Err(ArithmeticUnderflow)
  }

  ghost function RecordDefault(r: Registry, caller: Address, sme: Address, slashBps: u32): Result<Registry> {
    var s := r.store;
    if caller != s.admin then Err(NotAdmin)
    else if sme !in s.profiles then Err(SMENotRegistered)
    else
      var profile := s.profiles[sme];
      if profile.defaults == U32_MAX then Err(ArithmeticOverflow) else
      var verifier, stake := profile.verifier, StakeOf(s, profile.verifier);
      var left :- Slashed(stake, slashBps);
      var reputation: u32 := if verifier in s.reputations then s.reputations[verifier] else 100;
      Ok(r.(store := s.(
        stakes := if stake > 0 then s.stakes[verifier := left] else s.stakes,
        reputations := s.reputations[verifier := if reputation < 10 then 0 else reputation - 10],
        profiles := s.profiles[sme := profile.(defaults := profile.defaults + 1)])))
  }

  lemma SlashWraps(stake: i128, bps: u32)
    requires stake > 0 && stake * bps <= U128_MAX
    ensures 0 <= stake * bps / BPS <= U128_MAX
  {
    MulMono(0, stake, bps);
    DivBounds(stake * bps, BPS);
  }

  // ── The contract ───────────────────────────────────────────────────────────

  class RiskRegistry {
    const setup: Setup
    const bank: Tokens.TokenLedger
    const log: Audit.AuditLog

    var admin: Address
    var verifiers: set<Address>
    var stakes: map<Address, i128>
    var reputations: map<Address, u32>
    var profiles: map<Address, SmeProfile>

    constructor (setup: Setup, bank: Tokens.TokenLedger, admin: Address)
      requires admin != setup.self
      ensures this.setup == setup && this.bank == bank
      ensures Contents() == Registry(InitialStore(admin), bank.balances)
      ensures fresh(log) && log.Valid() && log.history == []
    {
      this.setup, this.bank, this.admin := setup, bank, admin;
      verifiers, stakes, reputations, profiles := {}, map[], map[], map[];
      log := new Audit.AuditLog(Audit.FromRiskRegistry);
    }

    function Contents(): Registry
      reads this, bank
    {
      Registry(Store(admin, verifiers, stakes, reputations, profiles), bank.balances)
    }

    method Add(now: nat, caller: Address, verifier: Address, stake: i128) returns (r: Status)
      requires log.Valid()
      modifies this, bank, log
      ensures var spec := AddVerifier(setup, old(Contents()), caller, verifier, stake);
              r == StatusOf(spec) && Contents() == Commit(old(Contents()), spec)
      ensures log.Recorded(r.Done?, now, caller, Audit.AddVerifier)
    {
      if caller != admin { return Failed(NotAdmin); }
      if verifier == setup.self { return Failed(InvalidAddress); }
      if stake < setup.minimumStake { return Failed(InsufficientFunds); }
      r := bank.Move(setup.stakingToken, verifier, setup.self, stake);
      if r.Failed? { return; }
      verifiers := verifiers + {verifier};
      stakes := stakes[verifier := stake];
      reputations := reputations[verifier := 100];
      log.Append(now, caller, Audit.AddVerifier);
    }

    method Remove(now: nat, caller: Address, verifier: Address) returns (r: Status)
      requires log.Valid()
      modifies this, bank, log
      ensures var spec := RemoveVerifier(setup, old(Contents()), caller, verifier);
              r == StatusOf(spec) && Contents() == Commit(old(Contents()), spec)
      ensures log.Recorded(r.Done?, now, caller, Audit.RemoveVerifier)
    {
      if caller != admin { return Failed(NotAdmin); }
      if verifier !in verifiers { return Failed(NotVerifier); }
      var stake: i128 := if verifier in stakes then stakes[verifier] else 0;
      r := Done;
      if stake > 0 {
        r := bank.Move(setup.stakingToken, setup.self, verifier, stake);
        if r.Failed? { return; }
      }
      verifiers := verifiers - {verifier};
      stakes := stakes - {verifier};
      reputations := reputations - {verifier};
      log.Append(now, caller, Audit.RemoveVerifier);
    }

    method Register(now: nat, caller: Address, sme: Address, score: u32, attested: bool) returns (r: Status)
      modifies this
      ensures var spec := RegisterSme(now, old(Contents()), caller, sme, score, attested);
              r == StatusOf(spec) && Contents() == Commit(old(Contents()), spec)
    {
      if caller !in verifiers { return Failed(NotVerifier); }
      if score > 100 { return Failed(InvalidRiskScore); }
      if sme in profiles { return Failed(AlreadyInitialized); }
      profiles := profiles[sme := SmeProfile(sme, true, caller, score, 0, 0, now, attested, 0)];
      return Done;
    }

    method Default(now: nat, caller: Address, sme: Address) returns (r: Status)
      requires log.Valid()
      modifies this, log
      ensures var spec := RecordDefault(old(Contents()), caller, sme, setup.slashBps);
              r == StatusOf(spec) && Contents() == Commit(old(Contents()), spec)
      ensures log.Recorded(r.Done?, now, caller, Audit.RecordDefault)
    {
      if caller != admin { return Failed(NotAdmin); }
      if sme !in profiles { return Failed(SMENotRegistered); }
      var profile := profiles[sme];
      if profile.defaults == U32_MAX { return Failed(ArithmeticOverflow); }
      profile := profile.(defaults := profile.defaults + 1);
      var verifier := profile.verifier;
      var stake: i128 := if verifier in stakes then stakes[verifier] else 0;
      if stake > 0 {
        var left := Slashed(stake, setup.slashBps);
        if left.Err? { return Failed(left.error); }
        stakes := stakes[verifier := left.value];
      }
      var reputation: u32 := if verifier in reputations then reputations[verifier] else 100;
      reputations := reputations[verifier := if reputation < 10 then 0 else reputation - 10];
      profiles := profiles[sme := profile];
      log.Append(now, caller, Audit.RecordDefault);
      return Done;
    }
  }

  // ── Slashing ───────────────────────────────────────────────────────────────

  /** A slash fails only by trapping, exactly when the product leaves 128 bits. Otherwise it
      takes the floored share: neither the cast wraps nor the subtraction underflows, at any
      rate, although a rate above 10_000 bps can leave less than nothing. */
  lemma SlashIsExact(stake: i128, bps: u32)
    requires stake > 0
    ensures var left := Slashed(stake, bps);
            && (left.Ok? <==> stake * bps <= U128_MAX)
            && (left.Err? ==> left.error == HostTrap)
            && (left.Ok? ==> left.value == stake - stake * bps / BPS && left.value <= stake)
  {
    MulMono(0, stake, bps);
    DivBounds(stake * bps, BPS);
  }

  /** With a rate of at most 10_000 bps a slash takes its floored share, no more than the
      stake; it traps exactly when the product leaves 128 bits. */
  lemma FairSlash(stake: i128, bps: u32)
    requires stake > 0 && bps <= BPS
    ensures var left := Slashed(stake, bps);
            && (left.Ok? <==> stake * bps <= U128_MAX)
            && (left.Ok? ==> left.value == stake - stake * bps / BPS && 0 <= left.value <= stake)
  {
    MulMono(0, stake, bps);
    MulMono(bps, BPS, stake);
    assert bps * stake == stake * bps && BPS * stake == stake * BPS;
    var q := stake * bps / BPS;
    DivBounds(stake * bps, BPS);
    if q > stake { MulMono(stake + 1, q, BPS); }
  }

  /** The rate is not validated at initialization. A slash leaves every stake non-negative
      exactly when the rate is at most 10_000 bps. */
  lemma StakesStayNonNegativeExactly(bps: u32)
    ensures (forall stake: i128 | stake > 0 && Slashed(stake, bps).Ok? :: Slashed(stake, bps).value >= 0)
       <==> bps <= BPS
  {
    if bps <= BPS {
      forall stake: i128 | stake > 0 && Slashed(stake, bps).Ok?
        ensures Slashed(stake, bps).value >= 0
      {
        FairSlash(stake, bps);
      }
    } else {
      var stake: i128 := BPS;
      assert stake * bps / BPS == bps;
      assert Slashed(stake, bps) == Ok(stake - bps);
    }
  }

  // ── Runs ───────────────────────────────────────────────────────────────────

  datatype Action =
    | Adding(caller: Address, verifier: Address, stake: i128)
    | Removing(caller: Address, verifier: Address)
    | Registering(caller: Address, sme: Address, score: u32, attested: bool)
    | Defaulting(caller: Address, sme: Address)
    | Appointing(caller: Address, newAdmin: Address)
    /** The token contract, used by anyone but the registry. */
    | Paying(token: Address, from: Address, to: Address, amount: i128)
    | Issuing(token: Address, to: Address, minted: nat)

  datatype Call = Call(now: nat, action: Action)

  type Run = seq<Call>

  ghost function Apply(setup: Setup, now: nat, r: Registry, a: Action): Result<Registry> {
    match a
    case Adding(caller, verifier, stake) => AddVerifier(setup, r, caller, verifier, stake)
    case Removing(caller, verifier) => RemoveVerifier(setup, r, caller, verifier)
    case Registering(caller, sme, score, attested) => RegisterSme(now, r, caller, sme, score, attested)
    case Defaulting(caller, sme) => RecordDefault(r, caller, sme, setup.slashBps)
    case Appointing(caller, newAdmin) =>
      if caller != r.store.admin then Err(NotAdmin) else Ok(r.(store := r.store.(admin := newAdmin)))
    case Paying(token, from, to, amount) =>
      if from == setup.self then Err(Unauthorized) else
      var tokens :- Tokens.Transfer(r.tokens, token, from, to, amount);
      Ok(r.(tokens := tokens))
    case Issuing(token, to, minted) => Ok(r.(tokens := Tokens.Credit(r.tokens, token, to, minted)))
  }

  ghost function After(setup: Setup, r: Registry, run: Run): Registry {
    if run == [] then r else
    var last, before := run[|run| - 1], After(setup, r, run[..|run| - 1]);
    Commit(before, Apply(setup, last.now, before, last.action))
  }

  ghost function Held(setup: Setup, r: Registry): int {
    Tokens.Balance(r.tokens, setup.stakingToken, setup.self)
  }

  /** What a recorded stake can claim: nothing when it was slashed below zero. */
  function Claim(stake: i128): nat {
    if stake > 0 then stake else 0
  }

  ghost function Claims(s: Store): map<Address, int> {
    map v | v in s.stakes :: Claim(s.stakes[v])
  }

  /** What a call leaves in the registry without anybody's stake to show for it: slashes, a
      stake overwritten by adding its verifier again, and payments nobody asked for. */
  ghost function Stranded(setup: Setup, now: nat, r: Registry, a: Action): int {
    var result := Apply(setup, now, r, a);
    if result.Err? then 0 else
    match a
    case Adding(_, verifier, _) => Claim(StakeOf(r.store, verifier))
    case Defaulting(_, sme) =>
      var verifier := r.store.profiles[sme].verifier;
      Claim(StakeOf(r.store, verifier)) - Claim(StakeOf(result.value.store, verifier))
    case Paying(token, _, to, amount) => if token == setup.stakingToken && to == setup.self then amount else 0
    case Issuing(token, to, minted) => if token == setup.stakingToken && to == setup.self then minted else 0
    case _ => 0
  }

  ghost function StrandedIn(setup: Setup, r: Registry, run: Run): int {
    if run == [] then 0 else
    var last, before := run[|run| - 1], run[..|run| - 1];
    StrandedIn(setup, r, before) + Stranded(setup, last.now, After(setup, r, before), last.action)
  }

  /** Every stake belongs to a verifier, never to the registry itself. */
  ghost predicate Sound(setup: Setup, s: Store) {
    s.stakes.Keys == s.verifiers && setup.self !in s.verifiers
  }

  lemma ClaimSet(s: Store, s': Store, verifier: Address, stake: i128)
    requires s'.stakes == s.stakes[verifier := stake]
    ensures Sum(Claims(s')) == Sum(Claims(s)) - Claim(StakeOf(s, verifier)) + Claim(stake)
  {
    SumUpdate(Claims(s), verifier, Claim(stake));
    assert Claims(s') == Claims(s)[verifier := Claim(stake)];
  }

  lemma ClaimRemoved(s: Store, s': Store, verifier: Address)
    requires s'.stakes == s.stakes - {verifier}
    ensures Sum(Claims(s')) == Sum(Claims(s)) - Claim(StakeOf(s, verifier))
  {
    if verifier in s.stakes {
      SumWithout(Claims(s), verifier);
      assert Claims(s') == Claims(s) - {verifier};
    } else {
      assert s'.stakes == s.stakes;
    }
  }

  /** One call, at any slash rate: the balance and what the stakes can claim move together, up
      to what is stranded, and nothing stranded ever leaves. */
  lemma StakesConserved(setup: Setup, now: nat, r: Registry, a: Action)
    requires Sound(setup, r.store)
    ensures var r' := Commit(r, Apply(setup, now, r, a));
            && Sound(setup, r'.store) && Stranded(setup, now, r, a) >= 0
            && Held(setup, r') - Sum(Claims(r'.store))
                 == Held(setup, r) - Sum(Claims(r.store)) + Stranded(setup, now, r, a)
  {
    var s, r' := r.store, Commit(r, Apply(setup, now, r, a));
    if Apply(setup, now, r, a).Ok? {
      match a
      case Adding(_, verifier, stake) => ClaimSet(s, r'.store, verifier, stake);
      case Removing(_, verifier) => ClaimRemoved(s, r'.store, verifier);
      case Defaulting(_, sme) =>
        var verifier := s.profiles[sme].verifier;
        if StakeOf(s, verifier) > 0 {
          SlashIsExact(StakeOf(s, verifier), setup.slashBps);
          ClaimSet(s, r'.store, verifier, Slashed(StakeOf(s, verifier), setup.slashBps).value);
        }
      case _ =>
    }
  }

  /** The registry always holds what every recorded stake can claim, and exactly what was
      stranded on top of it, whatever the slash rate and the minimum stake. */
  lemma {:induction false} StakeSolvency(setup: Setup, admin: Address, tokens: Balances, run: Run)
    requires Tokens.Balance(tokens, setup.stakingToken, setup.self) == 0
    ensures var r := After(setup, Registry(InitialStore(admin), tokens), run);
            && Sound(setup, r.store)
            && Held(setup, r) == Sum(Claims(r.store)) + StrandedIn(setup, Registry(InitialStore(admin), tokens), run)
            && StrandedIn(setup, Registry(InitialStore(admin), tokens), run) >= 0
  {
    if run == [] {
      assert Claims(InitialStore(admin)) == map[];
    } else {
      var last, before := run[|run| - 1], run[..|run| - 1];
      StakeSolvency(setup, admin, tokens, before);
      StakesConserved(setup, last.now, After(setup, Registry(InitialStore(admin), tokens), before), last.action);
    }
  }

  /** So removing a verifier never fails for want of money, and pays the whole recorded stake,
      or nothing for one below zero. */
  lemma RemovalPaysInFull(setup: Setup, admin: Address, tokens: Balances, run: Run, verifier: Address)
    requires Tokens.Balance(tokens, setup.stakingToken, setup.self) == 0
    requires verifier in After(setup, Registry(InitialStore(admin), tokens), run).store.verifiers
    ensures var r := After(setup, Registry(InitialStore(admin), tokens), run);
            var removed := RemoveVerifier(setup, r, r.store.admin, verifier);
            && removed.Ok?
            && Tokens.Balance(removed.value.tokens, setup.stakingToken, verifier)
                 == Tokens.Balance(r.tokens, setup.stakingToken, verifier) + Claim(StakeOf(r.store, verifier))
  {
    var r := After(setup, Registry(InitialStore(admin), tokens), run);
    StakeSolvency(setup, admin, tokens, run);
    SumNonNegative(Claims(r.store));
    assert verifier in r.store.stakes && Claims(r.store)[verifier] == Claim(StakeOf(r.store, verifier));
  }

  ghost predicate NoneNegative(s: Store) {
    forall v | v in s.stakes :: s.stakes[v] >= 0
  }

  lemma NoneNegativeStep(setup: Setup, now: nat, r: Registry, a: Action)
    requires setup.slashBps <= BPS && NoneNegative(r.store)
    ensures NoneNegative(Commit(r, Apply(setup, now, r, a)).store)
  {
    if a.Defaulting? && Apply(setup, now, r, a).Ok? {
      var stake := StakeOf(r.store, r.store.profiles[a.sme].verifier);
      if stake > 0 { FairSlash(stake, setup.slashBps); }
    }
  }

  /** With a slash rate of at most 10_000 bps no recorded stake is ever negative, so what it
      can claim is the recorded stake itself. */
  lemma {:induction false} NoStakeNegative(setup: Setup, admin: Address, tokens: Balances, run: Run)
    requires setup.slashBps <= BPS
    ensures var s := After(setup, Registry(InitialStore(admin), tokens), run).store;
            NoneNegative(s) && Claims(s) == s.stakes
  {
    if run != [] {
      var last, before := run[|run| - 1], run[..|run| - 1];
      NoStakeNegative(setup, admin, tokens, before);
      NoneNegativeStep(setup, last.now, After(setup, Registry(InitialStore(admin), tokens), before), last.action);
    }
    var s := After(setup, Registry(InitialStore(admin), tokens), run).store;
    assert Claims(s).Keys == s.stakes.Keys;
  }
}
