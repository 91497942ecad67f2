/** The treasury (contracts/treasury/src/lib.rs): fee custody, withdrawals limited per epoch,
    and a withdrawal cap changed through a timelock. */
module Treasury {
  import opened Outcomes
  import opened Validation
  import opened Records
  import Tokens = TokenLedger
  import Audit = AuditLog

  const EPOCH_DURATION: nat := 86_400
  const UPGRADE_TIMELOCK_DELAY: nat := 86_400

  datatype CapProposal = CapProposal(newCap: i128, proposedAt: nat)

  /** The treasury's own storage; a cap of 0 means uncapped. */
  datatype Store = Store(
    feeBps: u32,
    whitelist: set<Address>,
    collected: map<Address, i128>,
    cap: i128,
    proposal: Option<CapProposal>,
    epochStart: nat,
    epochWithdrawn: i128)

  /** The treasury's storage above the token balances. */
  datatype Vault = Vault(store: Store, tokens: Balances)

  function InitialStore(now: nat, feeBps: u32): Store {
    Store(feeBps, {}, map[], 0, None, now, 0)
  }

  // ── What each entry point does ─────────────────────────────────────────────

  ghost function SetFeeBps(cfg: Config, s: Store, caller: Address, bps: u32): Result<Store> {
    if caller != cfg.admin then Err(NotAdmin)
    else if bps > BPS then Err(InvalidFeeRate)
    else Ok(s.(feeBps := bps))
  }

  ghost function WhitelistToken(cfg: Config, s: Store, caller: Address, token: Address): Result<Store> {
    if caller != cfg.admin then Err(NotAdmin) else Ok(s.(whitelist := s.whitelist + {token}))
  }

  ghost function CollectFee(s: Store, token: Address, amount: i128): Result<Store> {
    if amount <= 0 then Err(InvalidAmount)
    else if token !in s.whitelist then Err(TokenNotWhitelisted)
    else
      var total :- Fit((if token in s.collected then s.collected[token] else 0) + amount);
      Ok(s.(collected := s.collected[token := total]))
  }

  /** Opens a fresh epoch if the running one has expired. */
  ghost function RollEpoch(now: nat, s: Store): Store {
    if now - s.epochStart >= EPOCH_DURATION then s.(epochStart := now, epochWithdrawn := 0) else s
  }

  /** The limiter: nothing to check or count while there is no cap; otherwise the epoch is
      rolled and its running total may not pass the cap. */
  ghost function Limit(now: nat, s: Store, amount: i128): Result<Store> {
    if s.cap == 0 then Ok(s) else
    var rolled := RollEpoch(now, s);
    var total :- Fit(rolled.epochWithdrawn + amount);
    if total > s.cap then Err(WithdrawalRateLimitExceeded) else Ok(rolled)
  }

  ghost function Withdraw(cfg: Config, now: nat, v: Vault, caller: Address, token: Address, recipient: Address,
                          amount: i128): Result<Vault>
  {
    if caller != cfg.admin then Err(NotAdmin)
    else if amount <= 0 || amount > MAX_AMOUNT then Err(InvalidAmount)
    else if token !in v.store.whitelist then Err(TokenNotWhitelisted)
    else
      var s :- Limit(now, v.store, amount);
      if Tokens.Balance(v.tokens, token, cfg.treasury) < amount then Err(InsufficientPoolBalance) else
      var tokens :- Tokens.Transfer(v.tokens, token, cfg.treasury, recipient, amount);
      Ok(Vault(
        s.(collected := if token in s.collected then s.collected[token := Saturate(s.collected[token] - amount)]
            else s.collected,
           epochWithdrawn := if s.cap == 0 then s.epochWithdrawn else Saturate(s.epochWithdrawn + amount)),
        tokens))
  }

  /** The drain: everything the treasury holds of a token, whatever the cap. */
  ghost function EmergencyWithdraw(cfg: Config, v: Vault, caller: Address, token: Address, recipient: Address)
    : Result<Vault>
  {
    if caller != cfg.admin then Err(NotAdmin)
    else if token !in v.store.whitelist then Err(TokenNotWhitelisted)
    else
      var held := Tokens.Balance(v.tokens, token, cfg.treasury);
      if held == 0 then Ok(v) else
      var tokens :- Tokens.Transfer(v.tokens, token, cfg.treasury, recipient, held);
      Ok(v.(tokens := tokens))
  }

  ghost function ProposeCap(cfg: Config, now: nat, s: Store, caller: Address, newCap: i128): Result<Store> {
    if caller != cfg.admin then Err(NotAdmin)
    else if newCap < 0 then Err(InvalidAmount)
    else Ok(s.(proposal := Some(CapProposal(newCap, now))))
  }

  ghost function ExecuteCap(cfg: Config, now: nat, s: Store, caller: Address): Result<Store> {
    if caller != cfg.admin then Err(NotAdmin)
    else match s.proposal
      case None => Err(NoCapChangeProposed)
      case Some(p) =>
        if now < p.proposedAt + UPGRADE_TIMELOCK_DELAY then Err(WithdrawalCapTimelockNotElapsed)
        else Ok(s.(cap := p.newCap, proposal := None))
  }

  ghost function OnStore(v: Vault, r: Result<Store>): Result<Vault> {
    var s :- r;
    Ok(v.(store := s))
  }

  // ── The contract ───────────────────────────────────────────────────────────

  class Treasury {
    const cfg: Config
    const bank: Tokens.TokenLedger
    const log: Audit.AuditLog

    var feeBps: u32
    var whitelist: set<Address>
    var collected: map<Address, i128>
    var cap: i128
    var proposal: Option<CapProposal>
    var epochStart: nat
    var epochWithdrawn: i128

    constructor (cfg: Config, bank: Tokens.TokenLedger, now: nat, feeBps: u32)
      requires feeBps <= BPS
      ensures this.cfg == cfg && this.bank == bank && fresh(log)
      ensures Contents() == Vault(InitialStore(now, feeBps), bank.balances)
      ensures log.Valid() && log.history == []
    {
      this.cfg, this.bank, this.feeBps := cfg, bank, feeBps;
      log := new Audit.AuditLog(Audit.FromTreasury);
      whitelist, collected, cap, proposal, epochStart, epochWithdrawn := {}, map[], 0, None, now, 0;
    }

    function Contents(): Vault
      reads this, bank
    {
      Vault(Store(feeBps, whitelist, collected, cap, proposal, epochStart, epochWithdrawn), bank.balances)
    }

    method SetFee(now: nat, caller: Address, bps: u32) returns (r: Status)
      requires log.Valid()
      modifies this, log
      ensures var spec := OnStore(old(Contents()), SetFeeBps(cfg, old(Contents()).store, caller, bps));
              r == StatusOf(spec) && Contents() == Commit(old(Contents()), spec)
      ensures log.Recorded(r.Done?, now, caller, Audit.SetFeeBps)
    {
      if caller != cfg.admin { return Failed(NotAdmin); }
      if bps > BPS { return Failed(InvalidFeeRate); }
      feeBps := bps;
      log.Append(now, caller, Audit.SetFeeBps);
      return Done;
    }

    method Whitelist(now: nat, caller: Address, token: Address) returns (r: Status)
      requires log.Valid()
      modifies this, log
      ensures var spec := OnStore(old(Contents()), WhitelistToken(cfg, old(Contents()).store, caller, token));
              r == StatusOf(spec) && Contents() == Commit(old(Contents()), spec)
      ensures log.Recorded(r.Done?, now, caller, Audit.WhitelistToken)
    {
      if caller != cfg.admin { return Failed(NotAdmin); }
      whitelist := whitelist + {token};
      log.Append(now, caller, Audit.WhitelistToken);
      return Done;
    }

    method Collect(token: Address, amount: i128) returns (r: Status)
      modifies this
      ensures var spec := OnStore(old(Contents()), CollectFee(old(Contents()).store, token, amount));
              r == StatusOf(spec) && Contents() == Commit(old(Contents()), spec)
    {
      if amount <= 0 { return Failed(InvalidAmount); }
      if token !in whitelist { return Failed(TokenNotWhitelisted); }
      var total := Fit((if token in collected then collected[token] else 0) + amount);
      if total.Err? { return Failed(total.error); }
      collected := collected[token := total.value];
      return Done;
    }

    /** Rolls the epoch over in storage before the cap is checked; the caller undoes it when
        the withdrawal fails. */
    method EnforceRateLimit(now: nat, amount: i128) returns (r: Status)
      modifies this`epochStart, this`epochWithdrawn
      ensures var spec := Limit(now, old(Contents()).store, amount);
              r == StatusOf(spec) && (r.Done? ==> Contents() == Vault(spec.value, old(Contents()).tokens))
    {
      if cap == 0 { return Done; }
      var withdrawn := epochWithdrawn;
      if now - epochStart >= EPOCH_DURATION {
        epochStart := now;
        epochWithdrawn := 0;
        withdrawn := 0;
      }
      var total := Fit(withdrawn + amount);
      if total.Err? { return Failed(total.error); }
      if total.value > cap { return Failed(WithdrawalRateLimitExceeded); }
      return Done;
    }

    method RecordWithdrawal(amount: i128)
      modifies this`epochWithdrawn
      ensures epochWithdrawn == if cap == 0 then old(epochWithdrawn) else Saturate(old(epochWithdrawn) + amount)
    {
      if cap == 0 { return; }
      epochWithdrawn := Saturate(epochWithdrawn + amount);
    }

    method WithdrawTo(now: nat, caller: Address, token: Address, recipient: Address, amount: i128) returns (r: Status)
      requires log.Valid()
      modifies this, bank, log
      ensures var spec := Withdraw(cfg, now, old(Contents()), caller, token, recipient, amount);
              r == StatusOf(spec) && Contents() == Commit(old(Contents()), spec)
      ensures log.Recorded(r.Done?, now, caller, Audit.Withdraw)
    {
      if caller != cfg.admin { return Failed(NotAdmin); }
      if amount <= 0 { return Failed(InvalidAmount); }
      if amount > MAX_AMOUNT { return Failed(InvalidAmount); }
      if token !in whitelist { return Failed(TokenNotWhitelisted); }
      var savedStart, savedWithdrawn := epochStart, epochWithdrawn;
      label invocation: {
        r := EnforceRateLimit(now, amount);
        if r.Failed? { break invocation; }
        if Tokens.Balance(bank.balances, token, cfg.treasury) < amount {
          r := Failed(InsufficientPoolBalance);
          break invocation;
        }
        if token in collected {
          collected := collected[token := Saturate(collected[token] - amount)];
        }
        RecordWithdrawal(amount);
        r := bank.Move(token, cfg.treasury, recipient, amount);
        log.Append(now, caller, Audit.Withdraw);
        return;
      }
      epochStart, epochWithdrawn := savedStart, savedWithdrawn;
    }

    method Drain(now: nat, caller: Address, token: Address, recipient: Address) returns (r: Status)
      requires log.Valid()
      modifies this, bank, log
      ensures var spec := EmergencyWithdraw(cfg, old(Contents()), caller, token, recipient);
              r == StatusOf(spec) && Contents() == Commit(old(Contents()), spec)
      ensures log.Recorded(r.Done?, now, caller, Audit.EmergencyWithdraw)
    {
      if caller != cfg.admin { return Failed(NotAdmin); }
      if token !in whitelist { return Failed(TokenNotWhitelisted); }
      var held := Tokens.Balance(bank.balances, token, cfg.treasury);
      r := Done;
      if held > 0 {
        r := bank.Move(token, cfg.treasury, recipient, held);
      }
      log.Append(now, caller, Audit.EmergencyWithdraw);
    }

    method ProposeWithdrawalCap(now: nat, caller: Address, newCap: i128) returns (r: Status)
      requires log.Valid()
      modifies this, log
      ensures var spec := OnStore(old(Contents()), ProposeCap(cfg, now, old(Contents()).store, caller, newCap));
              r == StatusOf(spec) && Contents() == Commit(old(Contents()), spec)
      ensures log.Recorded(r.Done?, now, caller, Audit.ProposeWithdrawalCap)
    {
      if caller != cfg.admin { return Failed(NotAdmin); }
      if newCap < 0 { return Failed(InvalidAmount); }
      proposal := Some(CapProposal(newCap, now));
      log.Append(now, caller, Audit.ProposeWithdrawalCap);
      return Done;
    }

    method ExecuteWithdrawalCap(now: nat, caller: Address) returns (r: Status)
      requires log.Valid()
      modifies this, log
      ensures var spec := OnStore(old(Contents()), ExecuteCap(cfg, now, old(Contents()).store, caller));
              r == StatusOf(spec) && Contents() == Commit(old(Contents()), spec)
      ensures log.Recorded(r.Done?, now, caller, Audit.ExecuteWithdrawalCap)
    {
      if caller != cfg.admin { return Failed(NotAdmin); }
      if proposal.None? { return Failed(NoCapChangeProposed); }
      if now < proposal.value.proposedAt + UPGRADE_TIMELOCK_DELAY { return Failed(WithdrawalCapTimelockNotElapsed); }
      cap := proposal.value.newCap;
      proposal := None;
      log.Append(now, caller, Audit.ExecuteWithdrawalCap);
      return Done;
    }
  }
}
