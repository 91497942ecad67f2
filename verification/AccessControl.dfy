/** The access-control contract (contracts/access_control/src/lib.rs): the pause switch and
    the roles, an N-of-M multisig over them, and the governance of protocol parameters. */
module AccessControl {
  import opened Outcomes
  import opened Validation
  import Audit = AuditLog

  type Address = nat
  type Id = nat

  const U64_MAX: nat := 0xFFFF_FFFF_FFFF_FFFF
  const PROPOSAL_TTL: nat := 120_960
  const GOVERNANCE_TIMELOCK_DELAY: nat := 86_400

  /** An address without a role has no entry. */
  datatype Role = Admin | Operator | Verifier

  datatype AdminAction =
    | Pause | Unpause
    | GrantRole(target: Address, roleValue: u32) | RevokeRole(target: Address)
    | TransferAdmin(newAdmin: Address)

  datatype MultisigConfig = MultisigConfig(threshold: u32, signers: seq<Address>)

  datatype Proposal = Proposal(
    id: Id, action: AdminAction, proposer: Address, approvals: seq<Address>,
    executed: bool, createdAt: nat, expiresAt: nat)

  datatype ParameterKey = FeeBps | LatePenaltyBps | MaxRiskScore

  datatype ParameterProposal = ParameterProposal(
    id: Id, key: ParameterKey, newValue: u32, proposer: Address, approvals: seq<Address>,
    createdAt: nat, executed: bool)

  datatype Store = Store(
    admin: Address,
    paused: bool,
    roles: map<Address, Role>,
    multisig: Option<MultisigConfig>,
    nextId: Id,
    proposals: map<Id, Proposal>,
    nextParameterId: Id,
    parameterProposals: map<Id, ParameterProposal>,
    parameters: map<ParameterKey, u32>)

  function InitialStore(admin: Address): Store {
    Store(admin, false, map[admin := Admin], None, 1, map[], 1, map[], map[])
  }

  predicate InRange(key: ParameterKey, value: u32) {
    value <= if key.MaxRiskScore? then 100 else 10_000
  }

  // ── What each entry point does ─────────────────────────────────────────────

  ghost function SetPaused(s: Store, caller: Address, pause: bool): Result<Store> {
    if caller != s.admin then Err(NotAdmin)
    else if s.paused == pause then Err(if pause then AlreadyPaused else NotPaused)
    else Ok(s.(paused := pause))
  }

  /** Granting nothing, a request the source's `Role::None` can express, is refused. */
  ghost function Grant(s: Store, caller: Address, target: Address, role: Option<Role>): Result<Store> {
    if caller != s.admin then Err(NotAdmin)
    else if role == Some(Admin) || role == None || target == caller then Err(Unauthorized)
    else Ok(s.(roles := s.roles[target := role.value]))
  }

  ghost function Revoke(s: Store, caller: Address, target: Address): Result<Store> {
    if caller != s.admin then Err(NotAdmin)
    else if target !in s.roles then Err(RoleNotAssigned)
    else if s.roles[target] == Admin then Err(Unauthorized)
    else Ok(s.(roles := s.roles - {target}))
  }

  ghost function Transfer(self: Address, s: Store, caller: Address, newAdmin: Address): Result<Store> {
    if caller != s.admin then Err(NotAdmin)
    else if caller == newAdmin || newAdmin == self then Err(InvalidAddress)
    else if newAdmin in s.roles && s.roles[newAdmin] != Admin then Err(Unauthorized)
    else Ok(s.(admin := newAdmin, roles := s.roles[newAdmin := Admin] - {caller}))
  }

  ghost function Configure(s: Store, caller: Address, signers: seq<Address>, threshold: u32): Result<Store> {
    if caller != s.admin then Err(NotAdmin)
    else if threshold == 0 || threshold > |signers| then Err(InvalidThreshold)
    else Ok(s.(multisig := Some(MultisigConfig(threshold, signers))))
  }

  /** The multisig configuration, provided the caller is one of its signers. */
  ghost function AsSigner(s: Store, caller: Address): Result<MultisigConfig> {
    match s.multisig
    case None => Err(MultisigNotConfigured)
    case Some(config) => if caller in config.signers then Ok(config) else Err(SignerNotFound)
  }

  ghost function Propose(now: nat, s: Store, caller: Address, action: AdminAction): Result<Store> {
    var _ :- AsSigner(s, caller);
    if s.nextId == U64_MAX then Err(ArithmeticOverflow) else
    Ok(s.(nextId := s.nextId + 1,
          proposals := s.proposals[s.nextId := Proposal(s.nextId, action, caller, [caller], false, now,
              now + PROPOSAL_TTL)]))
  }

  ghost function Approve(now: nat, s: Store, caller: Address, id: Id): Result<Store> {
    var _ :- AsSigner(s, caller);
    if id !in s.proposals then Err(ProposalNotFound) else
    var p := s.proposals[id];
    if p.executed then Err(ProposalAlreadyExecuted)
    else if now > p.expiresAt then Err(ProposalExpired)
    else if caller in p.approvals then Err(AlreadyApproved)
    else Ok(s.(proposals := s.proposals[id := p.(approvals := p.approvals + [caller])]))
  }

  /** The change a multisig action stands for. */
  ghost function Perform(s: Store, action: AdminAction): Result<Store> {
    match action
    case Pause => Ok(s.(paused := true))
    case Unpause => Ok(s.(paused := false))
    case GrantRole(target, roleValue) =>
      if roleValue == 1 then Ok(s.(roles := s.roles[target := Operator]))
      else if roleValue == 2 then Ok(s.(roles := s.roles[target := Verifier]))
      else Err(Unauthorized)
    case RevokeRole(target) => Ok(s.(roles := s.roles - {target}))
    case TransferAdmin(newAdmin) => Ok(s.(admin := newAdmin, roles := s.roles[newAdmin := Admin]))
  }

  ghost function Execute(now: nat, s: Store, caller: Address, id: Id): Result<Store> {
    var config :- AsSigner(s, caller);
    if id !in s.proposals then Err(ProposalNotFound) else
    var p := s.proposals[id];
    if p.executed then Err(ProposalAlreadyExecuted)
    else if now > p.expiresAt then Err(ProposalExpired)
    else if |p.approvals| < config.threshold then Err(ThresholdNotMet)
    else Perform(s.(proposals := s.proposals[id := p.(executed := true)]), p.action)
  }

  ghost function ProposeParameter(now: nat, s: Store, caller: Address, key: ParameterKey, value: u32): Result<Store> {
    var _ :- AsSigner(s, caller);
    if !InRange(key, value) then Err(InvalidParameterValue)
    else if s.nextParameterId == U64_MAX then Err(ArithmeticOverflow)
    else Ok(s.(nextParameterId := s.nextParameterId + 1,
               parameterProposals := s.parameterProposals[s.nextParameterId :=
                 ParameterProposal(s.nextParameterId, key, value, caller, [caller], now, false)]))
  }

  ghost function Vote(s: Store, caller: Address, id: Id): Result<Store> {
    var _ :- AsSigner(s, caller);
    if id !in s.parameterProposals then Err(ParameterProposalNotFound) else
    var p := s.parameterProposals[id];
    if p.executed then Err(ParameterProposalExecuted)
    else if caller in p.approvals then Err(AlreadyVoted)
    else Ok(s.(parameterProposals := s.parameterProposals[id := p.(approvals := p.approvals + [caller])]))
  }

  ghost function ExecuteParameter(now: nat, s: Store, caller: Address, id: Id): Result<Store> {
    var config :- AsSigner(s, caller);
    if id !in s.parameterProposals then Err(ParameterProposalNotFound) else
    var p := s.parameterProposals[id];
    if p.executed then Err(ParameterProposalExecuted)
    else if |p.approvals| < config.threshold then Err(GovernanceThresholdNotMet)
    else if now < p.createdAt + GOVERNANCE_TIMELOCK_DELAY then Err(GovernanceTimelockNotElapsed)
    else Ok(s.(parameterProposals := s.parameterProposals[id := p.(executed := true)],
               parameters := s.parameters[p.key := p.newValue]))
  }

  // ── The contract ───────────────────────────────────────────────────────────

  class AccessControl {
    const self: Address
    const log: Audit.AuditLog

    var admin: Address
    var paused: bool
    var roles: map<Address, Role>
    var multisig: Option<MultisigConfig>
    var nextId: Id
    var proposals: map<Id, Proposal>
    var nextParameterId: Id
    var parameterProposals: map<Id, ParameterProposal>
    var parameters: map<ParameterKey, u32>

    constructor (self: Address, admin: Address)
      requires admin != self
      ensures this.self == self && Contents() == InitialStore(admin)
      ensures fresh(log) && log.Valid() && log.history == []
    {
      this.self, this.admin := self, admin;
      paused, roles, multisig := false, map[admin := Admin], None;
      nextId, proposals, nextParameterId, parameterProposals, parameters := 1, map[], 1, map[], map[];
      log := new Audit.AuditLog(Audit.FromAccessControl);
    }

    function Contents(): Store
      reads this
    {
      Store(admin, paused, roles, multisig, nextId, proposals, nextParameterId, parameterProposals, parameters)
    }

    method PauseOrUnpause(now: nat, caller: Address, pause: bool) returns (r: Status)
      requires log.Valid()
      modifies this, log
      ensures var spec := SetPaused(old(Contents()), caller, pause);
              r == StatusOf(spec) && Contents() == Commit(old(Contents()), spec)
      ensures log.Recorded(r.Done?, now, caller, if pause then Audit.Pause else Audit.Unpause)
    {
      if caller != admin { return Failed(NotAdmin); }
      if paused == pause { return Failed(if pause then AlreadyPaused else NotPaused); }
      paused := pause;
      log.Append(now, caller, if pause then Audit.Pause else Audit.Unpause);
      return Done;
    }

    method GrantTo(now: nat, caller: Address, target: Address, role: Option<Role>) returns (r: Status)
      requires log.Valid()
      modifies this, log
      ensures var spec := Grant(old(Contents()), caller, target, role);
              r == StatusOf(spec) && Contents() == Commit(old(Contents()), spec)
      ensures log.Recorded(r.Done?, now, caller, Audit.GrantRole)
    {
      if caller != admin { return Failed(NotAdmin); }
      if role == Some(Admin) { return Failed(Unauthorized); }
      if role == None { return Failed(Unauthorized); }
      if target == caller { return Failed(Unauthorized); }
      roles := roles[target := role.value];
      log.Append(now, caller, Audit.GrantRole);
      return Done;
    }

    method RevokeFrom(now: nat, caller: Address, target: Address) returns (r: Status)
      requires log.Valid()
      modifies this, log
      ensures var spec := Revoke(old(Contents()), caller, target);
              r == StatusOf(spec) && Contents() == Commit(old(Contents()), spec)
      ensures log.Recorded(r.Done?, now, caller, Audit.RevokeRole)
    {
      if caller != admin { return Failed(NotAdmin); }
      if target in roles && roles[target] == Admin { return Failed(Unauthorized); }
      if target !in roles { return Failed(RoleNotAssigned); }
      roles := roles - {target};
      log.Append(now, caller, Audit.RevokeRole);
      return Done;
    }

    method TransferTo(now: nat, caller: Address, newAdmin: Address) returns (r: Status)
      requires log.Valid()
      modifies this, log
      ensures var spec := Transfer(self, old(Contents()), caller, newAdmin);
              r == StatusOf(spec) && Contents() == Commit(old(Contents()), spec)
      ensures log.Recorded(r.Done?, now, caller, Audit.TransferAdmin)
    {
      if caller != admin { return Failed(NotAdmin); }
      if caller == newAdmin { return Failed(InvalidAddress); }
      if newAdmin == self { return Failed(InvalidAddress); }
      if newAdmin in roles && roles[newAdmin] != Admin { return Failed(Unauthorized); }
      admin := newAdmin;
      roles := roles[newAdmin := Admin];
      roles := roles - {caller};
      log.Append(now, caller, Audit.TransferAdmin);
      return Done;
    }

    method ConfigureMultisig(now: nat, caller: Address, signers: seq<Address>, threshold: u32) returns (r: Status)
      requires log.Valid()
      modifies this, log
      ensures var spec := Configure(old(Contents()), caller, signers, threshold);
              r == StatusOf(spec) && Contents() == Commit(old(Contents()), spec)
      ensures log.Recorded(r.Done?, now, caller, Audit.ConfigureMultisig)
    {
      if caller != admin { return Failed(NotAdmin); }
      if threshold == 0 || threshold > |signers| { return Failed(InvalidThreshold); }
      multisig := Some(MultisigConfig(threshold, signers));
      log.Append(now, caller, Audit.ConfigureMultisig);
      return Done;
    }

    /** Scans the signers for the caller. */
    method RequireSigner(caller: Address) returns (r: Status)
      ensures r == StatusOf(AsSigner(Contents(), caller))
    {
      if multisig.None? { return Failed(MultisigNotConfigured); }
      var signers := multisig.value.signers;
      for i := 0 to |signers|
        invariant caller !in signers[..i]
      {
        if signers[i] == caller { return Done; }
      }
      return Failed(SignerNotFound);
    }

    /** Scans the approvals for an earlier one by the same address. */
    method HasApproved(approvals: seq<Address>, caller: Address) returns (found: bool)
      ensures found <==> caller in approvals
    {
      for i := 0 to |approvals|
        invariant caller !in approvals[..i]
      {
        if approvals[i] == caller { return true; }
      }
      return false;
    }

    /** The proposal is stored before the id counter is known not to overflow. */
    method ProposeAction(now: nat, caller: Address, action: AdminAction) returns (r: Status, id: Id)
      modifies this
      ensures var spec := Propose(now, old(Contents()), caller, action);
              r == StatusOf(spec) && Contents() == Commit(old(Contents()), spec)
      ensures r.Done? ==> id == old(nextId)
    {
      id := nextId;
      r := RequireSigner(caller);
      if r.Failed? { return; }
      var saved := proposals;
      proposals := proposals[id := Proposal(id, action, caller, [caller], false, now, now + PROPOSAL_TTL)];
      if id == U64_MAX {
        proposals := saved;
        return Failed(ArithmeticOverflow), id;
      }
      nextId := id + 1;
    }

    method ApproveAction(now: nat, caller: Address, id: Id) returns (r: Status)
      modifies this
      ensures var spec := Approve(now, old(Contents()), caller, id);
              r == StatusOf(spec) && Contents() == Commit(old(Contents()), spec)
    {
      r := RequireSigner(caller);
      if r.Failed? { return; }
      if id !in proposals { return Failed(ProposalNotFound); }
      var p := proposals[id];
      if p.executed { return Failed(ProposalAlreadyExecuted); }
      if now > p.expiresAt { return Failed(ProposalExpired); }
      var found := HasApproved(p.approvals, caller);
      if found { return Failed(AlreadyApproved); }
      proposals := proposals[id := p.(approvals := p.approvals + [caller])];
      return Done;
    }

    /** Marks the proposal executed before it acts; an action that fails undoes the mark. */
    method ExecuteAction(now: nat, caller: Address, id: Id) returns (r: Status)
      requires log.Valid()
      modifies this, log
      ensures var spec := Execute(now, old(Contents()), caller, id);
              r == StatusOf(spec) && Contents() == Commit(old(Contents()), spec)
      ensures log.Recorded(r.Done?, now, caller, Audit.MultisigExecuteAction)
    {
      r := RequireSigner(caller);
      if r.Failed? { return; }
      if id !in proposals { return Failed(ProposalNotFound); }
      var p := proposals[id];
      if p.executed { return Failed(ProposalAlreadyExecuted); }
      if now > p.expiresAt { return Failed(ProposalExpired); }
      if |p.approvals| < multisig.value.threshold { return Failed(ThresholdNotMet); }
      var saved := proposals;
      proposals := proposals[id := p.(executed := true)];
      match p.action {
        case Pause => paused := true;
        case Unpause => paused := false;
        case GrantRole(target, roleValue) =>
          if roleValue != 1 && roleValue != 2 {
            proposals := saved;
            return Failed(Unauthorized);
          }
          roles := roles[target := if roleValue == 1 then Operator else Verifier];
        case RevokeRole(target) => roles := roles - {target};
        case TransferAdmin(newAdmin) =>
          admin := newAdmin;
          roles := roles[newAdmin := Admin];
      }
      log.Append(now, caller, Audit.MultisigExecuteAction);
      return Done;
    }

    method ProposeParameterChange(now: nat, caller: Address, key: ParameterKey, value: u32) returns (r: Status, id: Id)
      requires log.Valid()
      modifies this, log
      ensures var spec := ProposeParameter(now, old(Contents()), caller, key, value);
              r == StatusOf(spec) && Contents() == Commit(old(Contents()), spec)
      ensures r.Done? ==> id == old(nextParameterId)
      ensures log.Recorded(r.Done?, now, caller, Audit.ProposeParameter)
    {
      id := nextParameterId;
      r := RequireSigner(caller);
      if r.Failed? { return; }
      if !InRange(key, value) { return Failed(InvalidParameterValue), id; }
      var saved := parameterProposals;
      parameterProposals := parameterProposals[id := ParameterProposal(id, key, value, caller, [caller], now, false)];
      if id == U64_MAX {
        parameterProposals := saved;
        return Failed(ArithmeticOverflow), id;
      }
      nextParameterId := id + 1;
      log.Append(now, caller, Audit.ProposeParameter);
    }

    method VoteParameterChange(caller: Address, id: Id) returns (r: Status)
      modifies this
      ensures var spec := Vote(old(Contents()), caller, id);
              r == StatusOf(spec) && Contents() == Commit(old(Contents()), spec)
    {
      r := RequireSigner(caller);
      if r.Failed? { return; }
      if id !in parameterProposals { return Failed(ParameterProposalNotFound); }
      var p := parameterProposals[id];
      if p.executed { return Failed(ParameterProposalExecuted); }
      var found := HasApproved(p.approvals, caller);
      if found { return Failed(AlreadyVoted); }
      parameterProposals := parameterProposals[id := p.(approvals := p.approvals + [caller])];
      return Done;
    }

    method ExecuteParameterChange(now: nat, caller: Address, id: Id) returns (r: Status)
      requires log.Valid()
      modifies this, log
      ensures var spec := ExecuteParameter(now, old(Contents()), caller, id);
              r == StatusOf(spec) && Contents() == Commit(old(Contents()), spec)
      ensures log.Recorded(r.Done?, now, caller, Audit.ExecuteParameter)
    {
      r := RequireSigner(caller);
      if r.Failed? { return; }
      if id !in parameterProposals { return Failed(ParameterProposalNotFound); }
      var p := parameterProposals[id];
      if p.executed { return Failed(ParameterProposalExecuted); }
      if |p.approvals| < multisig.value.threshold { return Failed(GovernanceThresholdNotMet); }
      if now < p.createdAt + GOVERNANCE_TIMELOCK_DELAY { return Failed(GovernanceTimelockNotElapsed); }
      parameterProposals := parameterProposals[id := p.(executed := true)];
      parameters := parameters[p.key := p.newValue];
      log.Append(now, caller, Audit.ExecuteParameter);
      return Done;
    }
  }
}
