/** Who holds which power in access_control over whole runs: when a call goes through, what an
    executed proposal does, and that the pause switch, the admin, the roles and the multisig
    are what the calls so far made of them. */
module Authority {
  import opened Outcomes
  import opened AccessControl
  import opened Governance

  // ── When a call goes through ───────────────────────────────────────────────

  ghost predicate Pending(s: Store, id: Id, now: nat) {
    id in s.proposals && !s.proposals[id].executed && now <= s.proposals[id].expiresAt
  }

  ghost predicate Admits(self: Address, now: nat, s: Store, a: Action) {
    match a
    case Pausing(caller, pause) => caller == s.admin && s.paused != pause
    case Granting(caller, target, role) =>
      caller == s.admin && role.Some? && role.value != Admin && target != caller
    case Revoking(caller, target) => caller == s.admin && target in s.roles && s.roles[target] != Admin
    case Transferring(caller, target) =>
      caller == s.admin && target != caller && target != self && (target in s.roles ==> s.roles[target] == Admin)
    case Configuring(caller, signers, threshold) => caller == s.admin && 1 <= threshold <= |signers|
    case Proposing(caller, _) => IsSigner(s, caller) && s.nextId != U64_MAX
    case Approving(caller, id) =>
      IsSigner(s, caller) && Pending(s, id, now) && caller !in s.proposals[id].approvals
    case Executing(caller, id) =>
      && IsSigner(s, caller) && Pending(s, id, now) && s.multisig.value.threshold <= |s.proposals[id].approvals|
      && (s.proposals[id].action.GrantRole? ==> 1 <= s.proposals[id].action.roleValue <= 2)
    case ProposingParameter(caller, key, value) =>
      && IsSigner(s, caller) && s.nextParameterId != U64_MAX
      && value <= (match key case MaxRiskScore => 100 case _ => 10_000)
    case Voting(caller, id) =>
      && IsSigner(s, caller) && id in s.parameterProposals && !s.parameterProposals[id].executed
      && caller !in s.parameterProposals[id].approvals
    case ExecutingParameter(caller, id) =>
      && IsSigner(s, caller) && id in s.parameterProposals && !s.parameterProposals[id].executed
      && s.multisig.value.threshold <= |s.parameterProposals[id].approvals|
      && s.parameterProposals[id].createdAt + 86_400 <= now
  }

  /** In every state a call goes through exactly when `Admits` says so. */
  lemma CommitsExactly(self: Address, now: nat, s: Store, a: Action)
    ensures Apply(self, now, s, a).Ok? <==> Admits(self, now, s, a)
  {
  }

  // ── What a call changes ────────────────────────────────────────────────────

  /** The action of the proposal a call executes. */
  ghost function Deed(s: Store, a: Action): Option<AdminAction> {
    if a.Executing? && a.id in s.proposals then Some(s.proposals[a.id].action) else None
  }

  /** Whether a call that goes through leaves the protocol paused, if it was `was` before. */
  ghost predicate PausedAfter(s: Store, a: Action, was: bool) {
    if a.Pausing? then a.pause
    else if Deed(s, a) == Some(AdminAction.Pause) then true
    else if Deed(s, a) == Some(AdminAction.Unpause) then false
    else was
  }

  ghost function AdminAfter(s: Store, a: Action, was: Address): Address {
    if a.Transferring? then a.target
    else match Deed(s, a)
      case Some(TransferAdmin(newAdmin)) => newAdmin
      case _ => was
  }

  /** The role somebody has after it, having `had` one before. An executed transfer leaves the
      earlier admin theirs; a direct one takes it away. */
  ghost function RoleAfter(s: Store, a: Action, who: Address, had: Option<Role>): Option<Role> {
    match a
    case Granting(_, target, role) => if who == target then role else had
    case Revoking(_, target) => if who == target then None else had
    case Transferring(caller, target) => if who == target then Some(Admin) else if who == caller then None else had
    case _ =>
      match Deed(s, a)
      case Some(GrantRole(target, roleValue)) =>
        if who == target then Some(if roleValue == 1 then Operator else Verifier) else had
      case Some(RevokeRole(target)) => if who == target then None else had
      case Some(TransferAdmin(newAdmin)) => if who == newAdmin then Some(Admin) else had
      case _ => had
  }

  ghost function RoleOf(s: Store, who: Address): Option<Role> {
    if who in s.roles then Some(s.roles[who]) else None
  }

  lemma DeedChangesExactly(self: Address, now: nat, s: Store, a: Action, who: Address)
    requires Apply(self, now, s, a).Ok? && a.Executing?
    ensures var t := Apply(self, now, s, a).value;
            && t.paused == PausedAfter(s, a, s.paused) && t.admin == AdminAfter(s, a, s.admin)
            && RoleOf(t, who) == RoleAfter(s, a, who, RoleOf(s, who)) && t.multisig == s.multisig
  {
  }

  /** A call that goes through, an executed proposal included, changes exactly what it names. */
  lemma ChangesExactly(self: Address, now: nat, s: Store, a: Action, who: Address)
    requires Apply(self, now, s, a).Ok?
    ensures var t := Apply(self, now, s, a).value;
            && t.paused == PausedAfter(s, a, s.paused) && t.admin == AdminAfter(s, a, s.admin)
            && RoleOf(t, who) == RoleAfter(s, a, who, RoleOf(s, who))
            && t.multisig == (if a.Configuring? then Some(MultisigConfig(a.threshold, a.signers)) else s.multisig)
  {
    if a.Executing? { DeedChangesExactly(self, now, s, a, who); }
  }

  // ── Over runs ──────────────────────────────────────────────────────────────

  /** What the calls of a run that went through made of the pause switch, which ran at first. */
  ghost predicate PausedMade(self: Address, admin: Address, run: Run) {
    run != [] &&
    var last, before := run[|run| - 1], run[..|run| - 1];
    var w, was := After(self, InitialStore(admin), before), PausedMade(self, admin, before);
    if Admits(self, last.now, w, last.action) then PausedAfter(w, last.action, was) else was
  }

  ghost function AdminMade(self: Address, admin: Address, run: Run): Address {
    if run == [] then admin else
    var last, before := run[|run| - 1], run[..|run| - 1];
    var w, was := After(self, InitialStore(admin), before), AdminMade(self, admin, before);
    if Admits(self, last.now, w, last.action) then AdminAfter(w, last.action, was) else was
  }

  ghost function RoleMade(self: Address, admin: Address, run: Run, who: Address): Option<Role> {
    if run == [] then (if who == admin then Some(Admin) else None) else
    var last, before := run[|run| - 1], run[..|run| - 1];
    var w, had := After(self, InitialStore(admin), before), RoleMade(self, admin, before, who);
    if Admits(self, last.now, w, last.action) then RoleAfter(w, last.action, who, had) else had
  }

  ghost function ConfigMade(self: Address, admin: Address, run: Run): Option<MultisigConfig> {
    if run == [] then None else
    var last, before := run[|run| - 1], run[..|run| - 1];
    if last.action.Configuring? && Admits(self, last.now, After(self, InitialStore(admin), before), last.action)
    then Some(MultisigConfig(last.action.threshold, last.action.signers))
    else ConfigMade(self, admin, before)
  }

  /** After every run the pause switch, the admin, everybody's role and the multisig are what
      the latest call or executed proposal about them made of them. */
  lemma {:induction false} PowersAccounted(self: Address, admin: Address, run: Run, who: Address)
    ensures var s := After(self, InitialStore(admin), run);
            && s.paused == PausedMade(self, admin, run)
            && s.admin == AdminMade(self, admin, run)
            && RoleOf(s, who) == RoleMade(self, admin, run, who)
            && s.multisig == ConfigMade(self, admin, run)
  {
    if run != [] {
      var last, before := run[|run| - 1], run[..|run| - 1];
      var w := After(self, InitialStore(admin), before);
      PowersAccounted(self, admin, before, who);
      CommitsExactly(self, last.now, w, last.action);
      if Apply(self, last.now, w, last.action).Ok? { ChangesExactly(self, last.now, w, last.action, who); }
    }
  }
}
