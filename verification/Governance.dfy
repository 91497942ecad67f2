/** The multisig and the parameter governance over whole runs: what was executed, by whose
    approval, how often and when. */
module Governance {
  import opened Outcomes
  import opened Validation
  import opened AccessControl

  datatype Action =
    | Pausing(caller: Address, pause: bool)
    | Granting(caller: Address, target: Address, role: Option<Role>)
    | Revoking(caller: Address, target: Address)
    | Transferring(caller: Address, target: Address)
    | Configuring(caller: Address, signers: seq<Address>, threshold: u32)
    | Proposing(caller: Address, proposed: AdminAction)
    | Approving(caller: Address, id: Id)
    | Executing(caller: Address, id: Id)
    | ProposingParameter(caller: Address, key: ParameterKey, value: u32)
    | Voting(caller: Address, id: Id)
    | ExecutingParameter(caller: Address, id: Id)

  datatype Call = Call(now: nat, action: Action)

  type Run = seq<Call>

  ghost function Apply(self: Address, now: nat, s: Store, a: Action): Result<Store> {
    match a
    case Pausing(caller, pause) => SetPaused(s, caller, pause)
    case Granting(caller, target, role) => Grant(s, caller, target, role)
    case Revoking(caller, target) => Revoke(s, caller, target)
    case Transferring(caller, target) => Transfer(self, s, caller, target)
    case Configuring(caller, signers, threshold) => Configure(s, caller, signers, threshold)
    case Proposing(caller, proposed) => Propose(now, s, caller, proposed)
    case Approving(caller, id) => Approve(now, s, caller, id)
    case Executing(caller, id) => Execute(now, s, caller, id)
    case ProposingParameter(caller, key, value) => ProposeParameter(now, s, caller, key, value)
    case Voting(caller, id) => Vote(s, caller, id)
    case ExecutingParameter(caller, id) => ExecuteParameter(now, s, caller, id)
  }

  ghost function Step(self: Address, now: nat, s: Store, a: Action): Store {
    Commit(s, Apply(self, now, s, a))
  }

  ghost function After(self: Address, s: Store, run: Run): Store {
    if run == [] then s else
    var last := run[|run| - 1];
    Step(self, last.now, After(self, s, run[..|run| - 1]), last.action)
  }

  /** The storage in which call `i` of the run is made. */
  ghost function At(self: Address, s: Store, run: Run, i: nat): Store
    requires i <= |run|
  {
    After(self, s, run[..i])
  }

  ghost predicate Commits(self: Address, s: Store, run: Run, i: nat)
    requires i < |run|
  {
    Apply(self, run[i].now, At(self, s, run, i), run[i].action).Ok?
  }

  lemma AtNext(self: Address, s: Store, run: Run, i: nat)
    requires i < |run|
    ensures At(self, s, run, i + 1) == Step(self, run[i].now, At(self, s, run, i), run[i].action)
    ensures At(self, s, run, |run|) == After(self, s, run)
  {
    assert run[..i + 1][..i] == run[..i];
    assert run[..|run|] == run;
  }

  /** What a longer run did before its last call is what the shorter one did. */
  lemma AtExtended(self: Address, s: Store, run: Run, last: Call, i: nat)
    requires i <= |run|
    ensures At(self, s, run + [last], i) == At(self, s, run, i)
    ensures i < |run| ==> Commits(self, s, run + [last], i) == Commits(self, s, run, i)
  {
    assert (run + [last])[..i] == run[..i];
  }

  // ── Proposals only grow ────────────────────────────────────────────────────

  ghost predicate Distinct(approvals: seq<Address>) {
    forall i, j | 0 <= i < j < |approvals| :: approvals[i] != approvals[j]
  }

  /** Ids in use lie below the counter, and every proposal is stored under its own id with
      distinct approvals. */
  ghost predicate SoundActions(s: Store) {
    forall id | id in s.proposals ::
      id < s.nextId && s.proposals[id].id == id && Distinct(s.proposals[id].approvals)
  }

  /** The same for parameter proposals, which are only ever made for values in range. */
  ghost predicate SoundParameters(s: Store) {
    forall id | id in s.parameterProposals ::
      var p := s.parameterProposals[id];
      id < s.nextParameterId && p.id == id && Distinct(p.approvals) && InRange(p.key, p.newValue)
  }

  ghost predicate Sound(s: Store) {
    SoundActions(s) && SoundParameters(s)
  }

  /** Calls of the multisig leave parameter proposals alone, and the other way round. */
  lemma SeparateBooks(self: Address, now: nat, s: Store, a: Action)
    ensures var t := Step(self, now, s, a);
            && (a.Proposing? || a.Approving? || a.Executing? || (t.nextId == s.nextId && t.proposals == s.proposals))
            && (a.ProposingParameter? || a.Voting? || a.ExecutingParameter?
                || (t.nextParameterId == s.nextParameterId && t.parameterProposals == s.parameterProposals))
  {
  }

  lemma SoundKept(self: Address, now: nat, s: Store, a: Action)
    requires Sound(s)
    ensures Sound(Step(self, now, s, a))
  {
    SeparateBooks(self, now, s, a);
    SoundActionsKept(self, now, s, a);
    SoundParametersKept(self, now, s, a);
  }

  lemma SoundActionsKept(self: Address, now: nat, s: Store, a: Action)
    requires SoundActions(s)
    ensures SoundActions(Step(self, now, s, a))
  {
    SeparateBooks(self, now, s, a);
    if a.Proposing? || a.Approving? || a.Executing? {
      var t := Step(self, now, s, a);
      forall id | id in t.proposals
        ensures id < t.nextId && t.proposals[id].id == id && Distinct(t.proposals[id].approvals)
      {
        if id in s.proposals { assert Distinct(s.proposals[id].approvals); }
      }
    }
  }

  lemma SoundParametersKept(self: Address, now: nat, s: Store, a: Action)
    requires SoundParameters(s)
    ensures SoundParameters(Step(self, now, s, a))
  {
    SeparateBooks(self, now, s, a);
    if a.ProposingParameter? || a.Voting? || a.ExecutingParameter? {
      var t := Step(self, now, s, a);
      forall id | id in t.parameterProposals
        ensures var p := t.parameterProposals[id];
                id < t.nextParameterId && p.id == id && Distinct(p.approvals) && InRange(p.key, p.newValue)
      {
        if id in s.parameterProposals { assert Distinct(s.parameterProposals[id].approvals); }
      }
    }
  }

  lemma {:induction false} RunSound(self: Address, admin: Address, run: Run)
    ensures Sound(After(self, InitialStore(admin), run))
  {
    if run != [] {
      var last, before := run[|run| - 1], run[..|run| - 1];
      RunSound(self, admin, before);
      SoundKept(self, last.now, After(self, InitialStore(admin), before), last.action);
    }
  }

  ghost predicate Grows(p: Proposal, q: Proposal) {
    && q == p.(approvals := q.approvals, executed := q.executed)
    && p.approvals <= q.approvals
    && (p.executed ==> q == p)
  }

  ghost predicate ParameterGrows(p: ParameterProposal, q: ParameterProposal) {
    && q == p.(approvals := q.approvals, executed := q.executed)
    && p.approvals <= q.approvals
    && (p.executed ==> q == p)
  }

  /** Every proposal of `s` is still there in `t`, for the same action, with at least the
      same approvals, and frozen once executed; and the id counters never go back. */
  ghost predicate Keeps(s: Store, t: Store) {
    KeepsActions(s, t) && KeepsParameters(s, t)
  }

  ghost predicate KeepsActions(s: Store, t: Store) {
    && s.nextId <= t.nextId
    && (forall id | id in s.proposals :: id in t.proposals && Grows(s.proposals[id], t.proposals[id]))
  }

  ghost predicate KeepsParameters(s: Store, t: Store) {
    && s.nextParameterId <= t.nextParameterId
    && (forall id | id in s.parameterProposals ::
          id in t.parameterProposals && ParameterGrows(s.parameterProposals[id], t.parameterProposals[id]))
  }

  lemma StepKeeps(self: Address, now: nat, s: Store, a: Action)
    requires Sound(s)
    ensures Keeps(s, Step(self, now, s, a))
  {
    StepKeepsActions(self, now, s, a);
    StepKeepsParameters(self, now, s, a);
  }

  lemma StepKeepsActions(self: Address, now: nat, s: Store, a: Action)
    requires SoundActions(s)
    ensures KeepsActions(s, Step(self, now, s, a))
  {
    SeparateBooks(self, now, s, a);
  }

  lemma StepKeepsParameters(self: Address, now: nat, s: Store, a: Action)
    requires SoundParameters(s)
    ensures KeepsParameters(s, Step(self, now, s, a))
  {
    SeparateBooks(self, now, s, a);
  }

  lemma {:induction false} RunKeeps(self: Address, admin: Address, run: Run, i: nat, j: nat)
    requires i <= j <= |run|
    ensures var s := InitialStore(admin); Keeps(At(self, s, run, i), At(self, s, run, j))
    decreases j - i
  {
    var s := InitialStore(admin);
    if i < j {
      RunKeeps(self, admin, run, i, j - 1);
      RunSound(self, admin, run[..j - 1]);
      AtNext(self, s, run, j - 1);
      StepKeeps(self, run[j - 1].now, At(self, s, run, j - 1), run[j - 1].action);
      KeepsTransitive(At(self, s, run, i), At(self, s, run, j - 1), At(self, s, run, j));
    }
  }

  lemma KeepsTransitive(s: Store, t: Store, u: Store)
    requires Keeps(s, t) && Keeps(t, u)
    ensures Keeps(s, u)
  {
  }

  // ── Executed at most once, under ids never used again ──────────────────────

  lemma ExecuteMarks(self: Address, now: nat, s: Store, a: Action)
    requires Apply(self, now, s, a).Ok?
    ensures var t := Step(self, now, s, a);
            && (a.Executing? ==>
                  && a.id in s.proposals && !s.proposals[a.id].executed
                  && a.id in t.proposals && t.proposals[a.id].executed)
            && (a.ExecutingParameter? ==>
                  && a.id in s.parameterProposals && !s.parameterProposals[a.id].executed
                  && a.id in t.parameterProposals && t.parameterProposals[a.id].executed)
  {
  }

  /** No proposal takes effect twice, in any run. */
  lemma ExecutedOnce(self: Address, admin: Address, run: Run, i: nat, j: nat)
    requires i < j < |run|
    requires Commits(self, InitialStore(admin), run, i) && Commits(self, InitialStore(admin), run, j)
    ensures run[i].action.Executing? && run[j].action.Executing? ==> run[i].action.id != run[j].action.id
    ensures run[i].action.ExecutingParameter? && run[j].action.ExecutingParameter? ==>
        run[i].action.id != run[j].action.id
  {
    var s := InitialStore(admin);
    ExecuteMarks(self, run[i].now, At(self, s, run, i), run[i].action);
    ExecuteMarks(self, run[j].now, At(self, s, run, j), run[j].action);
    AtNext(self, s, run, i);
    RunKeeps(self, admin, run, i + 1, j);
  }

  /** The proposal a call creates, under the id the call reports. */
  lemma ProposingCreates(self: Address, now: nat, s: Store, a: Action)
    requires Apply(self, now, s, a).Ok?
    ensures var t := Step(self, now, s, a);
            && (a.Proposing? ==>
                  && s.nextId in t.proposals && s.nextId < t.nextId
                  && t.proposals[s.nextId]
                       == Proposal(s.nextId, a.proposed, a.caller, [a.caller], false, now, now + PROPOSAL_TTL))
            && (a.ProposingParameter? ==>
                  && s.nextParameterId in t.parameterProposals && s.nextParameterId < t.nextParameterId
                  && t.parameterProposals[s.nextParameterId]
                       == ParameterProposal(s.nextParameterId, a.key, a.value, a.caller, [a.caller], now, false))
  {
  }

  /** Ids are never reused, by either counter: a later proposal gets a larger id, and the
      earlier one still stands for the action or the parameter value it was made for. */
  lemma IdsNeverReused(self: Address, admin: Address, run: Run, i: nat, j: nat)
    requires i < j < |run| && Commits(self, InitialStore(admin), run, i)
    ensures var s, a := InitialStore(admin), run[i].action;
            var id, later := At(self, s, run, i).nextId, At(self, s, run, j);
            a.Proposing? ==>
              && id < later.nextId && id in later.proposals
              && later.proposals[id].action == a.proposed && later.proposals[id].proposer == a.caller
    ensures var s, a := InitialStore(admin), run[i].action;
            var id, later := At(self, s, run, i).nextParameterId, At(self, s, run, j);
            a.ProposingParameter? ==>
              && id < later.nextParameterId && id in later.parameterProposals
              && later.parameterProposals[id].key == a.key && later.parameterProposals[id].newValue == a.value
              && later.parameterProposals[id].proposer == a.caller
  {
    ProposingCreates(self, run[i].now, At(self, InitialStore(admin), run, i), run[i].action);
    AtNext(self, InitialStore(admin), run, i);
    RunKeeps(self, admin, run, i + 1, j);
  }

  // ── Quorum ─────────────────────────────────────────────────────────────────

  ghost predicate IsSigner(s: Store, who: Address) {
    s.multisig.Some? && who in s.multisig.value.signers
  }

  /** Call `j` is `who` proposing or approving multisig proposal `id`, as a signer. */
  ghost predicate Endorses(self: Address, s: Store, run: Run, j: nat, id: Id, who: Address) {
    && j < |run| && Commits(self, s, run, j) && IsSigner(At(self, s, run, j), who)
    && run[j].action.caller == who
    && ((run[j].action.Proposing? && At(self, s, run, j).nextId == id)
        || (run[j].action.Approving? && run[j].action.id == id))
  }

  /** An approval is recorded only by its own address proposing or approving as a signer. */
  lemma ApprovalEffect(self: Address, now: nat, s: Store, a: Action, id: Id, who: Address)
    requires Sound(s)
    requires id in Step(self, now, s, a).proposals && who in Step(self, now, s, a).proposals[id].approvals
    ensures
      || (id in s.proposals && who in s.proposals[id].approvals)
      || (Apply(self, now, s, a).Ok? && IsSigner(s, who) && a.caller == who
          && ((a.Proposing? && s.nextId == id) || (a.Approving? && a.id == id)))
  {
    SeparateBooks(self, now, s, a);
  }

  lemma {:induction false} ApprovalsEndorsed(self: Address, admin: Address, run: Run, id: Id, who: Address)
    requires id in After(self, InitialStore(admin), run).proposals
    requires who in After(self, InitialStore(admin), run).proposals[id].approvals
    ensures exists j :: Endorses(self, InitialStore(admin), run, j, id, who)
  {
    var s, last, before := InitialStore(admin), run[|run| - 1], run[..|run| - 1];
    var w := After(self, s, before);
    assert run == before + [last];
    RunSound(self, admin, before);
    ApprovalEffect(self, last.now, w, last.action, id, who);
    if id in w.proposals && who in w.proposals[id].approvals {
      ApprovalsEndorsed(self, admin, before, id, who);
      var j: nat :| Endorses(self, s, before, j, id, who);
      AtExtended(self, s, before, last, j);
      assert Endorses(self, s, run, j, id, who);
    } else {
      assert Endorses(self, s, run, |run| - 1, id, who);
    }
  }

  lemma ExecuteNeeds(self: Address, now: nat, s: Store, a: Action)
    requires Apply(self, now, s, a).Ok? && a.Executing?
    ensures IsSigner(s, a.caller) && a.id in s.proposals
    ensures var p := s.proposals[a.id];
            && !p.executed && now <= p.expiresAt
            && s.multisig.value.threshold <= |p.approvals|
            && Apply(self, now, s, a) == Perform(s.(proposals := s.proposals[a.id := p.(executed := true)]), p.action)
  {
  }

  /** A multisig action takes effect only on the word of at least the threshold in force of
      different addresses, each of which proposed or approved it earlier in the run while a
      signer, and within its lifetime. */
  lemma QuorumAtExecution(self: Address, admin: Address, run: Run, i: nat)
    requires i < |run| && Commits(self, InitialStore(admin), run, i) && run[i].action.Executing?
    ensures var s, id := InitialStore(admin), run[i].action.id;
            var w := At(self, s, run, i);
            && IsSigner(w, run[i].action.caller) && id in w.proposals
            && run[i].now <= w.proposals[id].expiresAt
            && w.multisig.value.threshold <= |w.proposals[id].approvals| && Distinct(w.proposals[id].approvals)
            && (forall who | who in w.proposals[id].approvals ::
                  exists j :: Endorses(self, s, run[..i], j, id, who))
  {
    var s, id := InitialStore(admin), run[i].action.id;
    ExecuteNeeds(self, run[i].now, At(self, s, run, i), run[i].action);
    RunSound(self, admin, run[..i]);
    forall who | who in At(self, s, run, i).proposals[id].approvals
      ensures exists j :: Endorses(self, s, run[..i], j, id, who)
    {
      ApprovalsEndorsed(self, admin, run[..i], id, who);
    }
  }

  /** Every signer ever configured in the run is one of `pool`. */
  ghost predicate SignersFrom(self: Address, s: Store, run: Run, pool: set<Address>) {
    forall i | 0 <= i <= |run| :: forall who | IsSigner(At(self, s, run, i), who) :: who in pool
  }

  lemma {:induction false} DistinctFit(approvals: seq<Address>, pool: set<Address>)
    requires Distinct(approvals) && (forall who | who in approvals :: who in pool)
    ensures |approvals| <= |pool|
    decreases |approvals|
  {
    if approvals != [] {
      var last, rest := approvals[|approvals| - 1], approvals[..|approvals| - 1];
      assert forall who | who in rest :: who in approvals && who != last;
      DistinctFit(rest, pool - {last});
    }
  }

  /** Nothing is executed under a threshold above the number of addresses that were ever
      signers in the run. */
  lemma ExecutionNeedsEnoughSigners(self: Address, admin: Address, run: Run, i: nat, pool: set<Address>)
    requires i < |run| && Commits(self, InitialStore(admin), run, i) && run[i].action.Executing?
    requires SignersFrom(self, InitialStore(admin), run, pool)
    ensures At(self, InitialStore(admin), run, i).multisig.Some?
    ensures At(self, InitialStore(admin), run, i).multisig.value.threshold <= |pool|
  {
    var s, id := InitialStore(admin), run[i].action.id;
    QuorumAtExecution(self, admin, run, i);
    var approvals := At(self, s, run, i).proposals[id].approvals;
    forall who | who in approvals
      ensures who in pool
    {
      var j: nat :| Endorses(self, s, run[..i], j, id, who);
      assert run[..i][..j] == run[..j];
      assert IsSigner(At(self, s, run, j), who);
    }
    DistinctFit(approvals, pool);
  }

  // ── Parameters ─────────────────────────────────────────────────────────────

  /** Call `i` proposed this parameter change. */
  ghost predicate ProposedBy(self: Address, s: Store, run: Run, i: nat, p: ParameterProposal) {
    && i < |run| && Commits(self, s, run, i)
    && run[i].action == ProposingParameter(p.proposer, p.key, p.newValue)
    && run[i].now == p.createdAt && At(self, s, run, i).nextParameterId == p.id
  }

  lemma ParameterProposalEffect(self: Address, now: nat, s: Store, a: Action, id: Id)
    requires Sound(s) && id in Step(self, now, s, a).parameterProposals
    ensures var q := Step(self, now, s, a).parameterProposals[id];
      || (id in s.parameterProposals && ParameterGrows(s.parameterProposals[id], q))
      || (Apply(self, now, s, a).Ok? && a == ProposingParameter(q.proposer, q.key, q.newValue)
          && now == q.createdAt && s.nextParameterId == q.id)
  {
    SeparateBooks(self, now, s, a);
  }

  lemma {:induction false} EveryProposalWasMade(self: Address, admin: Address, run: Run, id: Id)
    requires id in After(self, InitialStore(admin), run).parameterProposals
    ensures exists i :: ProposedBy(self, InitialStore(admin), run, i,
        After(self, InitialStore(admin), run).parameterProposals[id])
  {
    var s, last, before := InitialStore(admin), run[|run| - 1], run[..|run| - 1];
    var w, q := After(self, s, before), After(self, s, run).parameterProposals[id];
    assert run == before + [last];
    RunSound(self, admin, before);
    ParameterProposalEffect(self, last.now, w, last.action, id);
    if id in w.parameterProposals && ParameterGrows(w.parameterProposals[id], q) {
      EveryProposalWasMade(self, admin, before, id);
      var i: nat :| ProposedBy(self, s, before, i, w.parameterProposals[id]);
      AtExtended(self, s, before, last, i);
      assert ProposedBy(self, s, run, i, q);
    } else {
      assert ProposedBy(self, s, run, |run| - 1, q);
    }
  }

  /** Call `j` is `who` proposing or voting for parameter proposal `id`, as a signer. */
  ghost predicate Supports(self: Address, s: Store, run: Run, j: nat, id: Id, who: Address) {
    && j < |run| && Commits(self, s, run, j) && IsSigner(At(self, s, run, j), who)
    && run[j].action.caller == who
    && ((run[j].action.ProposingParameter? && At(self, s, run, j).nextParameterId == id)
        || (run[j].action.Voting? && run[j].action.id == id))
  }

  lemma VoteEffect(self: Address, now: nat, s: Store, a: Action, id: Id, who: Address)
    requires Sound(s)
    requires id in Step(self, now, s, a).parameterProposals
        && who in Step(self, now, s, a).parameterProposals[id].approvals
    ensures
      || (id in s.parameterProposals && who in s.parameterProposals[id].approvals)
      || (Apply(self, now, s, a).Ok? && IsSigner(s, who) && a.caller == who
          && ((a.ProposingParameter? && s.nextParameterId == id) || (a.Voting? && a.id == id)))
  {
    SeparateBooks(self, now, s, a);
  }

  /** Every vote on record was cast by its own address while a signer. */
  lemma {:induction false} VotesSupported(self: Address, admin: Address, run: Run, id: Id, who: Address)
    requires id in After(self, InitialStore(admin), run).parameterProposals
    requires who in After(self, InitialStore(admin), run).parameterProposals[id].approvals
    ensures exists j :: Supports(self, InitialStore(admin), run, j, id, who)
  {
    var s, last, before := InitialStore(admin), run[|run| - 1], run[..|run| - 1];
    var w := After(self, s, before);
    assert run == before + [last];
    RunSound(self, admin, before);
    VoteEffect(self, last.now, w, last.action, id, who);
    if id in w.parameterProposals && who in w.parameterProposals[id].approvals {
      VotesSupported(self, admin, before, id, who);
      var j: nat :| Supports(self, s, before, j, id, who);
      AtExtended(self, s, before, last, j);
      assert Supports(self, s, run, j, id, who);
    } else {
      assert Supports(self, s, run, |run| - 1, id, who);
    }
  }

  /** Call `j` executes a change of `key`. */
  ghost predicate ChangesParameter(self: Address, s: Store, run: Run, j: nat, key: ParameterKey) {
    && j < |run| && Commits(self, s, run, j) && run[j].action.ExecutingParameter?
    && run[j].action.id in At(self, s, run, j).parameterProposals
    && At(self, s, run, j).parameterProposals[run[j].action.id].key == key
  }

  /** The proposal call `j` executes. */
  ghost function Executed(self: Address, s: Store, run: Run, j: nat): ParameterProposal
    requires j < |run| && run[j].action.ExecutingParameter?
    requires run[j].action.id in At(self, s, run, j).parameterProposals
  {
    At(self, s, run, j).parameterProposals[run[j].action.id]
  }

  /** No later call changes `key` again. */
  ghost predicate LastChange(self: Address, s: Store, run: Run, j: nat, key: ParameterKey) {
    && ChangesParameter(self, s, run, j, key)
    && (forall k | j < k < |run| :: !ChangesParameter(self, s, run, k, key))
  }

  /** A parameter changes only when a proposal for it is executed, after the timelock and
      with a quorum of different votes, and then takes the proposed value. */
  lemma ParameterEffect(self: Address, now: nat, s: Store, a: Action, key: ParameterKey)
    requires Sound(s)
    ensures var r := Apply(self, now, s, a);
            var t := Step(self, now, s, a);
            if r.Ok? && a.ExecutingParameter? && a.id in s.parameterProposals
                && s.parameterProposals[a.id].key == key then
              var p := s.parameterProposals[a.id];
              && key in t.parameters && t.parameters[key] == p.newValue
              && p.createdAt + GOVERNANCE_TIMELOCK_DELAY <= now
              && s.multisig.Some? && s.multisig.value.threshold <= |p.approvals|
            else
              (key in t.parameters <==> key in s.parameters)
              && (key in t.parameters ==> t.parameters[key] == s.parameters[key])
  {
  }

  ghost predicate Sets(self: Address, s: Store, run: Run, j: nat, key: ParameterKey, value: u32) {
    LastChange(self, s, run, j, key) && Executed(self, s, run, j).newValue == value
  }

  lemma {:induction false} LastChangeSetsIt(self: Address, admin: Address, run: Run, key: ParameterKey)
    requires key in After(self, InitialStore(admin), run).parameters
    ensures exists j :: Sets(self, InitialStore(admin), run, j, key,
        After(self, InitialStore(admin), run).parameters[key])
  {
    var s, last, before := InitialStore(admin), run[|run| - 1], run[..|run| - 1];
    var w := After(self, s, before);
    var value := After(self, s, run).parameters[key];
    assert run == before + [last];
    RunSound(self, admin, before);
    ParameterEffect(self, last.now, w, last.action, key);
    if ChangesParameter(self, s, run, |run| - 1, key) {
      assert Sets(self, s, run, |run| - 1, key, value);
    } else {
      LastChangeSetsIt(self, admin, before, key);
      var j: nat :| Sets(self, s, before, j, key, value);
      LastChangeStays(self, s, before, last, j, key);
      assert Sets(self, s, run, j, key, value);
    }
  }

  lemma LastChangeStays(self: Address, s: Store, run: Run, last: Call, j: nat, key: ParameterKey)
    requires LastChange(self, s, run, j, key) && !ChangesParameter(self, s, run + [last], |run|, key)
    ensures LastChange(self, s, run + [last], j, key)
    ensures At(self, s, run + [last], j) == At(self, s, run, j)
  {
    forall k | j <= k < |run|
      ensures ChangesParameter(self, s, run + [last], k, key) == ChangesParameter(self, s, run, k, key)
    {
      AtExtended(self, s, run, last, k);
    }
    AtExtended(self, s, run, last, j);
  }

  /** Call `i` proposed what call `j` executed as the latest change of `key`: to `value`, a
      full day later, and by the votes of a quorum of different addresses. */
  ghost predicate Governs(self: Address, s: Store, run: Run, i: nat, j: nat, key: ParameterKey, value: u32) {
    && Sets(self, s, run, j, key, value)
    && var p, w := Executed(self, s, run, j), At(self, s, run, j);
    && ProposedBy(self, s, run[..j], i, p)
    && run[i].now + GOVERNANCE_TIMELOCK_DELAY <= run[j].now
    && w.multisig.Some? && w.multisig.value.threshold <= |p.approvals| && Distinct(p.approvals)
  }

  /** Everybody counted towards the quorum of call `j` voted earlier, as a signer. */
  ghost predicate Supported(self: Address, s: Store, run: Run, j: nat)
    requires j < |run| && run[j].action.ExecutingParameter?
    requires run[j].action.id in At(self, s, run, j).parameterProposals
  {
    forall who | who in Executed(self, s, run, j).approvals ::
      exists k :: Supports(self, s, run[..j], k, run[j].action.id, who)
  }

  /** Every governed parameter is in range and holds the value of the latest executed proposal
      for it, made by a signer's call in the run a full day before and voted for by signers. */
  lemma ParametersAreGoverned(self: Address, admin: Address, run: Run, key: ParameterKey)
    requires key in After(self, InitialStore(admin), run).parameters
    ensures var s := InitialStore(admin);
            var value := After(self, s, run).parameters[key];
            InRange(key, value) && exists i, j :: Governs(self, s, run, i, j, key, value) && Supported(self, s, run, j)
  {
    var s := InitialStore(admin);
    var value := After(self, s, run).parameters[key];
    LastChangeSetsIt(self, admin, run, key);
    var j: nat :| Sets(self, s, run, j, key, value);
    var w, p := At(self, s, run, j), Executed(self, s, run, j);
    RunSound(self, admin, run[..j]);
    ParameterEffect(self, run[j].now, w, run[j].action, key);
    EveryProposalWasMade(self, admin, run[..j], run[j].action.id);
    var i: nat :| ProposedBy(self, s, run[..j], i, p);
    assert Governs(self, s, run, i, j, key, value);
    forall who | who in p.approvals
      ensures exists k :: Supports(self, s, run[..j], k, run[j].action.id, who)
    {
      VotesSupported(self, admin, run[..j], run[j].action.id, who);
    }
  }
}
