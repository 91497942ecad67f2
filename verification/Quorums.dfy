/** What a quorum takes: which thresholds can be met at all, whose approvals count, and from
    when the governance timelock runs. */
module Quorums {
  import opened Outcomes
  import opened Validation
  import opened AccessControl
  import opened Governance

  // ── Thresholds that can be met ─────────────────────────────────────────────

  /** The different addresses of a signer list; `configure_multisig` looks at its length. */
  ghost function Different(signers: seq<Address>): set<Address> {
    set who | who in signers
  }

  /** No call of the run changes the multisig configuration. */
  ghost predicate Unconfigured(self: Address, s: Store, run: Run) {
    run == [] ||
    var last, before := run[|run| - 1], run[..|run| - 1];
    && Unconfigured(self, s, before)
    && !(last.action.Configuring? && Apply(self, last.now, After(self, s, before), last.action).Ok?)
  }

  lemma OneMoreCall(self: Address, s: Store, run: Run, last: Call)
    ensures After(self, s, run + [last]) == Step(self, last.now, After(self, s, run), last.action)
    ensures Unconfigured(self, s, run + [last]) <==>
              && Unconfigured(self, s, run)
              && !(last.action.Configuring? && Apply(self, last.now, After(self, s, run), last.action).Ok?)
  {
    assert (run + [last])[..|run|] == run;
  }

  lemma ConfigEffect(self: Address, now: nat, s: Store, a: Action)
    requires !(a.Configuring? && Apply(self, now, s, a).Ok?)
    ensures Step(self, now, s, a).multisig == s.multisig
  {
  }

  /** While a configuration is in force, only its signers approve proposals made under it. */
  lemma {:induction false} OnlyItsSigners(self: Address, s: Store, run: Run, id: Id)
    requires Sound(s) && s.multisig.Some? && id !in s.proposals && Unconfigured(self, s, run)
    ensures var t := After(self, s, run);
            && Sound(t) && t.multisig == s.multisig
            && (id in t.proposals ==> forall who | who in t.proposals[id].approvals :: who in s.multisig.value.signers)
  {
    if run != [] {
      var last, before := run[|run| - 1], run[..|run| - 1];
      var w := After(self, s, before);
      var t := After(self, s, run);
      OnlyItsSigners(self, s, before, id);
      SoundKept(self, last.now, w, last.action);
      ConfigEffect(self, last.now, w, last.action);
      if id in t.proposals {
        forall who | who in t.proposals[id].approvals
          ensures who in s.multisig.value.signers
        {
          ApprovalEffect(self, last.now, w, last.action, id, who);
        }
      }
    }
  }

  /** Under a configuration, the last call of the run executes a proposal made under it. */
  ghost predicate ExecutesNew(self: Address, s: Store, run: Run) {
    && run != [] && Unconfigured(self, s, run)
    && var last, before := run[|run| - 1], run[..|run| - 1];
    && last.action.Executing? && last.action.id !in s.proposals
    && Apply(self, last.now, After(self, s, before), last.action).Ok?
  }

  lemma NewNeedsDifferentSigners(self: Address, s: Store, run: Run)
    requires Sound(s) && s.multisig.Some? && ExecutesNew(self, s, run)
    ensures s.multisig.value.threshold <= |Different(s.multisig.value.signers)|
  {
    var last, before := run[|run| - 1], run[..|run| - 1];
    OnlyItsSigners(self, s, before, last.action.id);
    ExecuteNeeds(self, last.now, After(self, s, before), last.action);
    DistinctFit(After(self, s, before).proposals[last.action.id].approvals, Different(s.multisig.value.signers));
  }

  // A run that meets a threshold: one signer proposes, the others approve, the first executes.

  lemma {:induction false} ListOf(pool: set<Address>) returns (list: seq<Address>)
    ensures |list| == |pool| && Distinct(list) && forall who | who in list :: who in pool
    decreases |pool|
  {
    if pool == {} { return []; }
    var who :| who in pool;
    var rest := ListOf(pool - {who});
    list := [who] + rest;
  }

  ghost function Ballots(now: nat, id: Id, voters: seq<Address>): Run {
    if voters == [] then [] else
    Ballots(now, id, voters[..|voters| - 1]) + [Call(now, Approving(voters[|voters| - 1], id))]
  }

  lemma DistinctSplits(given: seq<Address>, rest: seq<Address>, last: Address)
    requires Distinct(given + (rest + [last]))
    ensures Distinct(given + rest) && last !in given + rest
    ensures given + rest + [last] == given + (rest + [last])
  {
    var all, fewer := given + (rest + [last]), given + rest;
    assert fewer == all[..|fewer|] && all[|fewer|] == last;
    forall i | 0 <= i < |fewer|
      ensures fewer[i] != last
    {
      assert all[i] == fewer[i];
    }
  }

  /** The approvals a proposal has once `voters` have added theirs to it. */
  ghost function Approved(s: Store, id: Id, voters: seq<Address>): Store
    requires id in s.proposals
  {
    s.(proposals := s.proposals[id := s.proposals[id].(approvals := s.proposals[id].approvals + voters)])
  }

  lemma OneBallot(self: Address, s: Store, now: nat, id: Id, given: seq<Address>, who: Address)
    requires id in s.proposals && !s.proposals[id].executed && now <= s.proposals[id].expiresAt
    requires IsSigner(s, who) && who !in s.proposals[id].approvals + given
    ensures Step(self, now, Approved(s, id, given), Approving(who, id)) == Approved(s, id, given + [who])
  {
    var p, t := s.proposals[id], Approved(s, id, given);
    assert p.approvals + given + [who] == p.approvals + (given + [who]);
    assert t.proposals[id := p.(approvals := p.approvals + (given + [who]))]
        == Approved(s, id, given + [who]).proposals;
  }

  /** Signers who have not approved yet approve one after the other. */
  lemma {:induction false} BallotsCount(self: Address, s: Store, now: nat, id: Id, voters: seq<Address>)
    requires id in s.proposals && !s.proposals[id].executed && now <= s.proposals[id].expiresAt
    requires Distinct(s.proposals[id].approvals + voters) && forall who | who in voters :: IsSigner(s, who)
    ensures After(self, s, Ballots(now, id, voters)) == Approved(s, id, voters)
    ensures Unconfigured(self, s, Ballots(now, id, voters))
  {
    if voters == [] {
      assert s.proposals[id].approvals + [] == s.proposals[id].approvals;
    } else {
      var last, rest := voters[|voters| - 1], voters[..|voters| - 1];
      assert voters == rest + [last];
      DistinctSplits(s.proposals[id].approvals, rest, last);
      BallotsCount(self, s, now, id, rest);
      OneMoreCall(self, s, Ballots(now, id, rest), Call(now, Approving(last, id)));
      assert last in voters;
      OneBallot(self, s, now, id, rest, last);
    }
  }

  lemma {:induction false} AfterBoth(self: Address, s: Store, first: Run, second: Run)
    ensures After(self, s, first + second) == After(self, After(self, s, first), second)
    ensures Unconfigured(self, s, first) && Unconfigured(self, After(self, s, first), second) ==>
              Unconfigured(self, s, first + second)
    decreases |second|
  {
    if second == [] {
      assert first + second == first;
    } else {
      var rest, last := second[..|second| - 1], second[|second| - 1];
      AfterBoth(self, s, first, rest);
      OneMoreCall(self, s, first + rest, last);
      assert rest + [last] == second && first + rest + [last] == first + second;
    }
  }

  lemma ThresholdIsMet(self: Address, s: Store, now: nat) returns (run: Run)
    requires Sound(s) && s.nextId < U64_MAX && s.multisig.Some?
    requires 1 <= s.multisig.value.threshold <= |Different(s.multisig.value.signers)|
    ensures ExecutesNew(self, s, run) && AllAt(run, now)
  {
    var list := ListOf(Different(s.multisig.value.signers));
    var proposer, voters, id := list[0], list[1..], s.nextId;
    var opening: Run := [] + [Call(now, Proposing(proposer, AdminAction.Pause))];
    var s1 := After(self, s, opening);
    OneMoreCall(self, s, [], Call(now, Proposing(proposer, AdminAction.Pause)));
    assert proposer in list && forall who | who in voters :: who in list;
    assert [proposer] + voters == list;
    BallotsCount(self, s1, now, id, voters);
    var ballots := Ballots(now, id, voters);
    AfterBoth(self, s, opening, ballots);
    var closing := Call(now, Executing(proposer, id));
    OneMoreCall(self, s, opening + ballots, closing);
    run := opening + ballots + [closing];
    assert run[..|run| - 1] == opening + ballots;
    BallotsNow(now, id, voters);
  }

  ghost predicate AllAt(run: Run, now: nat) {
    forall i | 0 <= i < |run| :: run[i].now == now
  }

  lemma {:induction false} BallotsNow(now: nat, id: Id, voters: seq<Address>)
    ensures AllAt(Ballots(now, id, voters), now)
  {
    if voters != [] { BallotsNow(now, id, voters[..|voters| - 1]); }
  }

  /** A configuration that could be in force: `configure_multisig` refuses a zero threshold. */
  ghost predicate Configured(s: Store) {
    s.multisig.Some? ==> 1 <= s.multisig.value.threshold <= |s.multisig.value.signers|
  }

  lemma {:induction false} RunConfigured(self: Address, admin: Address, run: Run)
    ensures Configured(After(self, InitialStore(admin), run))
  {
    if run != [] {
      var last, before := run[|run| - 1], run[..|run| - 1];
      RunConfigured(self, admin, before);
      ConfiguredKept(self, last.now, After(self, InitialStore(admin), before), last.action);
    }
  }

  lemma ConfiguredKept(self: Address, now: nat, s: Store, a: Action)
    requires Configured(s)
    ensures Configured(Step(self, now, s, a))
  {
  }

  /** In every reachable state with a multisig: some proposal made under the configuration in
      force can be executed under it exactly when its threshold is at most the number of
      different signers, which `configure_multisig` does not check; then at any time `now`. */
  lemma QuorumReachableExactly(self: Address, admin: Address, run: Run, now: nat)
    requires After(self, InitialStore(admin), run).multisig.Some?
        && After(self, InitialStore(admin), run).nextId < U64_MAX
    ensures var s := After(self, InitialStore(admin), run);
            var reachable := s.multisig.value.threshold <= |Different(s.multisig.value.signers)|;
            && ((exists more :: ExecutesNew(self, s, more)) <==> reachable)
            && (reachable ==> exists more :: ExecutesNew(self, s, more) && AllAt(more, now))
  {
    var s := After(self, InitialStore(admin), run);
    RunSound(self, admin, run);
    RunConfigured(self, admin, run);
    forall more | ExecutesNew(self, s, more)
      ensures s.multisig.value.threshold <= |Different(s.multisig.value.signers)|
    {
      NewNeedsDifferentSigners(self, s, more);
    }
    if s.multisig.value.threshold <= |Different(s.multisig.value.signers)| {
      var more := ThresholdIsMet(self, s, now);
    }
  }

  // ── The same for parameter proposals ───────────────────────────────────────

  /** While a configuration is in force, only its signers vote for proposals made under it. */
  lemma {:induction false} OnlyItsVoters(self: Address, s: Store, run: Run, id: Id)
    requires Sound(s) && s.multisig.Some? && id !in s.parameterProposals && Unconfigured(self, s, run)
    ensures var t := After(self, s, run);
            && Sound(t) && t.multisig == s.multisig
            && (id in t.parameterProposals ==>
                  forall who | who in t.parameterProposals[id].approvals :: who in s.multisig.value.signers)
  {
    if run != [] {
      var last, before := run[|run| - 1], run[..|run| - 1];
      var w, t := After(self, s, before), After(self, s, run);
      OnlyItsVoters(self, s, before, id);
      SoundKept(self, last.now, w, last.action);
      ConfigEffect(self, last.now, w, last.action);
      if id in t.parameterProposals {
        forall who | who in t.parameterProposals[id].approvals
          ensures who in s.multisig.value.signers
        {
          VoteEffect(self, last.now, w, last.action, id, who);
        }
      }
    }
  }

  /** Under a configuration, the last call of the run executes a proposal made under it, to
      set `key` to `value`. */
  ghost predicate ExecutesNewParameter(self: Address, s: Store, run: Run, key: ParameterKey, value: u32) {
    && run != [] && Unconfigured(self, s, run)
    && var last, before := run[|run| - 1], run[..|run| - 1];
    && var t := After(self, s, before);
    && last.action.ExecutingParameter? && last.action.id !in s.parameterProposals
    && last.action.id in t.parameterProposals
    && t.parameterProposals[last.action.id].key == key && t.parameterProposals[last.action.id].newValue == value
    && Apply(self, last.now, t, last.action).Ok?
  }

  lemma ParameterExecuteNeeds(self: Address, now: nat, s: Store, a: Action)
    requires a.ExecutingParameter? && Apply(self, now, s, a).Ok?
    ensures s.multisig.Some? && a.id in s.parameterProposals
    ensures s.multisig.value.threshold <= |s.parameterProposals[a.id].approvals|
  {
  }

  lemma NewParameterNeeds(self: Address, s: Store, run: Run, key: ParameterKey, value: u32)
    requires Sound(s) && s.multisig.Some? && ExecutesNewParameter(self, s, run, key, value)
    ensures InRange(key, value) && s.multisig.value.threshold <= |Different(s.multisig.value.signers)|
  {
    var last, before := run[|run| - 1], run[..|run| - 1];
    OnlyItsVoters(self, s, before, last.action.id);
    ParameterExecuteNeeds(self, last.now, After(self, s, before), last.action);
    DistinctFit(After(self, s, before).parameterProposals[last.action.id].approvals,
                Different(s.multisig.value.signers));
  }

  ghost function Votes(now: nat, id: Id, voters: seq<Address>): Run {
    if voters == [] then [] else
    Votes(now, id, voters[..|voters| - 1]) + [Call(now, Voting(voters[|voters| - 1], id))]
  }

  /** The votes a proposal has once `voters` have added theirs to it. */
  ghost function Voted(s: Store, id: Id, voters: seq<Address>): Store
    requires id in s.parameterProposals
  {
    var p := s.parameterProposals[id];
    s.(parameterProposals := s.parameterProposals[id := p.(approvals := p.approvals + voters)])
  }

  lemma OneVote(self: Address, s: Store, now: nat, id: Id, given: seq<Address>, who: Address)
    requires id in s.parameterProposals && !s.parameterProposals[id].executed
    requires IsSigner(s, who) && who !in s.parameterProposals[id].approvals + given
    ensures Step(self, now, Voted(s, id, given), Voting(who, id)) == Voted(s, id, given + [who])
  {
    var p, t := s.parameterProposals[id], Voted(s, id, given);
    assert p.approvals + given + [who] == p.approvals + (given + [who]);
    assert t.parameterProposals[id := p.(approvals := p.approvals + (given + [who]))]
        == Voted(s, id, given + [who]).parameterProposals;
  }

  lemma {:induction false} VotesCount(self: Address, s: Store, now: nat, id: Id, voters: seq<Address>)
    requires id in s.parameterProposals && !s.parameterProposals[id].executed
    requires Distinct(s.parameterProposals[id].approvals + voters) && forall who | who in voters :: IsSigner(s, who)
    ensures After(self, s, Votes(now, id, voters)) == Voted(s, id, voters)
    ensures Unconfigured(self, s, Votes(now, id, voters))
  {
    if voters == [] {
      assert s.parameterProposals[id].approvals + [] == s.parameterProposals[id].approvals;
    } else {
      var last, rest := voters[|voters| - 1], voters[..|voters| - 1];
      assert voters == rest + [last];
      DistinctSplits(s.parameterProposals[id].approvals, rest, last);
      VotesCount(self, s, now, id, rest);
      OneMoreCall(self, s, Votes(now, id, rest), Call(now, Voting(last, id)));
      assert last in voters;
      OneVote(self, s, now, id, rest, last);
    }
  }

  lemma {:induction false} VotesNow(now: nat, id: Id, voters: seq<Address>)
    ensures AllAt(Votes(now, id, voters), now)
  {
    if voters != [] { VotesNow(now, id, voters[..|voters| - 1]); }
  }

  /** Everything happens at `now`, but the last call once the timelock is over. */
  ghost predicate TimelockedFrom(run: Run, now: nat) {
    && run != [] && AllAt(run[..|run| - 1], now)
    && run[|run| - 1].now == now + GOVERNANCE_TIMELOCK_DELAY
  }

  /** One signer proposes and the others vote. */
  lemma VotesGathered(self: Address, s: Store, key: ParameterKey, value: u32, now: nat, list: seq<Address>)
    returns (run: Run)
    requires Sound(s) && s.nextParameterId < U64_MAX && InRange(key, value)
    requires list != [] && Distinct(list) && forall who | who in list :: IsSigner(s, who)
    ensures Unconfigured(self, s, run) && AllAt(run, now)
    ensures var t, id := After(self, s, run), s.nextParameterId;
            && t.multisig == s.multisig && id in t.parameterProposals
            && t.parameterProposals[id] == ParameterProposal(id, key, value, list[0], list, now, false)
  {
    var proposer, voters, id := list[0], list[1..], s.nextParameterId;
    var opening: Run := [] + [Call(now, ProposingParameter(proposer, key, value))];
    OneMoreCall(self, s, [], Call(now, ProposingParameter(proposer, key, value)));
    assert proposer in list && forall who | who in voters :: who in list;
    assert [proposer] + voters == list;
    VotesCount(self, After(self, s, opening), now, id, voters);
    VotesNow(now, id, voters);
    AfterBoth(self, s, opening, Votes(now, id, voters));
    run := opening + Votes(now, id, voters);
  }

  lemma ParameterThresholdIsMet(self: Address, s: Store, key: ParameterKey, value: u32, now: nat) returns (run: Run)
    requires Sound(s) && s.nextParameterId < U64_MAX && s.multisig.Some? && InRange(key, value)
    requires 1 <= s.multisig.value.threshold <= |Different(s.multisig.value.signers)|
    ensures ExecutesNewParameter(self, s, run, key, value) && TimelockedFrom(run, now)
  {
    var list := ListOf(Different(s.multisig.value.signers));
    assert list[0] in list;
    var votes := VotesGathered(self, s, key, value, now, list);
    var closing := Call(now + GOVERNANCE_TIMELOCK_DELAY, ExecutingParameter(list[0], s.nextParameterId));
    OneMoreCall(self, s, votes, closing);
    run := votes + [closing];
    assert run[..|run| - 1] == votes;
  }

  /** In every reachable state with a multisig: a change of `key` to `value` proposed under the
      configuration in force can be executed under it exactly when the value is in range and
      the threshold at most the number of different signers; then the timelock is all there
      is to wait for. */
  lemma ParameterQuorumReachableExactly(self: Address, admin: Address, run: Run, key: ParameterKey, value: u32,
                                        now: nat)
    requires After(self, InitialStore(admin), run).multisig.Some?
        && After(self, InitialStore(admin), run).nextParameterId < U64_MAX
    ensures var s := After(self, InitialStore(admin), run);
            var reachable := InRange(key, value)
                && s.multisig.value.threshold <= |Different(s.multisig.value.signers)|;
            && ((exists more :: ExecutesNewParameter(self, s, more, key, value)) <==> reachable)
            && (reachable ==>
                  exists more :: ExecutesNewParameter(self, s, more, key, value) && TimelockedFrom(more, now))
  {
    var s := After(self, InitialStore(admin), run);
    RunSound(self, admin, run);
    RunConfigured(self, admin, run);
    forall more | ExecutesNewParameter(self, s, more, key, value)
      ensures InRange(key, value) && s.multisig.value.threshold <= |Different(s.multisig.value.signers)|
    {
      NewParameterNeeds(self, s, more, key, value);
    }
    if InRange(key, value) && s.multisig.value.threshold <= |Different(s.multisig.value.signers)| {
      var more := ParameterThresholdIsMet(self, s, key, value, now);
    }
  }

  // ── What is accepted all the same ──────────────────────────────────────────

  /** A threshold above that number is accepted. */
  lemma RepeatedSignersAccepted(admin: Address, who: Address)
    ensures Configure(InitialStore(admin), admin, [who, who], 2).Ok?
    ensures |Different([who, who])| == 1
  {
    assert Different([who, who]) == {who};
  }

  /** Proposals made earlier are another matter: approvals outlive the signers who gave them. */
  function Handover(): Run {
    [ Call(0, Configuring(9, [1, 2], 2)),
      Call(0, Proposing(1, AdminAction.Pause)),
      Call(0, Approving(2, 1)),
      Call(0, Configuring(9, [3, 3], 2)),
      Call(0, Executing(3, 1)) ]
  }

  lemma FormerSignersCount(self: Address)
    ensures var s, run := InitialStore(9), Handover();
            && Commits(self, s, run, 4)
            && At(self, s, run, 4).multisig == Some(MultisigConfig(2, [3, 3]))
            && At(self, s, run, 4).proposals[1].approvals == [1, 2]
  {
    var s, run := InitialStore(9), Handover();
    assert run[..0] == [];
    AtNext(self, s, run, 0);
    var s1 := s.(multisig := Some(MultisigConfig(2, [1, 2])));
    assert At(self, s, run, 1) == s1;
    AtNext(self, s, run, 1);
    var p := Proposal(1, AdminAction.Pause, 1, [1], false, 0, PROPOSAL_TTL);
    assert At(self, s, run, 2) == s1.(nextId := 2, proposals := map[1 := p]);
    AtNext(self, s, run, 2);
    assert [1] + [2] == [1, 2];
    assert At(self, s, run, 3) == s1.(nextId := 2, proposals := map[1 := p.(approvals := [1, 2])]);
    AtNext(self, s, run, 3);
  }

  // ── The timelock counts from the proposal ──────────────────────────────────

  /** Ledger time never decreases. */
  ghost predicate Timely(run: Run) {
    forall i, j | 0 <= i < j < |run| :: run[i].now <= run[j].now
  }

  /** The proposal has the votes the configuration in force asks for. */
  ghost predicate HasQuorum(s: Store, id: Id) {
    && id in s.parameterProposals && s.multisig.Some?
    && s.multisig.value.threshold <= |s.parameterProposals[id].approvals|
  }

  /** The last call of the run gives proposal `id` its quorum, which it never had before. */
  ghost predicate ReachesQuorum(self: Address, s: Store, run: Run, id: Id) {
    && run != [] && HasQuorum(After(self, s, run), id)
    && forall i | 0 <= i < |run| :: !HasQuorum(At(self, s, run, i), id)
  }

  ghost predicate ExecutesParameter(self: Address, s: Store, run: Run, k: nat, id: Id) {
    && k < |run| && Commits(self, s, run, k)
    && run[k].action.ExecutingParameter? && run[k].action.id == id
  }

  /** However the run goes on, the proposal is executed no earlier than a day after `since`. */
  ghost predicate WaitsADayFrom(self: Address, s: Store, run: Run, id: Id, since: nat) {
    forall more, k | Timely(run + more) && |run| <= k && ExecutesParameter(self, s, run + more, k, id) ::
      since + GOVERNANCE_TIMELOCK_DELAY <= (run + more)[k].now
  }

  lemma ExecutionMeansQuorum(self: Address, now: nat, s: Store, a: Action, id: Id)
    requires id in Step(self, now, s, a).parameterProposals && Step(self, now, s, a).parameterProposals[id].executed
    ensures HasQuorum(s, id) || (id in s.parameterProposals && s.parameterProposals[id].executed)
  {
  }

  lemma {:induction false} ExecutedHadQuorum(self: Address, admin: Address, run: Run, id: Id)
    requires id in After(self, InitialStore(admin), run).parameterProposals
    requires After(self, InitialStore(admin), run).parameterProposals[id].executed
    ensures exists i | 0 <= i < |run| :: HasQuorum(At(self, InitialStore(admin), run, i), id)
  {
    var s, last, before := InitialStore(admin), run[|run| - 1], run[..|run| - 1];
    ExecutionMeansQuorum(self, last.now, After(self, s, before), last.action, id);
    if HasQuorum(After(self, s, before), id) {
      assert HasQuorum(At(self, s, run, |run| - 1), id);
    } else {
      ExecutedHadQuorum(self, admin, before, id);
      var i :| 0 <= i < |before| && HasQuorum(At(self, s, before, i), id);
      assert run[..i] == before[..i];
      assert HasQuorum(At(self, s, run, i), id);
    }
  }

  /** Whatever follows, an execution comes at least a day after the proposal was made. */
  lemma ExecutionWaits(self: Address, admin: Address, run: Run, more: Run, k: nat, id: Id)
    requires |run| <= k && ExecutesParameter(self, InitialStore(admin), run + more, k, id)
    requires id in After(self, InitialStore(admin), run).parameterProposals
    ensures After(self, InitialStore(admin), run).parameterProposals[id].createdAt + GOVERNANCE_TIMELOCK_DELAY
         <= (run + more)[k].now
  {
    var s, whole := InitialStore(admin), run + more;
    RunKeeps(self, admin, whole, |run|, k);
    assert whole[..|run|] == run;
    RunSound(self, admin, whole[..k]);
    ParameterEffect(self, whole[k].now, At(self, s, whole, k), whole[k].action,
                    At(self, s, whole, k).parameterProposals[id].key);
  }

  /** Once the quorum is there, any signer executes the proposal as soon as the day is over. */
  lemma ExecutableOnTime(self: Address, admin: Address, run: Run, id: Id, now: nat) returns (call: Call)
    requires ReachesQuorum(self, InitialStore(admin), run, id)
    requires now >= After(self, InitialStore(admin), run).parameterProposals[id].createdAt + GOVERNANCE_TIMELOCK_DELAY
    ensures call.now == now && ExecutesParameter(self, InitialStore(admin), run + [call], |run|, id)
  {
    var t := After(self, InitialStore(admin), run);
    RunConfigured(self, admin, run);
    if t.parameterProposals[id].executed {
      ExecutedHadQuorum(self, admin, run, id);
      assert false;
    }
    call := Call(now, ExecutingParameter(t.multisig.value.signers[0], id));
    assert (run + [call])[..|run|] == run;
  }

  lemma TooEarly(self: Address, admin: Address, run: Run, id: Id)
    requires Timely(run) && ReachesQuorum(self, InitialStore(admin), run, id)
    requires After(self, InitialStore(admin), run).parameterProposals[id].createdAt < run[|run| - 1].now
    ensures !WaitsADayFrom(self, InitialStore(admin), run, id, run[|run| - 1].now)
  {
    var reached := run[|run| - 1].now;
    var unlocked := After(self, InitialStore(admin), run).parameterProposals[id].createdAt + GOVERNANCE_TIMELOCK_DELAY;
    var call := ExecutableOnTime(self, admin, run, id, if reached <= unlocked then unlocked else reached);
    assert Timely(run + [call]);
    assert (run + [call])[|run|].now < reached + GOVERNANCE_TIMELOCK_DELAY;
  }

  /** A comment in the source counts the timelock from the quorum; the code counts from the
      proposal. When the last call of a run gives a proposal its first quorum, its execution
      waits a full day from that call, however the run goes on, exactly when the proposal
      was made at that same ledger time. */
  lemma CoolingOffExactly(self: Address, admin: Address, run: Run, id: Id)
    requires Timely(run) && ReachesQuorum(self, InitialStore(admin), run, id)
    ensures var s, reached := InitialStore(admin), run[|run| - 1].now;
            var createdAt := After(self, s, run).parameterProposals[id].createdAt;
            createdAt <= reached && (WaitsADayFrom(self, s, run, id, reached) <==> createdAt == reached)
  {
    var s, reached := InitialStore(admin), run[|run| - 1].now;
    var createdAt := After(self, s, run).parameterProposals[id].createdAt;
    EveryProposalWasMade(self, admin, run, id);
    var i: nat :| ProposedBy(self, s, run, i, After(self, s, run).parameterProposals[id]);
    if createdAt == reached {
      forall more, k | Timely(run + more) && |run| <= k && ExecutesParameter(self, s, run + more, k, id)
        ensures reached + GOVERNANCE_TIMELOCK_DELAY <= (run + more)[k].now
      {
        ExecutionWaits(self, admin, run, more, k, id);
      }
    } else {
      TooEarly(self, admin, run, id);
    }
  }

  /** A proposal executed in the same second it reaches its quorum. */
  function LateVote(): Run {
    [ Call(0, Configuring(9, [1, 2], 2)),
      Call(0, ProposingParameter(1, FeeBps, 50)),
      Call(86_400, Voting(2, 1)),
      Call(86_400, ExecutingParameter(1, 1)) ]
  }

  lemma LateVoteStates(self: Address)
    ensures var s, run := InitialStore(9), LateVote();
            var s1 := s.(multisig := Some(MultisigConfig(2, [1, 2])), nextParameterId := 2);
            var p := ParameterProposal(1, FeeBps, 50, 1, [1], 0, false);
            && At(self, s, run, 0) == s
            && At(self, s, run, 1) == s1.(nextParameterId := 1)
            && At(self, s, run, 2) == s1.(parameterProposals := map[1 := p])
            && At(self, s, run, 3) == s1.(parameterProposals := map[1 := p.(approvals := [1, 2])])
  {
    var s, run := InitialStore(9), LateVote();
    assert run[..0] == [];
    AtNext(self, s, run, 0);
    AtNext(self, s, run, 1);
    AtNext(self, s, run, 2);
    assert [1] + [2] == [1, 2];
  }

  lemma LateVoteReachesQuorum(self: Address)
    ensures ReachesQuorum(self, InitialStore(9), LateVote()[..3], 1)
  {
    var s, run := InitialStore(9), LateVote();
    LateVoteStates(self);
    forall i | 0 <= i < 3
      ensures !HasQuorum(At(self, s, run[..3], i), 1)
    {
      assert run[..3][..i] == run[..i];
      assert i == 0 || i == 1 || i == 2;
    }
  }

  lemma ExecutedAtItsQuorum(self: Address)
    ensures var s, run := InitialStore(9), LateVote();
            && Timely(run) && ReachesQuorum(self, s, run[..3], 1) && ExecutesParameter(self, s, run, 3, 1)
            && run[3].now == run[2].now
  {
    LateVoteReachesQuorum(self);
    LateVoteStates(self);
  }
}
