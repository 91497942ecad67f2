/** The treasury's limiter over whole runs: what `withdraw` can take within one epoch, within
    any 24 hours, and what the timelock on the cap guarantees. */
module WithdrawalLimit {
  import opened Outcomes
  import opened Validation
  import opened Records
  import opened Treasury
  import Tokens = TokenLedger

  const DAY: nat := EPOCH_DURATION

  datatype Action =
    | SetFee(caller: Address, bps: u32)
    | Whitelist(caller: Address, token: Address)
    | Collect(token: Address, amount: i128)
    | Take(caller: Address, token: Address, recipient: Address, amount: i128)
    | Drain(caller: Address, token: Address, recipient: Address)
    | Propose(caller: Address, newCap: i128)
    | Execute(caller: Address)
    /** Anything that happens to the token balances outside the treasury's own calls. */
    | Outside(tokens: Balances)

  datatype Call = Call(now: nat, action: Action)

  type Run = seq<Call>

  ghost function Apply(cfg: Config, now: nat, v: Vault, a: Action): Result<Vault> {
    match a
    case SetFee(caller, bps) => OnStore(v, SetFeeBps(cfg, v.store, caller, bps))
    case Whitelist(caller, token) => OnStore(v, WhitelistToken(cfg, v.store, caller, token))
    case Collect(token, amount) => OnStore(v, CollectFee(v.store, token, amount))
    case Take(caller, token, recipient, amount) => Withdraw(cfg, now, v, caller, token, recipient, amount)
    case Drain(caller, token, recipient) => EmergencyWithdraw(cfg, v, caller, token, recipient)
    case Propose(caller, newCap) => OnStore(v, ProposeCap(cfg, now, v.store, caller, newCap))
    case Execute(caller) => OnStore(v, ExecuteCap(cfg, now, v.store, caller))
    case Outside(tokens) => Ok(v.(tokens := tokens))
  }

  ghost function After(cfg: Config, v: Vault, run: Run): Vault {
    if run == [] then v else
    var last, before := run[|run| - 1], After(cfg, v, run[..|run| - 1]);
    Commit(before, Apply(cfg, last.now, before, last.action))
  }

  /** Call `i` of the run commits. */
  ghost predicate Commits(cfg: Config, v: Vault, run: Run, i: nat)
    requires i < |run|
  {
    Apply(cfg, run[i].now, After(cfg, v, run[..i]), run[i].action).Ok?
  }

  /** Ledger time never decreases, from the time of initialization on. */
  ghost predicate Timely(start: nat, run: Run) {
    && (forall i | 0 <= i < |run| :: start <= run[i].now)
    && (forall i, j | 0 <= i < j < |run| :: run[i].now <= run[j].now)
  }

  ghost function Clock(start: nat, run: Run): nat {
    if run == [] then start else run[|run| - 1].now
  }

  /** A treasury as `initialize` leaves it. */
  ghost predicate Initial(start: nat, v: Vault) {
    v.store == InitialStore(start, v.store.feeBps)
  }

  // ── What the limiter lets through ──────────────────────────────────────────

  /** What a call takes while a cap is in force. */
  ghost function Taken(cfg: Config, now: nat, v: Vault, a: Action): int {
    if a.Take? && v.store.cap != 0 && Apply(cfg, now, v, a).Ok? then a.amount else 0
  }

  /** Everything taken under a cap in the half-open window of 86_400 s that opens at `from`. */
  ghost function TakenInDay(cfg: Config, v: Vault, run: Run, from: nat): int {
    if run == [] then 0 else
    var last, before := run[|run| - 1], run[..|run| - 1];
    TakenInDay(cfg, v, before, from)
      + if from <= last.now < from + DAY then Taken(cfg, last.now, After(cfg, v, before), last.action) else 0
  }

  /** Everything taken under a cap while the epoch that started at `epoch` was running. */
  ghost function TakenInEpoch(cfg: Config, v: Vault, run: Run, epoch: nat): int {
    if run == [] then 0 else
    var last, before := run[|run| - 1], run[..|run| - 1];
    TakenInEpoch(cfg, v, before, epoch)
      + if After(cfg, v, run).store.epochStart == epoch
          then Taken(cfg, last.now, After(cfg, v, before), last.action) else 0
  }

  /** Nothing that was taken in the window was taken under a cap above `limit`. */
  ghost predicate DayCapsAtMost(cfg: Config, v: Vault, run: Run, from: nat, limit: int) {
    run == [] ||
    var last, before := run[|run| - 1], run[..|run| - 1];
    var w := After(cfg, v, before);
    && DayCapsAtMost(cfg, v, before, from, limit)
    && (from <= last.now < from + DAY && Taken(cfg, last.now, w, last.action) != 0 ==> w.store.cap <= limit)
  }

  /** Nothing that was taken in the epoch was taken under a cap above `limit`. */
  ghost predicate EpochCapsAtMost(cfg: Config, v: Vault, run: Run, epoch: nat, limit: int) {
    run == [] ||
    var last, before := run[|run| - 1], run[..|run| - 1];
    var w := After(cfg, v, before);
    && EpochCapsAtMost(cfg, v, before, epoch, limit)
    && (After(cfg, v, run).store.epochStart == epoch && Taken(cfg, last.now, w, last.action) != 0 ==>
         w.store.cap <= limit)
  }

  /** One more call. */
  lemma Next(cfg: Config, v: Vault, run: Run, i: nat, from: nat, limit: int)
    requires i < |run|
    ensures var w, call := After(cfg, v, run[..i]), run[i];
            && After(cfg, v, run[..i + 1]) == Commit(w, Apply(cfg, call.now, w, call.action))
            && TakenInDay(cfg, v, run[..i + 1], from) == TakenInDay(cfg, v, run[..i], from)
                 + (if from <= call.now < from + DAY then Taken(cfg, call.now, w, call.action) else 0)
            && (DayCapsAtMost(cfg, v, run[..i], from, limit) && w.store.cap <= limit ==>
                  DayCapsAtMost(cfg, v, run[..i + 1], from, limit))
  {
    assert run[..i + 1][..i] == run[..i];
  }

  /** What every committed withdrawal under a cap did to the epoch. */
  lemma TakeEffect(cfg: Config, now: nat, v: Vault, a: Action)
    requires Taken(cfg, now, v, a) != 0 && 0 <= v.store.epochWithdrawn
    ensures var s, s' := v.store, Apply(cfg, now, v, a).value.store;
            && s'.cap == s.cap && s'.proposal == s.proposal && 0 < a.amount
            && s'.epochWithdrawn <= s.cap
            && (if now - s.epochStart >= DAY then s'.epochStart == now && s'.epochWithdrawn == a.amount
                else s'.epochStart == s.epochStart && s'.epochWithdrawn == s.epochWithdrawn + a.amount)
  {
  }

  /** Nothing else touches the epoch. */
  lemma OtherEffect(cfg: Config, now: nat, v: Vault, a: Action)
    requires Taken(cfg, now, v, a) == 0
    ensures var s, s' := v.store, Commit(v, Apply(cfg, now, v, a)).store;
            s'.epochStart == s.epochStart && s'.epochWithdrawn == s.epochWithdrawn
  {
  }

  /** The limiter's books at time `now`: a proposal made while there was no cap was made after
      the running epoch started, and an epoch still running under a cap was opened by a
      withdrawal. */
  ghost predicate Sound(now: nat, s: Store) {
    && 0 <= s.cap && 0 <= s.epochWithdrawn && s.epochStart <= now
    && (s.proposal.Some? ==> 0 <= s.proposal.value.newCap && s.proposal.value.proposedAt <= now)
    && (s.proposal.Some? && s.cap == 0 ==> s.epochStart <= s.proposal.value.proposedAt)
    && (s.cap > 0 && now - s.epochStart < DAY ==> s.epochWithdrawn >= 1)
  }

  lemma SoundKept(cfg: Config, clock: nat, now: nat, v: Vault, a: Action)
    requires Sound(clock, v.store) && clock <= now
    ensures Sound(now, Commit(v, Apply(cfg, now, v, a)).store)
  {
    if Taken(cfg, now, v, a) != 0 { TakeEffect(cfg, now, v, a); } else { OtherEffect(cfg, now, v, a); }
  }

  lemma {:induction false} RunSound(cfg: Config, start: nat, v: Vault, run: Run)
    requires Initial(start, v) && Timely(start, run)
    ensures Sound(Clock(start, run), After(cfg, v, run).store)
  {
    if run != [] {
      var last, before := run[|run| - 1], run[..|run| - 1];
      RunSound(cfg, start, v, before);
      SoundKept(cfg, Clock(start, before), last.now, After(cfg, v, before), last.action);
    }
  }

  // ── One epoch ──────────────────────────────────────────────────────────────

  /** Within one epoch the limiter lets at most the largest cap in force at its withdrawals
      through, however often the cap changed, was removed or came back; the stored running
      total is exactly what the current epoch took. */
  lemma {:induction false} EpochBound(cfg: Config, start: nat, v: Vault, run: Run, epoch: nat, limit: int)
    requires Initial(start, v) && Timely(start, run) && 0 <= limit && EpochCapsAtMost(cfg, v, run, epoch, limit)
    ensures 0 <= TakenInEpoch(cfg, v, run, epoch) <= limit
    ensures var s := After(cfg, v, run).store;
            && (epoch == s.epochStart ==> TakenInEpoch(cfg, v, run, epoch) == s.epochWithdrawn)
            && (epoch > s.epochStart ==> TakenInEpoch(cfg, v, run, epoch) == 0)
  {
    if run != [] {
      var last, before := run[|run| - 1], run[..|run| - 1];
      var w := After(cfg, v, before);
      EpochBound(cfg, start, v, before, epoch, limit);
      RunSound(cfg, start, v, before);
      if Taken(cfg, last.now, w, last.action) != 0 { TakeEffect(cfg, last.now, w, last.action); }
      else { OtherEffect(cfg, last.now, w, last.action); }
    }
  }

  // ── Any 24 hours ───────────────────────────────────────────────────────────

  /** Within any 86_400 s the limiter lets at most twice the largest cap in force at the
      withdrawals of that window, less one, through, whatever the caps before it. */
  lemma DayBound(cfg: Config, start: nat, v: Vault, run: Run, from: nat, limit: int)
    requires Initial(start, v) && Timely(start, run) && 1 <= limit && DayCapsAtMost(cfg, v, run, from, limit)
    ensures 0 <= TakenInDay(cfg, v, run, from) <= 2 * limit - 1
  {
    DayInvariant(cfg, start, v, run, from, limit);
  }

  /** While the window is open: an epoch running since before it has already spent something
      outside it; an epoch opened inside it comes after at most one such epoch. */
  lemma {:induction false} DayInvariant(cfg: Config, start: nat, v: Vault, run: Run, from: nat, limit: int)
    requires Initial(start, v) && Timely(start, run) && 1 <= limit && DayCapsAtMost(cfg, v, run, from, limit)
    ensures var s, taken := After(cfg, v, run).store, TakenInDay(cfg, v, run, from);
            && 0 <= taken <= 2 * limit - 1
            && (Clock(start, run) < from ==> taken == 0)
            && (Clock(start, run) < from + DAY && s.epochStart < from ==>
                  taken == 0 || (taken < s.epochWithdrawn && taken < limit))
            && (Clock(start, run) < from + DAY && from <= s.epochStart ==>
                  taken <= limit - 1 + s.epochWithdrawn)
  {
    if run != [] {
      var last, before := run[|run| - 1], run[..|run| - 1];
      var w := After(cfg, v, before);
      DayInvariant(cfg, start, v, before, from, limit);
      RunSound(cfg, start, v, before);
      if Taken(cfg, last.now, w, last.action) != 0 { TakeEffect(cfg, last.now, w, last.action); }
      else { OtherEffect(cfg, last.now, w, last.action); }
    }
  }

  // ── The timelock on the cap ────────────────────────────────────────────────

  lemma ActivationIsFresh(cfg: Config, clock: nat, now: nat, v: Vault, a: Action)
    requires Sound(clock, v.store) && clock <= now
    requires v.store.cap == 0 && Commit(v, Apply(cfg, now, v, a)).store.cap != 0
    ensures now - Commit(v, Apply(cfg, now, v, a)).store.epochStart >= DAY
  {
  }

  lemma Append(cfg: Config, v: Vault, run: Run, last: Call)
    ensures After(cfg, v, run + [last]) == Commit(After(cfg, v, run),
        Apply(cfg, last.now, After(cfg, v, run), last.action))
  {
    assert (run + [last])[..|run|] == run;
  }

  /** When a cap comes into force where there was none, the running epoch has expired: the
      first withdrawal under the new cap starts from zero. */
  lemma CapStartsAFreshEpoch(cfg: Config, start: nat, v: Vault, run: Run, last: Call)
    requires Initial(start, v) && Timely(start, run) && Clock(start, run) <= last.now
    requires After(cfg, v, run).store.cap == 0 && After(cfg, v, run + [last]).store.cap != 0
    ensures last.now - After(cfg, v, run + [last]).store.epochStart >= DAY
  {
    Append(cfg, v, run, last);
    RunSound(cfg, start, v, run);
    ActivationIsFresh(cfg, Clock(start, run), last.now, After(cfg, v, run), last.action);
  }

  /** Call `j` is the proposal of `p`, and no later call proposed another. */
  ghost predicate ProposedAt(cfg: Config, v: Vault, run: Run, j: nat, p: CapProposal) {
    && j < |run| && Commits(cfg, v, run, j)
    && run[j].action.Propose? && run[j].action.newCap == p.newCap && run[j].now == p.proposedAt
    && (forall k | j < k < |run| :: run[k].action.Propose? ==> !Commits(cfg, v, run, k))
  }

  lemma ProposedStays(cfg: Config, v: Vault, run: Run, last: Call, j: nat, p: CapProposal)
    requires ProposedAt(cfg, v, run, j, p)
    requires last.action.Propose? ==> Apply(cfg, last.now, After(cfg, v, run), last.action).Err?
    ensures ProposedAt(cfg, v, run + [last], j, p)
  {
    var longer := run + [last];
    forall k | j <= k <= |run|
      ensures longer[..k] == run[..k] && longer[k] == if k < |run| then run[k] else last
    {
    }
    assert run[..|run|] == run;
  }

  /** A proposal appears only by being proposed. */
  lemma ProposalEffect(cfg: Config, now: nat, v: Vault, a: Action)
    ensures var r := Apply(cfg, now, v, a);
            var proposal := Commit(v, r).store.proposal;
            if a.Propose? && r.Ok? then proposal == Some(CapProposal(a.newCap, now))
            else proposal.Some? ==> proposal == v.store.proposal
  {
  }

  lemma {:induction false} PendingWasProposed(cfg: Config, start: nat, v: Vault, run: Run)
    requires Initial(start, v) && After(cfg, v, run).store.proposal.Some?
    ensures exists j :: ProposedAt(cfg, v, run, j, After(cfg, v, run).store.proposal.value)
  {
    var last, before := run[|run| - 1], run[..|run| - 1];
    var w, p := After(cfg, v, before), After(cfg, v, run).store.proposal.value;
    ProposalEffect(cfg, last.now, w, last.action);
    if last.action.Propose? && Apply(cfg, last.now, w, last.action).Ok? {
      assert ProposedAt(cfg, v, run, |run| - 1, p);
    } else {
      PendingWasProposed(cfg, start, v, before);
      var j: nat :| ProposedAt(cfg, v, before, j, p);
      ProposedStays(cfg, v, before, last, j, p);
      assert run == before + [last];
    }
  }

  lemma CapEffect(cfg: Config, now: nat, v: Vault, a: Action)
    requires Commit(v, Apply(cfg, now, v, a)).store.cap != v.store.cap
    ensures a.Execute? && a.caller == cfg.admin && v.store.proposal.Some?
    ensures v.store.proposal.value.newCap == Commit(v, Apply(cfg, now, v, a)).store.cap
    ensures v.store.proposal.value.proposedAt + UPGRADE_TIMELOCK_DELAY <= now
  {
  }

  /** A cap changes only to what the latest proposal asked for, made a full day before. */
  lemma CapChangesWait(cfg: Config, start: nat, v: Vault, run: Run, last: Call)
    requires Initial(start, v)
    requires After(cfg, v, run + [last]).store.cap != After(cfg, v, run).store.cap
    ensures last.action.Execute? && last.action.caller == cfg.admin
    ensures exists j, p :: ProposedAt(cfg, v, run, j, p)
              && p.newCap == After(cfg, v, run + [last]).store.cap
              && p.proposedAt + UPGRADE_TIMELOCK_DELAY <= last.now
  {
    Append(cfg, v, run, last);
    CapEffect(cfg, last.now, After(cfg, v, run), last.action);
    PendingWasProposed(cfg, start, v, run);
  }

  // ── The day bound is reached ───────────────────────────────────────────────

  /** One unit opens an epoch and the rest of the cap goes at its last second, in two parts
      as no withdrawal may exceed `MAX_AMOUNT`; the treasury is refilled, and one second
      later a full cap goes. */
  function Burst(cfg: Config, token: Address, recipient: Address, cap: i128, tokens: Balances): Run
    requires cap >= 2
  {
    [ Call(0, Whitelist(cfg.admin, token)),
      Call(0, Propose(cfg.admin, cap)),
      Call(DAY, Execute(cfg.admin)),
      Call(DAY, Take(cfg.admin, token, recipient, 1)),
      Call(2 * DAY - 1, Take(cfg.admin, token, recipient, cap / 2)),
      Call(2 * DAY - 1, Take(cfg.admin, token, recipient, (cap - 1) / 2)),
      Call(2 * DAY, Outside(tokens)),
      Call(2 * DAY, Take(cfg.admin, token, recipient, 1)),
      Call(2 * DAY, Take(cfg.admin, token, recipient, cap / 2)),
      Call(2 * DAY, Take(cfg.admin, token, recipient, (cap - 1) / 2)) ]
  }

  lemma BurstSetsUp(cfg: Config, v: Vault, token: Address, recipient: Address, cap: i128, tokens: Balances)
    requires cap >= 2 && Initial(0, v)
    ensures var run := Burst(cfg, token, recipient, cap, tokens);
            && After(cfg, v, run[..1]) == v.(store := v.store.(whitelist := {token}))
            && After(cfg, v, run[..2]) == v.(store := v.store.(whitelist := {token},
                 proposal := Some(CapProposal(cap, 0))))
            && After(cfg, v, run[..3]) == v.(store := v.store.(whitelist := {token}, cap := cap))
            && TakenInDay(cfg, v, run[..3], DAY + 1) == 0
            && DayCapsAtMost(cfg, v, run[..3], DAY + 1, cap)
  {
    var run := Burst(cfg, token, recipient, cap, tokens);
    assert run[..0] == [];
    Next(cfg, v, run, 0, DAY + 1, cap);
    assert {} + {token} == {token};
    Next(cfg, v, run, 1, DAY + 1, cap);
    Next(cfg, v, run, 2, DAY + 1, cap);
  }

  /** The limiter lets a withdrawal through, of a token nothing was collected in; one of
      nothing is refused and changes nothing. */
  lemma Withdraws(cfg: Config, now: nat, v: Vault, token: Address, recipient: Address, amount: i128)
    requires 0 <= amount <= MAX_AMOUNT && amount <= Tokens.Balance(v.tokens, token, cfg.treasury)
    requires token in v.store.whitelist && token !in v.store.collected && recipient != cfg.treasury
    requires v.store.cap > 0 && v.store.epochWithdrawn >= 0 && (amount == 0 ==> now - v.store.epochStart < DAY)
    requires RollEpoch(now, v.store).epochWithdrawn + amount <= v.store.cap
    ensures var a, rolled := Take(cfg.admin, token, recipient, amount), RollEpoch(now, v.store);
            var after := Commit(v, Apply(cfg, now, v, a));
            && after.store == rolled.(epochWithdrawn := rolled.epochWithdrawn + amount)
            && Tokens.Balance(after.tokens, token, cfg.treasury)
                 == Tokens.Balance(v.tokens, token, cfg.treasury) - amount
            && Taken(cfg, now, v, a) == amount
  {
  }

  /** Call `i` of the burst withdraws `amount`: the totals before and after it. */
  lemma BurstTake(cfg: Config, v: Vault, run: Run, i: nat, token: Address, recipient: Address, amount: i128,
                  limit: int)
    requires i < |run| && run[i].action == Take(cfg.admin, token, recipient, amount)
    requires var w, now := After(cfg, v, run[..i]), run[i].now;
             && 0 <= amount <= MAX_AMOUNT && amount <= Tokens.Balance(w.tokens, token, cfg.treasury)
             && token in w.store.whitelist && token !in w.store.collected && recipient != cfg.treasury
             && 0 < w.store.cap <= limit && w.store.epochWithdrawn >= 0
             && (amount == 0 ==> now - w.store.epochStart < DAY)
             && RollEpoch(now, w.store).epochWithdrawn + amount <= w.store.cap
    requires DayCapsAtMost(cfg, v, run[..i], DAY + 1, limit)
    ensures var w, now, after := After(cfg, v, run[..i]), run[i].now, After(cfg, v, run[..i + 1]);
            var rolled := RollEpoch(now, w.store);
            && after.store == rolled.(epochWithdrawn := rolled.epochWithdrawn + amount)
            && Tokens.Balance(after.tokens, token, cfg.treasury)
                 == Tokens.Balance(w.tokens, token, cfg.treasury) - amount
            && TakenInDay(cfg, v, run[..i + 1], DAY + 1) == TakenInDay(cfg, v, run[..i], DAY + 1)
                 + (if DAY + 1 <= now < DAY + 1 + DAY then amount else 0)
            && DayCapsAtMost(cfg, v, run[..i + 1], DAY + 1, limit)
  {
    Withdraws(cfg, run[i].now, After(cfg, v, run[..i]), token, recipient, amount);
    Next(cfg, v, run, i, DAY + 1, limit);
  }

  /** Three withdrawals take a full cap, once the epoch has expired. */
  lemma FullCap(cfg: Config, v: Vault, run: Run, i: nat, first: nat, later: nat, token: Address,
                recipient: Address, cap: i128)
    requires i + 3 <= |run| && cap >= 2 && recipient != cfg.treasury && first <= later < first + DAY
    requires run[i] == Call(first, Take(cfg.admin, token, recipient, 1))
    requires run[i + 1] == Call(later, Take(cfg.admin, token, recipient, cap / 2))
    requires run[i + 2] == Call(later, Take(cfg.admin, token, recipient, (cap - 1) / 2))
    requires var w := After(cfg, v, run[..i]);
             && Tokens.Balance(w.tokens, token, cfg.treasury) == cap && w.store.cap == cap
             && token in w.store.whitelist && token !in w.store.collected
             && w.store.epochStart + DAY <= first && w.store.epochWithdrawn >= 0
    requires DayCapsAtMost(cfg, v, run[..i], DAY + 1, cap)
    ensures After(cfg, v, run[..i + 3]).store
         == After(cfg, v, run[..i]).store.(epochStart := first, epochWithdrawn := cap)
    ensures Tokens.Balance(After(cfg, v, run[..i + 3]).tokens, token, cfg.treasury) == 0
    ensures TakenInDay(cfg, v, run[..i + 3], DAY + 1) == TakenInDay(cfg, v, run[..i], DAY + 1)
      + (if DAY + 1 <= first < DAY + 1 + DAY then 1 else 0) + (if DAY + 1 <= later < DAY + 1 + DAY then cap - 1 else 0)
    ensures DayCapsAtMost(cfg, v, run[..i + 3], DAY + 1, cap)
  {
    BurstTake(cfg, v, run, i, token, recipient, 1, cap);
    BurstTake(cfg, v, run, i + 1, token, recipient, cap / 2, cap);
    BurstTake(cfg, v, run, i + 2, token, recipient, (cap - 1) / 2, cap);
  }

  lemma FirstEpoch(cfg: Config, v: Vault, token: Address, recipient: Address, cap: i128, tokens: Balances)
    requires cap >= 2 && recipient != cfg.treasury && Initial(0, v)
    requires Tokens.Balance(v.tokens, token, cfg.treasury) == cap
    ensures var run, s := Burst(cfg, token, recipient, cap, tokens), v.store.(whitelist := {token}, cap := cap);
            && After(cfg, v, run[..6]).store == s.(epochStart := DAY, epochWithdrawn := cap)
            && TakenInDay(cfg, v, run[..6], DAY + 1) == cap - 1
            && DayCapsAtMost(cfg, v, run[..6], DAY + 1, cap)
  {
    var run := Burst(cfg, token, recipient, cap, tokens);
    BurstSetsUp(cfg, v, token, recipient, cap, tokens);
    FullCap(cfg, v, run, 3, DAY, 2 * DAY - 1, token, recipient, cap);
  }

  lemma Refilled(cfg: Config, v: Vault, token: Address, recipient: Address, cap: i128, tokens: Balances)
    requires cap >= 2 && recipient != cfg.treasury && Initial(0, v)
    requires Tokens.Balance(v.tokens, token, cfg.treasury) == cap
    ensures var run, s := Burst(cfg, token, recipient, cap, tokens), v.store.(whitelist := {token}, cap := cap);
            && After(cfg, v, run[..7]) == Vault(s.(epochStart := DAY, epochWithdrawn := cap), tokens)
            && TakenInDay(cfg, v, run[..7], DAY + 1) == cap - 1
            && DayCapsAtMost(cfg, v, run[..7], DAY + 1, cap)
  {
    FirstEpoch(cfg, v, token, recipient, cap, tokens);
    Next(cfg, v, Burst(cfg, token, recipient, cap, tokens), 6, DAY + 1, cap);
  }

  lemma BurstTimely(cfg: Config, token: Address, recipient: Address, cap: i128, tokens: Balances)
    requires cap >= 2
    ensures Timely(0, Burst(cfg, token, recipient, cap, tokens))
  {
  }

  /** The cap is not a rolling 24-hour limit, as the documentation has it: with any cap of at
      least 2, twice the cap less one leaves the treasury within 86_400 s. */
  lemma DayBoundReached(cfg: Config, token: Address, recipient: Address, cap: i128, tokens: Balances)
    requires cap >= 2 && recipient != cfg.treasury && Tokens.Balance(tokens, token, cfg.treasury) == cap
    ensures var v, run := Vault(InitialStore(0, 0), tokens), Burst(cfg, token, recipient, cap, tokens);
            && Initial(0, v) && Timely(0, run) && DayCapsAtMost(cfg, v, run, DAY + 1, cap)
            && TakenInDay(cfg, v, run, DAY + 1) == 2 * cap - 1
            && Tokens.Balance(After(cfg, v, run).tokens, token, cfg.treasury) == 0
  {
    var v, run := Vault(InitialStore(0, 0), tokens), Burst(cfg, token, recipient, cap, tokens);
    Refilled(cfg, v, token, recipient, cap, tokens);
    FullCap(cfg, v, run, 7, 2 * DAY, 2 * DAY, token, recipient, cap);
    BurstTimely(cfg, token, recipient, cap, tokens);
    assert run[..10] == run;
  }

  /** No window takes more than the cap, where nothing is taken under a higher one. */
  ghost predicate HoldsAllDay(cfg: Config, start: nat, v: Vault, run: Run, from: nat, cap: int) {
    Initial(start, v) && Timely(start, run) && DayCapsAtMost(cfg, v, run, from, cap) ==>
      TakenInDay(cfg, v, run, from) <= cap
  }

  /** A cap bounds what is taken in every 24 hours of every run, as the documentation has it,
      exactly when it is at most 1. */
  lemma RollingExactly(cfg: Config, token: Address, recipient: Address, cap: i128)
    requires 1 <= cap && recipient != cfg.treasury
    ensures (forall start, v, run, from :: HoldsAllDay(cfg, start, v, run, from, cap)) <==> cap <= 1
  {
    if cap <= 1 {
      forall start, v, run, from
        ensures HoldsAllDay(cfg, start, v, run, from, cap)
      {
        if Initial(start, v) && Timely(start, run) && DayCapsAtMost(cfg, v, run, from, cap) {
          DayBound(cfg, start, v, run, from, cap);
        }
      }
    } else {
      var tokens: Balances := map[(token, cfg.treasury) := cap];
      var v, run := Vault(InitialStore(0, 0), tokens), Burst(cfg, token, recipient, cap, tokens);
      DayBoundReached(cfg, token, recipient, cap, tokens);
      assert !HoldsAllDay(cfg, 0, v, run, DAY + 1, cap);
    }
  }

  // ── The drain ──────────────────────────────────────────────────────────────

  /** A drain takes everything the treasury holds of a token and is not counted, although the
      documentation has it subject to the cap. While a cap is in force it takes no more than
      a withdrawal could exactly when the balance is within what is left of the epoch, and
      within the ceiling on any one withdrawal. */
  lemma DrainStaysWithinCapExactly(cfg: Config, now: nat, v: Vault, token: Address, recipient: Address)
    requires token in v.store.whitelist && recipient != cfg.treasury
    requires v.store.cap > 0 && v.store.epochWithdrawn >= 0
    requires 0 < Tokens.Balance(v.tokens, token, cfg.treasury) <= I128_MAX
    ensures var held, r := Tokens.Balance(v.tokens, token, cfg.treasury),
        EmergencyWithdraw(cfg, v, cfg.admin, token, recipient);
            && r.Ok? && r.value.store == v.store
            && Tokens.Balance(r.value.tokens, token, cfg.treasury) == 0
            && (Withdraw(cfg, now, v, cfg.admin, token, recipient, held).Ok? <==>
                  held <= v.store.cap - RollEpoch(now, v.store).epochWithdrawn && held <= MAX_AMOUNT)
  {
  }

  /** A drain in the second the cap comes into force, of more than the cap. */
  lemma DrainExceedsCap(cfg: Config, token: Address, recipient: Address, cap: i128, tokens: Balances)
    requires 2 <= cap && recipient != cfg.treasury && Tokens.Balance(tokens, token, cfg.treasury) > cap
    ensures var v, run := Vault(InitialStore(0, 0), tokens), Burst(cfg, token, recipient, cap, tokens)[..3];
            var w, drain := After(cfg, v, run), Call(DAY, Drain(cfg.admin, token, recipient));
            && w.store.cap == cap && w.tokens == tokens
            && Tokens.Balance(After(cfg, v, run + [drain]).tokens, token, cfg.treasury) == 0
  {
    var v, run := Vault(InitialStore(0, 0), tokens), Burst(cfg, token, recipient, cap, tokens)[..3];
    BurstSetsUp(cfg, v, token, recipient, cap, tokens);
    Append(cfg, v, run, Call(DAY, Drain(cfg.admin, token, recipient)));
  }
}
