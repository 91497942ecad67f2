/** The treasury's money and settings over whole runs: who can take what, and when. */
module Custody {
  import opened Outcomes
  import opened Validation
  import opened Records
  import opened Treasury
  import opened WithdrawalLimit
  import Tokens = TokenLedger

  // ── When a call goes through ───────────────────────────────────────────────

  /** What was withdrawn under the cap in the epoch running at `now`. */
  ghost function SpentBy(now: nat, s: Store): int {
    if now - s.epochStart >= 86_400 then 0 else s.epochWithdrawn
  }

  ghost predicate TakeAdmitted(cfg: Config, now: nat, v: Vault, caller: Address, token: Address, amount: i128) {
    && caller == cfg.admin && 0 < amount <= MAX_AMOUNT && token in v.store.whitelist
    && (v.store.cap != 0 ==> SpentBy(now, v.store) + amount <= v.store.cap)
    && amount <= Tokens.Balance(v.tokens, token, cfg.treasury)
  }

  ghost predicate Admits(cfg: Config, now: nat, v: Vault, a: Action) {
    match a
    case SetFee(caller, bps) => caller == cfg.admin && bps <= 10_000
    case Whitelist(caller, _) => caller == cfg.admin
    case Collect(token, amount) =>
      && amount > 0 && token in v.store.whitelist
      && (if token in v.store.collected then v.store.collected[token] else 0) + amount <= I128_MAX
    case Take(caller, token, _, amount) => TakeAdmitted(cfg, now, v, caller, token, amount)
    case Drain(caller, token, _) => caller == cfg.admin && token in v.store.whitelist
    case Propose(caller, newCap) => caller == cfg.admin && newCap >= 0
    case Execute(caller) =>
      caller == cfg.admin && v.store.proposal.Some? && v.store.proposal.value.proposedAt + 86_400 <= now
    case Outside(_) => true
  }

  lemma StepCommitsExactly(cfg: Config, now: nat, v: Vault, a: Action)
    requires 0 <= v.store.cap && 0 <= v.store.epochWithdrawn
    ensures Apply(cfg, now, v, a).Ok? <==> Admits(cfg, now, v, a)
  {
  }

  /** After any run a call of the treasury goes through exactly when `Admits` says so. Only
      the admin withdraws, drains or changes a setting. */
  lemma CommitsExactly(cfg: Config, start: nat, v: Vault, run: Run, now: nat, a: Action)
    requires Initial(start, v) && Timely(start, run)
    ensures Apply(cfg, now, After(cfg, v, run), a).Ok? <==> Admits(cfg, now, After(cfg, v, run), a)
  {
    RunSound(cfg, start, v, run);
    StepCommitsExactly(cfg, now, After(cfg, v, run), a);
  }

  // ── What it moves ──────────────────────────────────────────────────────────

  /** `amount` of the token went from the treasury to the recipient, and nothing else moved. */
  ghost predicate PaidOut(cfg: Config, b: Balances, b': Balances, token: Address, recipient: Address, amount: int) {
    forall t, h :: Tokens.Balance(b', t, h) == Tokens.Balance(b, t, h)
      + (if t == token && h == recipient then amount else 0)
      - (if t == token && h == cfg.treasury then amount else 0)
  }

  /** A withdrawal pays its recipient exactly the amount, a drain everything there is; no other
      call of the treasury moves a token. */
  lemma MovesExactly(cfg: Config, now: nat, v: Vault, a: Action)
    requires Apply(cfg, now, v, a).Ok? && !a.Outside?
    ensures var b, b' := v.tokens, Apply(cfg, now, v, a).value.tokens;
            match a
            case Take(_, token, recipient, amount) => PaidOut(cfg, b, b', token, recipient, amount)
            case Drain(_, token, recipient) =>
              PaidOut(cfg, b, b', token, recipient, Tokens.Balance(b, token, cfg.treasury))
            case _ => b' == b
  {
  }

  /** What a call takes out of the treasury's balance of the token. */
  ghost function Leaving(cfg: Config, now: nat, v: Vault, a: Action, token: Address): int {
    match a
    case Take(caller, t, recipient, amount) =>
      if t == token && recipient != cfg.treasury && TakeAdmitted(cfg, now, v, caller, t, amount) then amount else 0
    case Drain(caller, t, recipient) =>
      if t == token && recipient != cfg.treasury && caller == cfg.admin && t in v.store.whitelist
      then Tokens.Balance(v.tokens, t, cfg.treasury) else 0
    case _ => 0
  }

  ghost function LeftIn(cfg: Config, v: Vault, run: Run, token: Address): int {
    if run == [] then 0 else
    var last, before := run[|run| - 1], run[..|run| - 1];
    LeftIn(cfg, v, before, token) + Leaving(cfg, last.now, After(cfg, v, before), last.action, token)
  }

  /** What happened to the treasury's balance outside its own calls. */
  ghost function BroughtIn(cfg: Config, v: Vault, run: Run, token: Address): int {
    if run == [] then 0 else
    var last, before := run[|run| - 1], run[..|run| - 1];
    BroughtIn(cfg, v, before, token) +
    (if last.action.Outside?
     then Tokens.Balance(last.action.tokens, token, cfg.treasury)
            - Tokens.Balance(After(cfg, v, before).tokens, token, cfg.treasury)
     else 0)
  }

  lemma BalanceStep(cfg: Config, now: nat, v: Vault, a: Action, token: Address)
    requires 0 <= v.store.cap && 0 <= v.store.epochWithdrawn && !a.Outside?
    ensures Tokens.Balance(Commit(v, Apply(cfg, now, v, a)).tokens, token, cfg.treasury)
         == Tokens.Balance(v.tokens, token, cfg.treasury) - Leaving(cfg, now, v, a, token)
  {
    StepCommitsExactly(cfg, now, v, a);
    if Apply(cfg, now, v, a).Ok? { MovesExactly(cfg, now, v, a); }
  }

  /** Over any run the treasury's balance of a token changes only by what happens outside it
      and by the admin's withdrawals and drains: it is the starting one plus the former less
      the latter. */
  lemma {:induction false} BalanceAccounted(cfg: Config, start: nat, v: Vault, run: Run, token: Address)
    requires Initial(start, v) && Timely(start, run)
    ensures Tokens.Balance(After(cfg, v, run).tokens, token, cfg.treasury)
         == Tokens.Balance(v.tokens, token, cfg.treasury) + BroughtIn(cfg, v, run, token) - LeftIn(cfg, v, run, token)
  {
    if run != [] {
      var last, before := run[|run| - 1], run[..|run| - 1];
      BalanceAccounted(cfg, start, v, before, token);
      RunSound(cfg, start, v, before);
      if !last.action.Outside? { BalanceStep(cfg, last.now, After(cfg, v, before), last.action, token); }
    }
  }

  // ── Settings and the fee ledger ────────────────────────────────────────────

  ghost function FeeInForce(cfg: Config, v: Vault, run: Run): int {
    if run == [] then v.store.feeBps else
    var last, before := run[|run| - 1].action, run[..|run| - 1];
    if last.SetFee? && last.caller == cfg.admin && last.bps <= 10_000 then last.bps else FeeInForce(cfg, v, before)
  }

  /** The admin accepted the token at some time; there is no way back. */
  ghost predicate EverAccepted(cfg: Config, run: Run, token: Address) {
    exists i | 0 <= i < |run| :: run[i].action == Whitelist(cfg.admin, token)
  }

  ghost function Shown(s: Store, token: Address): Option<int> {
    if token in s.collected then Some(s.collected[token]) else None
  }

  /** What a call makes of the fee ledger's entry for a token: collections are added,
      withdrawals taken off, down to the smallest number there is; drains are not entered. */
  ghost function Entered(cfg: Config, now: nat, v: Vault, a: Action, token: Address, shown: Option<int>): Option<int> {
    match a
    case Collect(t, amount) =>
      if t == token && Admits(cfg, now, v, a) then Some((if shown.Some? then shown.value else 0) + amount) else shown
    case Take(caller, t, _, amount) =>
      if t == token && shown.Some? && TakeAdmitted(cfg, now, v, caller, t, amount)
      then Some(if shown.value - amount < I128_MIN then I128_MIN else shown.value - amount) else shown
    case _ => shown
  }

  ghost function Ledger(cfg: Config, v: Vault, run: Run, token: Address): Option<int> {
    if run == [] then None else
    var last, before := run[|run| - 1], run[..|run| - 1];
    Entered(cfg, last.now, After(cfg, v, before), last.action, token, Ledger(cfg, v, before, token))
  }

  /** The cap change that waits for its day, if any. */
  ghost function Waiting(cfg: Config, v: Vault, run: Run): Option<CapProposal> {
    if run == [] then None else
    var last, before := run[|run| - 1], run[..|run| - 1];
    if !Admits(cfg, last.now, After(cfg, v, before), last.action) then Waiting(cfg, v, before)
    else if last.action.Propose? then Some(CapProposal(last.action.newCap, last.now))
    else if last.action.Execute? then None else Waiting(cfg, v, before)
  }

  /** The cap in force: none at first, then what the executed proposals asked for. */
  ghost function CapInForce(cfg: Config, v: Vault, run: Run): int {
    if run == [] then 0 else
    var last, before := run[|run| - 1], run[..|run| - 1];
    var waiting := Waiting(cfg, v, before);
    if last.action.Execute? && waiting.Some? && Admits(cfg, last.now, After(cfg, v, before), last.action)
    then waiting.value.newCap else CapInForce(cfg, v, before)
  }

  lemma CapStep(cfg: Config, now: nat, v: Vault, a: Action)
    requires 0 <= v.store.cap && 0 <= v.store.epochWithdrawn
    ensures var s, s' := v.store, Commit(v, Apply(cfg, now, v, a)).store;
            && s'.proposal == (if !Admits(cfg, now, v, a) then s.proposal
                               else if a.Propose? then Some(CapProposal(a.newCap, now))
                               else if a.Execute? then None else s.proposal)
            && s'.cap == (if a.Execute? && Admits(cfg, now, v, a) then s.proposal.value.newCap else s.cap)
  {
    StepCommitsExactly(cfg, now, v, a);
  }

  /** After every run the cap and the change waiting for its day are those. */
  lemma {:induction false} CapAccounted(cfg: Config, start: nat, v: Vault, run: Run)
    requires Initial(start, v) && Timely(start, run)
    ensures var s := After(cfg, v, run).store;
            s.cap == CapInForce(cfg, v, run) && s.proposal == Waiting(cfg, v, run)
  {
    if run != [] {
      var last, before := run[|run| - 1], run[..|run| - 1];
      CapAccounted(cfg, start, v, before);
      RunSound(cfg, start, v, before);
      CapStep(cfg, last.now, After(cfg, v, before), last.action);
    }
  }

  lemma SettingsStep(cfg: Config, now: nat, v: Vault, a: Action)
    requires 0 <= v.store.cap && 0 <= v.store.epochWithdrawn
    ensures var s, s' := v.store, Commit(v, Apply(cfg, now, v, a)).store;
            && s'.feeBps == (if a.SetFee? && a.caller == cfg.admin && a.bps <= 10_000 then a.bps else s.feeBps)
            && (forall t :: t in s'.whitelist <==> t in s.whitelist || a == Whitelist(cfg.admin, t))
  {
  }

  lemma LedgerStep(cfg: Config, now: nat, v: Vault, a: Action, token: Address)
    requires 0 <= v.store.cap && 0 <= v.store.epochWithdrawn
    ensures Shown(Commit(v, Apply(cfg, now, v, a)).store, token)
         == Entered(cfg, now, v, a, token, Shown(v.store, token))
  {
    StepCommitsExactly(cfg, now, v, a);
  }

  /** After every run the fee rate, the accepted tokens and the fee ledger are what the calls
      that went through made of them. */
  lemma {:induction false} SettingsAccounted(cfg: Config, start: nat, v: Vault, run: Run, token: Address)
    requires Initial(start, v) && Timely(start, run)
    ensures var s := After(cfg, v, run).store;
            && s.feeBps == FeeInForce(cfg, v, run)
            && (token in s.whitelist <==> EverAccepted(cfg, run, token))
            && Shown(s, token) == Ledger(cfg, v, run, token)
  {
    if run != [] {
      var last, before := run[|run| - 1], run[..|run| - 1];
      SettingsAccounted(cfg, start, v, before, token);
      RunSound(cfg, start, v, before);
      SettingsStep(cfg, last.now, After(cfg, v, before), last.action);
      LedgerStep(cfg, last.now, After(cfg, v, before), last.action, token);
      EverAcceptedNext(cfg, before, last, token);
      assert run == before + [last];
    }
  }

  lemma EverAcceptedNext(cfg: Config, run: Run, last: Call, token: Address)
    ensures EverAccepted(cfg, run + [last], token) <==>
              EverAccepted(cfg, run, token) || last.action == Whitelist(cfg.admin, token)
  {
    var longer := run + [last];
    if EverAccepted(cfg, run, token) {
      var i :| 0 <= i < |run| && run[i].action == Whitelist(cfg.admin, token);
      assert longer[i].action == Whitelist(cfg.admin, token);
    }
    assert longer[|run|] == last;
  }
}
