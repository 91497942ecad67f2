/** What the coupling of the three records gives over whole runs: the lifecycle of an
    invoice, one distribution per invoice, and repayments that make progress. */
module Lifecycle {
  import opened Validation
  import opened BasisPoints
  import opened Records
  import opened Protocol
  import opened Effects
  import opened Coupling
  import Oracle = PriceOracle
  import Pools = PoolSpec

  // ── The three records ──────────────────────────────────────────────────────

  lemma InitialCoupled(w: World)
    requires Initial(w)
    ensures Coupled(w)
  {
  }

  /** In every reachable state the listing and the pool of an invoice are what its status
      says, and the three records agree on its face value. */
  lemma ThreeRecords(cfg: Config, w0: World, run: Run, id: Id)
    requires Initial(w0)
    ensures var w := After(cfg, w0, run);
            var invoices, listings, pools := w.core.nft.invoices, w.market.listings, w.core.pool.pools;
            && (id in invoices ==>
                  var status := invoices[id].status;
                  && (status == Created <==> id !in listings)
                  && (status == Listed <==> id in listings && listings[id].fundedAmount < listings[id].askingPrice)
                  && (PoolStatus(status) <==> id in listings && listings[id].fundedAmount == listings[id].askingPrice)
                  && (PoolStatus(status) <==> id in pools)
                  && (id in pools ==> (pools[id].isClosed <==> status == Repaid)))
            && (id !in invoices ==> id !in listings && id !in pools)
            && (id in listings ==> listings[id].faceValue == invoices[id].terms.amount)
            && (id in pools ==>
                  pools[id].faceValue == invoices[id].terms.amount && pools[id].token == listings[id].token)
  {
    InitialCoupled(w0);
    RunKeeps(cfg, w0, run);
    assert CoupledAt(After(cfg, w0, run), id);
  }

  /** `release_funds` does not check which contract calls it. Called outside `fund_invoice`
      on coupled records, it either fails or uncouples them. */
  lemma ReleaseOutsideFunding(cfg: Config, env: Env, w: World, id: Id, token: Address)
    requires Coupled(w) && Pools.ReleaseFunds(cfg, env, w.core, id, token).Ok?
    ensures !Coupled(w.(core := Pools.ReleaseFunds(cfg, env, w.core, id, token).value))
  {
    assert CoupledAt(w, id);
    assert !CoupledAt(w.(core := Pools.ReleaseFunds(cfg, env, w.core, id, token).value), id);
  }

  /** No lock outlives the invocation that took it. */
  lemma NoLockLeftBehind(cfg: Config, w0: World, run: Run)
    requires Initial(w0)
    ensures After(cfg, w0, run).core.pool.locks == {}
  {
    InitialCoupled(w0);
    RunKeeps(cfg, w0, run);
  }

  // ── The lifecycle of an invoice ────────────────────────────────────────────

  /** The documented lifecycle: Created, Listed, Funded, then Repaid or Defaulted. */
  ghost predicate Arrow(from: InvoiceStatus, to: InvoiceStatus) {
    || from == to
    || (from == Created && to == Listed)
    || (from == Listed && to == Funded)
    || (from == Funded && (to == Repaid || to == Defaulted))
  }

  ghost predicate FollowsArrows(nft: NftStore, nft': NftStore, id: Id) {
    id in nft.invoices ==>
      if id in nft'.invoices then Arrow(nft.invoices[id].status, nft'.invoices[id].status)
      else nft.invoices[id].status == Created
  }

  lemma NftArrows(cfg: Config, env: Env, w: World, w': World, a: Action, id: Id)
    requires Coupled(w) && Effect(cfg, env, w, w', a) && IsNft(a)
    ensures FollowsArrows(w.core.nft, w'.core.nft, id)
  {
    assert CoupledAt(w, id);
  }

  lemma PoolArrows(cfg: Config, env: Env, w: World, w': World, a: Action, id: Id)
    requires Effect(cfg, env, w, w', a) && IsPool(a)
    ensures FollowsArrows(w.core.nft, w'.core.nft, id)
  {
  }

  lemma MarketArrows(cfg: Config, env: Env, w: World, w': World, a: Action, id: Id)
    requires Effect(cfg, env, w, w', a) && !IsPool(a) && !IsNft(a)
    ensures FollowsArrows(w.core.nft, w'.core.nft, id)
  {
  }

  /** Whatever anybody calls, a status moves only along the lifecycle, and only a Created
      invoice can be withdrawn. */
  lemma StatusFollowsLifecycle(cfg: Config, env: Env, w: World, a: Action, id: Id)
    requires Coupled(w)
    ensures FollowsArrows(w.core.nft, Step(cfg, env, w, a).core.nft, id)
  {
    if Commits(cfg, env, w, a) {
      var w' := Step(cfg, env, w, a);
      HasEffect(cfg, env, w, a);
      if IsNft(a) { NftArrows(cfg, env, w, w', a, id); }
      else if IsPool(a) { PoolArrows(cfg, env, w, w', a, id); }
      else { MarketArrows(cfg, env, w, w', a, id); }
    }
  }

  // ── Single distribution ────────────────────────────────────────────────────

  /** The call commits and distributes what was repaid on the invoice. */
  ghost predicate DistributesFor(cfg: Config, env: Env, w: World, a: Action, id: Id) {
    Commits(cfg, env, w, a) && Distributes(env, w.core, a) && a.id == id
  }

  ghost predicate Terminal(w: World, id: Id) {
    HasStatus(w.core.nft, id, Repaid) || HasStatus(w.core.nft, id, Defaulted)
  }

  /** Each of the three distributing paths is atomic with the invoice leaving Funded. */
  lemma DistributionLeavesFunded(cfg: Config, env: Env, w: World, a: Action, id: Id)
    requires DistributesFor(cfg, env, w, a, id)
    ensures HasStatus(w.core.nft, id, Funded) && Terminal(Step(cfg, env, w, a), id)
  {
    HasEffect(cfg, env, w, a);
  }

  lemma TerminalStays(cfg: Config, env: Env, w: World, a: Action, id: Id)
    requires Coupled(w) && Terminal(w, id)
    ensures Terminal(Step(cfg, env, w, a), id)
  {
    StatusFollowsLifecycle(cfg, env, w, a, id);
  }

  lemma {:induction false} TerminalForever(cfg: Config, w0: World, run: Run, i: nat, j: nat, id: Id)
    requires Coupled(w0) && i <= j <= |run| && Terminal(Before(cfg, w0, run, i), id)
    ensures Terminal(Before(cfg, w0, run, j), id)
    decreases j
  {
    if i < j {
      TerminalForever(cfg, w0, run, i, j - 1, id);
      RunKeeps(cfg, w0, run[..j - 1]);
      BeforeStep(cfg, w0, run, j - 1);
      TerminalStays(cfg, run[j - 1].env, Before(cfg, w0, run, j - 1), run[j - 1].action, id);
    }
  }

  /** Over any run, an invoice's repayments are distributed at most once, although a default
      leaves the pool's closed flag unset. */
  lemma SingleDistribution(cfg: Config, w0: World, run: Run, i: nat, j: nat, id: Id)
    requires Initial(w0) && i < j < |run|
    requires DistributesFor(cfg, run[i].env, Before(cfg, w0, run, i), run[i].action, id)
    ensures !DistributesFor(cfg, run[j].env, Before(cfg, w0, run, j), run[j].action, id)
  {
    InitialCoupled(w0);
    RunKeeps(cfg, w0, run[..i]);
    BeforeStep(cfg, w0, run, i);
    DistributionLeavesFunded(cfg, run[i].env, Before(cfg, w0, run, i), run[i].action, id);
    TerminalForever(cfg, w0, run, i + 1, j, id);
    RunKeeps(cfg, w0, run[..j]);
    if DistributesFor(cfg, run[j].env, Before(cfg, w0, run, j), run[j].action, id) {
      DistributionLeavesFunded(cfg, run[j].env, Before(cfg, w0, run, j), run[j].action, id);
    }
  }

  // ── Penalty and progress ───────────────────────────────────────────────────

  /** The one-time penalty of a pool, 0 when it cannot be computed. */
  ghost function Penalty(p: Pool): int {
    match BpsOf(p.faceValue, p.latePenaltyBps)
    case Ok(v) => v
    case Err(_) => 0
  }

  ghost predicate OwedRight(cfg: Config, p: Pool) {
    && p.latePenaltyBps == cfg.latePenaltyBps
    && 0 < p.faceValue <= MAX_AMOUNT
    && p.totalOwed == p.faceValue + (if p.penaltyApplied then Penalty(p) else 0)
    && 0 <= p.repaidAmount
    && (!p.isClosed ==> p.repaidAmount < p.totalOwed)
  }

  ghost predicate AllOwedRight(cfg: Config, w: World) {
    forall id | id in w.core.pool.pools :: OwedRight(cfg, w.core.pool.pools[id])
  }

  /** What a pool can still be credited: 0 once it is closed. */
  ghost function Potential(p: Pool): int {
    if p.isClosed then 0 else p.faceValue + Penalty(p) - p.repaidAmount
  }

  lemma CreditedProgress(cfg: Config, env: Env, invoice: Invoice, p: Pool, amount: i128)
    requires OwedRight(cfg, p) && !p.isClosed && amount > 0
    requires Pools.Credited(env, invoice, p, amount).Ok?
    ensures var q := Pools.Credited(env, invoice, p, amount).value;
            && OwedRight(cfg, q)
            && (p.penaltyApplied ==> q.penaltyApplied)
            && q.repaidAmount > p.repaidAmount
            && 0 <= Potential(q) < Potential(p)
  {
    Oracle.ConvertExact(env.prices, env.now, amount, invoice.currency, USDC);
    BpsOfExact(p.faceValue, p.latePenaltyBps);
  }

  lemma AmountsStep(cfg: Config, env: Env, w: World, a: Action, id: Id)
    requires Coupled(w) && AllOwedRight(cfg, w) && id in w.core.pool.pools
    ensures var pools' := Step(cfg, env, w, a).core.pool.pools;
            && id in pools' && OwedRight(cfg, pools'[id])
            && 0 <= Potential(pools'[id]) <= Potential(w.core.pool.pools[id])
            && (a.Repay? && a.id == id && Commits(cfg, env, w, a) ==>
                Potential(pools'[id]) < Potential(w.core.pool.pools[id]))
  {
    var p := w.core.pool.pools[id];
    BpsOfExact(p.faceValue, p.latePenaltyBps);
    if Commits(cfg, env, w, a) {
      HasEffect(cfg, env, w, a);
      AmountsKept(cfg, env, w, Step(cfg, env, w, a), a, id);
    }
  }

  lemma AmountsKept(cfg: Config, env: Env, w: World, w': World, a: Action, id: Id)
    requires Coupled(w) && AllOwedRight(cfg, w) && id in w.core.pool.pools && Effect(cfg, env, w, w', a)
    ensures var pools' := w'.core.pool.pools;
            && id in pools' && OwedRight(cfg, pools'[id])
            && 0 <= Potential(pools'[id]) <= Potential(w.core.pool.pools[id])
            && (a.Repay? && a.id == id ==> Potential(pools'[id]) < Potential(w.core.pool.pools[id]))
  {
    BpsOfExact(w.core.pool.pools[id].faceValue, w.core.pool.pools[id].latePenaltyBps);
    if a.Repay? && a.id == id { RepayAmounts(cfg, env, w, w', a); }
    else if a.AcceptBuyout? && a.id == id { AcceptAmounts(cfg, env, w, w', a); }
    else if IsPool(a) { PoolUntouched(cfg, env, w, w', a, id); }
    else { PoolUntouchedElsewhere(cfg, env, w, w', a, id); }
  }

  lemma RepayAmounts(cfg: Config, env: Env, w: World, w': World, a: Action)
    requires a.Repay? && Effect(cfg, env, w, w', a) && OwedRight(cfg, w.core.pool.pools[a.id])
    ensures var pools' := w'.core.pool.pools;
            && a.id in pools' && OwedRight(cfg, pools'[a.id])
            && 0 <= Potential(pools'[a.id]) < Potential(w.core.pool.pools[a.id])
  {
    CreditedProgress(cfg, env, w.core.nft.invoices[a.id], w.core.pool.pools[a.id], a.amount);
  }

  lemma AcceptAmounts(cfg: Config, env: Env, w: World, w': World, a: Action)
    requires a.AcceptBuyout? && Coupled(w) && Effect(cfg, env, w, w', a) && OwedRight(cfg, w.core.pool.pools[a.id])
    ensures var pools' := w'.core.pool.pools;
            && a.id in pools' && OwedRight(cfg, pools'[a.id])
            && 0 <= Potential(pools'[a.id]) <= Potential(w.core.pool.pools[a.id])
  {
    assert CoupledAt(w, a.id);
    BpsOfExact(w.core.pool.pools[a.id].faceValue, w.core.pool.pools[a.id].latePenaltyBps);
  }

  lemma PoolUntouched(cfg: Config, env: Env, w: World, w': World, a: Action, id: Id)
    requires id in w.core.pool.pools && Effect(cfg, env, w, w', a) && IsPool(a)
    requires !((a.Repay? || a.AcceptBuyout?) && a.id == id)
    ensures id in w'.core.pool.pools && w'.core.pool.pools[id] == w.core.pool.pools[id]
  {
  }

  lemma PoolUntouchedElsewhere(cfg: Config, env: Env, w: World, w': World, a: Action, id: Id)
    requires id in w.core.pool.pools && Effect(cfg, env, w, w', a) && !IsPool(a)
    ensures id in w'.core.pool.pools && w'.core.pool.pools[id] == w.core.pool.pools[id]
  {
  }

  lemma AmountsKeep(cfg: Config, env: Env, w: World, w': World, a: Action)
    requires Coupled(w) && AllOwedRight(cfg, w) && Effect(cfg, env, w, w', a)
    ensures AllOwedRight(cfg, w')
  {
    forall id | id in w'.core.pool.pools
      ensures OwedRight(cfg, w'.core.pool.pools[id])
    {
      if id in w.core.pool.pools { AmountsKept(cfg, env, w, w', a, id); }
    }
  }

  lemma {:induction false} AmountsOverRun(cfg: Config, w: World, run: Run)
    requires Coupled(w) && AllOwedRight(cfg, w)
    ensures AllOwedRight(cfg, After(cfg, w, run))
  {
    if run != [] {
      var last, earlier := run[|run| - 1], run[..|run| - 1];
      AmountsOverRun(cfg, w, earlier);
      RunKeeps(cfg, w, earlier);
      var before := After(cfg, w, earlier);
      if Commits(cfg, last.env, before, last.action) {
        HasEffect(cfg, last.env, before, last.action);
        AmountsKeep(cfg, last.env, before, Step(cfg, last.env, before, last.action), last.action);
      }
    }
  }

  /** In every reachable state each pool owes its face value plus the penalty if it was
      applied, and an open pool is not repaid in full. */
  lemma PenaltyOnce(cfg: Config, w0: World, run: Run, id: Id)
    requires Initial(w0) && id in After(cfg, w0, run).core.pool.pools
    ensures var p := After(cfg, w0, run).core.pool.pools[id];
            && p.totalOwed == p.faceValue + (if p.penaltyApplied then Penalty(p) else 0)
            && (!p.isClosed ==> 0 <= p.repaidAmount < p.totalOwed)
  {
    InitialCoupled(w0);
    AmountsOverRun(cfg, w0, run);
  }

  ghost function CommittedRepayments(cfg: Config, w: World, run: Run, id: Id): nat {
    if run == [] then 0 else
    var last, earlier := run[|run| - 1], run[..|run| - 1];
    CommittedRepayments(cfg, w, earlier, id) +
    (if last.action.Repay? && last.action.id == id
        && Commits(cfg, last.env, After(cfg, w, earlier), last.action) then 1 else 0)
  }

  /** Repayments of one invoice terminate: in any run, whatever else happens, no more of
      them commit than the pool could still be credited units at the start. */
  lemma {:induction false} RepaymentsTerminate(cfg: Config, w: World, run: Run, id: Id)
    requires Coupled(w) && AllOwedRight(cfg, w) && id in w.core.pool.pools
    ensures id in After(cfg, w, run).core.pool.pools
    ensures 0 <= Potential(After(cfg, w, run).core.pool.pools[id])
         <= Potential(w.core.pool.pools[id]) - CommittedRepayments(cfg, w, run, id)
  {
    if run == [] {
      BpsOfExact(w.core.pool.pools[id].faceValue, w.core.pool.pools[id].latePenaltyBps);
    } else {
      var last, earlier := run[|run| - 1], run[..|run| - 1];
      RepaymentsTerminate(cfg, w, earlier, id);
      RunKeeps(cfg, w, earlier);
      AmountsOverRun(cfg, w, earlier);
      AmountsStep(cfg, last.env, After(cfg, w, earlier), last.action, id);
    }
  }

  // ── Repayments under a pause ───────────────────────────────────────────────

  /** What a repayment at `now` is measured against: the total owed, and the late penalty if it
      is due and was not applied before. */
  ghost function OwedAt(p: Pool, dueDate: nat, now: nat): int {
    p.totalOwed + if !p.penaltyApplied && p.latePenaltyBps > 0 && now > dueDate then Penalty(p) else 0
  }

  /** What a payment is credited as, 0 when it cannot be converted. */
  ghost function CreditFor(env: Env, invoice: Invoice, amount: i128): int {
    match Oracle.Convert(env.prices, env.now, amount, invoice.currency, USDC)
    case Ok(v) => v
    case Err(_) => 0
  }

  lemma ClosesExactly(env: Env, invoice: Invoice, p: Pool, amount: i128)
    requires Pools.Credited(env, invoice, p, amount).Ok?
    ensures Pools.Credited(env, invoice, p, amount).value.isClosed <==>
              p.repaidAmount + CreditFor(env, invoice, amount) >= OwedAt(p, invoice.terms.dueDate, env.now)
  {
  }

  /** Repayment is documented as exempt from the pause. A repayment that would go through
      otherwise goes through while paused exactly when, with its credit, the pool stays below
      what is owed, the late penalty included when it is due. */
  lemma RepaymentsExemptUnlessClosing(cfg: Config, env: Env, w: World, payer: Address, id: Id, token: Address,
                                      amount: i128)
    requires Commits(cfg, env.(paused := false), w, Repay(payer, id, token, amount))
    ensures id in w.core.nft.invoices && id in w.core.pool.pools
    ensures var invoice, p := w.core.nft.invoices[id], w.core.pool.pools[id];
            Commits(cfg, env.(paused := true), w, Repay(payer, id, token, amount)) <==>
              p.repaidAmount + CreditFor(env, invoice, amount) < OwedAt(p, invoice.terms.dueDate, env.now)
  {
    var running, paused := env.(paused := false), env.(paused := true);
    var invoice, p := w.core.nft.invoices[id], w.core.pool.pools[id];
    assert Pools.Credited(paused, invoice, p, amount) == Pools.Credited(running, invoice, p, amount);
    ClosesExactly(running, invoice, p, amount);
  }
}
