/** Exactly which settlements the custody solvency of the pool survives: neither `repay` nor
    `mark_default` compares the token it is given with the pool's. */
module Settlements {
  import opened Validation
  import opened Records
  import opened TokenLedger
  import opened Distribution
  import opened Protocol
  import opened Effects
  import opened Lifecycle
  import opened Solvency
  import Pools = PoolSpec

  /** What distributing `repaid` on the invoice takes out of the pool's balance. */
  ghost function Leaving(cfg: Config, p: PoolStore, id: Id, token: Address, repaid: i128): int {
    if token !in cfg.decimals then 0 else
    var ps := p.PositionsOf(id);
    Outflow(Payouts(ps, repaid, cfg.decimals[token], ps.Keys), cfg.pool)
  }

  /** The change of slack in a token, when `paid` enters and `left` leaves in the token of the
      call, and `owed` is no longer owed in the token of the pool. */
  ghost function Change(t: Address, callToken: Address, poolToken: Address, paid: int, left: int, owed: int): int {
    (if t == callToken then paid - left else 0) + (if t == poolToken then owed else 0)
  }

  lemma NoSlackLost(callToken: Address, poolToken: Address, paid: int, left: int, owed: int)
    requires owed >= 0
    ensures (forall t :: Change(t, callToken, poolToken, paid, left, owed) >= 0)
       <==> left <= paid + (if callToken == poolToken then owed else 0)
  {
    assert Change(callToken, callToken, poolToken, paid, left, owed)
        == paid - left + (if callToken == poolToken then owed else 0);
  }

  // ── Default ────────────────────────────────────────────────────────────────

  ghost function DefaultLeaving(cfg: Config, c: Core, a: Action): int
    requires a.MarkDefault? && a.id in c.pool.pools
  {
    var repaid := c.pool.pools[a.id].repaidAmount;
    if repaid > 0 then Leaving(cfg, c.pool, a.id, a.token, repaid) else 0
  }

  lemma DefaultChange(cfg: Config, env: Env, w: World, w': World, a: Action, now: nat, t: Address)
    requires Sound(cfg, w, now) && a.MarkDefault? && Effect(cfg, env, w, w', a)
    ensures a.id in w.core.pool.pools
    ensures var p := w.core.pool.pools[a.id];
            && Slack(cfg, w', t) == Slack(cfg, w, t)
                 + Change(t, a.token, p.token, 0, DefaultLeaving(cfg, w.core, a), p.repaidAmount)
            && 0 <= DefaultLeaving(cfg, w.core, a) <= p.repaidAmount
  {
    DefaultOwed(cfg, env, w, w', a, t);
    DefaultBalance(cfg, env, w.core, w'.core, a, t);
    if w.core.pool.pools[a.id].repaidAmount > 0 {
      NoPositionsSound(w.core.pool, a.id);
      OutflowInRange(w.core.pool.PositionsOf(a.id), w.core.pool.pools[a.id].repaidAmount,
                     cfg.decimals[a.token], cfg.pool);
    }
  }

  lemma DefaultOwed(cfg: Config, env: Env, w: World, w': World, a: Action, t: Address)
    requires AllOwedRight(cfg, w) && a.MarkDefault? && Effect(cfg, env, w, w', a)
    ensures a.id in w.core.pool.pools
    ensures var p := w.core.pool.pools[a.id];
            Liabilities(w', t) == Liabilities(w, t) - (if t == p.token then p.repaidAmount else 0)
  {
    CoreOwed(w.core, w'.core, a.id, t);
  }

  lemma DefaultBalance(cfg: Config, env: Env, c: Core, c': Core, a: Action, t: Address)
    requires a.MarkDefault? && DefaultEffect(cfg, env, c, c', a.caller, a.id, a.token)
    ensures Balance(c'.tokens, t, cfg.pool)
         == Balance(c.tokens, t, cfg.pool) - (if t == a.token then DefaultLeaving(cfg, c, a) else 0)
  {
  }

  /** A default lowers no slack exactly when it names the pool's token, or takes nothing. */
  lemma DefaultCoveredExactly(cfg: Config, env: Env, w: World, a: Action, now: nat)
    requires Sound(cfg, w, now) && a.MarkDefault? && Commits(cfg, env, w, a)
    ensures a.id in w.core.pool.pools
    ensures (forall t :: Slack(cfg, Step(cfg, env, w, a), t) >= Slack(cfg, w, t))
       <==> a.token == w.core.pool.pools[a.id].token || DefaultLeaving(cfg, w.core, a) == 0
  {
    HasEffect(cfg, env, w, a);
    DefaultExactly(cfg, env, w, Step(cfg, env, w, a), a, now);
  }

  lemma DefaultExactly(cfg: Config, env: Env, w: World, w': World, a: Action, now: nat)
    requires Sound(cfg, w, now) && a.MarkDefault? && Effect(cfg, env, w, w', a)
    ensures a.id in w.core.pool.pools
    ensures (forall t :: Slack(cfg, w', t) >= Slack(cfg, w, t))
       <==> a.token == w.core.pool.pools[a.id].token || DefaultLeaving(cfg, w.core, a) == 0
  {
    var p, left := w.core.pool.pools[a.id], DefaultLeaving(cfg, w.core, a);
    forall t
      ensures Slack(cfg, w', t) >= Slack(cfg, w, t) <==> Change(t, a.token, p.token, 0, left, p.repaidAmount) >= 0
    {
      DefaultChange(cfg, env, w, w', a, now, t);
    }
    DefaultChange(cfg, env, w, w', a, now, a.token);
    NoSlackLost(a.token, p.token, 0, left, p.repaidAmount);
  }

  // ── A closing repayment ────────────────────────────────────────────────────

  /** The repayment commits and closes its pool. */
  ghost predicate Closes(env: Env, c: Core, a: Action) {
    && a.Repay? && a.id in c.pool.pools && a.id in c.nft.invoices
    && var p := Pools.Credited(env, c.nft.invoices[a.id], c.pool.pools[a.id], a.amount);
    && p.Ok? && p.value.isClosed
  }

  ghost function ClosingLeaving(cfg: Config, env: Env, c: Core, a: Action): int
    requires Closes(env, c, a)
  {
    Leaving(cfg, c.pool, a.id, a.token,
            Pools.Credited(env, c.nft.invoices[a.id], c.pool.pools[a.id], a.amount).value.repaidAmount)
  }

  lemma ClosingChange(cfg: Config, env: Env, w: World, w': World, a: Action, now: nat, t: Address)
    requires Sound(cfg, w, now) && Closes(env, w.core, a) && a.payer != cfg.pool && Effect(cfg, env, w, w', a)
    ensures var p := w.core.pool.pools[a.id];
            Slack(cfg, w', t) == Slack(cfg, w, t)
              + Change(t, a.token, p.token, a.amount, ClosingLeaving(cfg, env, w.core, a), p.repaidAmount)
  {
    ClosingOwed(cfg, env, w, w', a, t);
    ClosingBalance(cfg, env, w.core, w'.core, a, t);
  }

  lemma ClosingOwed(cfg: Config, env: Env, w: World, w': World, a: Action, t: Address)
    requires Closes(env, w.core, a) && Effect(cfg, env, w, w', a)
    ensures var p := w.core.pool.pools[a.id];
            Liabilities(w', t) == Liabilities(w, t) - (if t == p.token then p.repaidAmount else 0)
  {
    CoreOwed(w.core, w'.core, a.id, t);
  }

  lemma ClosingBalance(cfg: Config, env: Env, c: Core, c': Core, a: Action, t: Address)
    requires Closes(env, c, a) && a.payer != cfg.pool && RepayEffect(cfg, env, c, c', a.payer, a.id, a.token, a.amount)
    ensures Balance(c'.tokens, t, cfg.pool) == Balance(c.tokens, t, cfg.pool)
          + (if t == a.token then a.amount - ClosingLeaving(cfg, env, c, a) else 0)
  {
    TransferMoves(c.tokens, a.token, a.payer, cfg.pool, a.amount, t, cfg.pool);
  }

  /** A repayment that closes its pool lowers no slack exactly when what its distribution
      takes is covered by the payment and, in the pool's own token, by what was repaid before. */
  lemma ClosingCoveredExactly(cfg: Config, env: Env, w: World, a: Action, now: nat)
    requires Sound(cfg, w, now) && Closes(env, w.core, a) && a.payer != cfg.pool && Commits(cfg, env, w, a)
    ensures var p := w.core.pool.pools[a.id];
            (forall t :: Slack(cfg, Step(cfg, env, w, a), t) >= Slack(cfg, w, t)) <==>
              ClosingLeaving(cfg, env, w.core, a) <= a.amount + (if a.token == p.token then p.repaidAmount else 0)
  {
    HasEffect(cfg, env, w, a);
    ClosingExactly(cfg, env, w, Step(cfg, env, w, a), a, now);
  }

  lemma ClosingExactly(cfg: Config, env: Env, w: World, w': World, a: Action, now: nat)
    requires Sound(cfg, w, now) && Closes(env, w.core, a) && a.payer != cfg.pool && Effect(cfg, env, w, w', a)
    ensures var p := w.core.pool.pools[a.id];
            (forall t :: Slack(cfg, w', t) >= Slack(cfg, w, t)) <==>
              ClosingLeaving(cfg, env, w.core, a) <= a.amount + (if a.token == p.token then p.repaidAmount else 0)
  {
    var p, left := w.core.pool.pools[a.id], ClosingLeaving(cfg, env, w.core, a);
    forall t
      ensures Slack(cfg, w', t) >= Slack(cfg, w, t) <==>
          Change(t, a.token, p.token, a.amount, left, p.repaidAmount) >= 0
    {
      ClosingChange(cfg, env, w, w', a, now, t);
    }
    assert OwedRight(cfg, p);
    NoSlackLost(a.token, p.token, a.amount, left, p.repaidAmount);
  }

  /** A closing repayment in the pool's token whose credit the payment covers qualifies. */
  lemma FairClosingCovered(cfg: Config, env: Env, w: World, a: Action, now: nat)
    requires Sound(cfg, w, now) && Closes(env, w.core, a) && FairCall(cfg, env, w, a) && Commits(cfg, env, w, a)
    ensures ClosingLeaving(cfg, env, w.core, a) <= a.amount + w.core.pool.pools[a.id].repaidAmount
  {
    var invoice, p0 := w.core.nft.invoices[a.id], w.core.pool.pools[a.id];
    HasEffect(cfg, env, w, a);
    CreditedProgress(cfg, env, invoice, p0, a.amount);
    CreditIsConversion(env, invoice, p0, a.amount);
    var repaid := Pools.Credited(env, invoice, p0, a.amount).value.repaidAmount;
    NoPositionsSound(w.core.pool, a.id);
    OutflowInRange(w.core.pool.PositionsOf(a.id), repaid, cfg.decimals[a.token], cfg.pool);
  }
}
