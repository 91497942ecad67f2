/** Until when the repayments credited to a pool can still reach its investors. */
module Undistributed {
  import opened Records
  import opened Protocol
  import opened Effects
  import opened Coupling
  import opened Lifecycle
  import opened Solvency
  import opened Admission

  /** Call `k` of the longer run distributes what was repaid on the invoice. */
  ghost predicate DistributesLater(cfg: Config, w0: World, run: Run, more: Run, k: nat, id: Id) {
    && Timely(run + more) && |run| <= k < |run + more|
    && DistributesFor(cfg, (run + more)[k].env, Before(cfg, w0, run + more, k), (run + more)[k].action, id)
  }

  lemma NotOnceTerminal(cfg: Config, w0: World, run: Run, more: Run, k: nat, id: Id)
    requires Coupled(w0) && Terminal(After(cfg, w0, run), id)
    ensures !DistributesLater(cfg, w0, run, more, k, id)
  {
    if DistributesLater(cfg, w0, run, more, k, id) {
      var whole := run + more;
      assert whole[..|run|] == run;
      TerminalForever(cfg, w0, whole, |run|, k, id);
      DistributionLeavesFunded(cfg, whole[k].env, Before(cfg, w0, whole, k), whole[k].action, id);
    }
  }

  /** Every payout of what was repaid on the pool can be computed. */
  ghost predicate RepaidPayable(cfg: Config, p: PoolStore, id: Id) {
    id in p.pools && Payable(cfg, p, id, p.pools[id].token, p.pools[id].repaidAmount)
  }

  /** On a Funded invoice the admin can declare the default once the due date is over. */
  lemma DefaultGoes(cfg: Config, env: Env, w: World, now: nat, id: Id)
    requires Solvent(cfg, w, now) && RepaidPayable(cfg, w.core.pool, id) && HasStatus(w.core.nft, id, Funded)
    requires w.core.pool.pools[id].repaidAmount > 0 && !env.paused && env.now > w.core.nft.invoices[id].terms.dueDate
    ensures DistributesFor(cfg, env, w, MarkDefault(cfg.admin, id, w.core.pool.pools[id].token), id)
  {
    assert CoupledAt(w, id);
    DefaultCommitsExactly(cfg, env, w, MarkDefault(cfg.admin, id, w.core.pool.pools[id].token), now);
  }

  lemma DefaultNext(cfg: Config, w0: World, run: Run, id: Id) returns (call: Call)
    requires Timely(run) && Solvent(cfg, After(cfg, w0, run), Clock(run))
    requires RepaidPayable(cfg, After(cfg, w0, run).core.pool, id)
    requires HasStatus(After(cfg, w0, run).core.nft, id, Funded)
    requires After(cfg, w0, run).core.pool.pools[id].repaidAmount > 0
    ensures DistributesLater(cfg, w0, run, [call], |run|, id)
  {
    var w := After(cfg, w0, run);
    var due := w.core.nft.invoices[id].terms.dueDate + 1;
    var env := Env(if Clock(run) < due then due else Clock(run), false, map[], {}, map[], {}, map[]);
    DefaultGoes(cfg, env, w, Clock(run), id);
    call := Call(env, MarkDefault(cfg.admin, id, w.core.pool.pools[id].token));
    assert (run + [call])[..|run|] == run;
  }

  /** After any run whose committed calls are fair, what was repaid on a pool and can be paid
      out at all can still be distributed by some later call exactly while the invoice is
      Funded: not after a default, which accepts further repayments, nor after `set_defaulted`
      was called on the invoice directly. */
  lemma DistributableExactlyWhileFunded(cfg: Config, w0: World, run: Run, id: Id)
    requires cfg.Valid() && Initial(w0) && Timely(run) && FairRun(cfg, w0, run)
    requires RepaidPayable(cfg, After(cfg, w0, run).core.pool, id)
    requires After(cfg, w0, run).core.pool.pools[id].repaidAmount > 0
    ensures (exists more, k :: DistributesLater(cfg, w0, run, more, k, id))
       <==> HasStatus(After(cfg, w0, run).core.nft, id, Funded)
  {
    var w := After(cfg, w0, run);
    AlwaysSolvent(cfg, w0, run);
    InitialCoupled(w0);
    assert CoupledAt(w, id);
    if HasStatus(w.core.nft, id, Funded) {
      var call := DefaultNext(cfg, w0, run, id);
    } else {
      assert Terminal(w, id);
      forall more, k: nat
        ensures !DistributesLater(cfg, w0, run, more, k, id)
      {
        NotOnceTerminal(cfg, w0, run, more, k, id);
      }
    }
  }
}
