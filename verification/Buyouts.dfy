/** Early settlement: who must accept a buyout before it settles, and where its escrow goes. */
module Buyouts {
  import opened Validation
  import opened Sums
  import opened Records
  import opened Distribution
  import opened Protocol
  import opened Effects
  import opened Coupling
  import opened Solvency
  import opened TokenLedger

  // ── The tally of an offer ──────────────────────────────────────────────────

  /** The shares of the holders that accepted, 0 for the others. */
  ghost function AcceptedShares(ps: Positions, accepted: seq<Address>): map<Address, int> {
    map h | h in ps :: if h in accepted then ps[h].shareBps else 0
  }

  ghost predicate NoDuplicates(s: seq<Address>) {
    forall i, j | 0 <= i < j < |s| :: s[i] != s[j]
  }

  /** The offer counts every acceptor once, at the share they hold. */
  ghost predicate TallyRight(offer: Buyout, ps: Positions) {
    && NoDuplicates(offer.accepted)
    && (forall h | h in offer.accepted :: h in ps)
    && offer.acceptedBps == Sum(AcceptedShares(ps, offer.accepted))
  }

  ghost predicate TallyRightAt(p: PoolStore, id: Id) {
    id in p.buyouts ==> TallyRight(p.buyouts[id], p.PositionsOf(id))
  }

  lemma NobodyAccepted(ps: Positions)
    ensures Sum(AcceptedShares(ps, [])) == 0
  {
    SumZero(AcceptedShares(ps, []));
  }

  lemma OneMoreAccepts(offer: Buyout, ps: Positions, h: Address)
    requires TallyRight(offer, ps) && h in ps && h !in offer.accepted
    ensures NoDuplicates(offer.accepted + [h])
    ensures offer.acceptedBps + ps[h].shareBps == Sum(AcceptedShares(ps, offer.accepted + [h]))
  {
    SumUpdate(AcceptedShares(ps, offer.accepted), h, ps[h].shareBps);
    assert AcceptedShares(ps, offer.accepted + [h]) == AcceptedShares(ps, offer.accepted)[h := ps[h].shareBps];
  }

  lemma OfferKept(cfg: Config, env: Env, w: World, w': World, a: Action, id: Id)
    requires Effect(cfg, env, w, w', a) && !((a.ProposeBuyout? || a.AcceptBuyout? || a.CancelBuyout?) && a.id == id)
    ensures id in w'.core.pool.buyouts <==> id in w.core.pool.buyouts
    ensures id in w.core.pool.buyouts ==> w'.core.pool.buyouts[id] == w.core.pool.buyouts[id]
  {
  }

  /** While the invoice's positions do not change, no call spoils the tally of its offer. */
  lemma TallyKept(cfg: Config, env: Env, w: World, w': World, a: Action, id: Id)
    requires Effect(cfg, env, w, w', a) && TallyRightAt(w.core.pool, id)
    requires w'.core.pool.PositionsOf(id) == w.core.pool.PositionsOf(id)
    ensures TallyRightAt(w'.core.pool, id)
  {
    if a.ProposeBuyout? && a.id == id { NobodyAccepted(w.core.pool.PositionsOf(id)); }
    else if a.AcceptBuyout? && a.id == id {
      OneMoreAccepts(w.core.pool.buyouts[id], w.core.pool.PositionsOf(id), a.investor);
    }
    else if a.CancelBuyout? && a.id == id { }
    else { OfferKept(cfg, env, w, w', a, id); }
  }

  /** The invoice's positions are, after every call of the run, what they were before it. */
  ghost predicate PositionsSteady(cfg: Config, w: World, run: Run, id: Id) {
    run != [] ==>
      PositionsSteady(cfg, w, run[..|run| - 1], id) &&
      After(cfg, w, run).core.pool.PositionsOf(id) == w.core.pool.PositionsOf(id)
  }

  lemma {:induction false} TallyOverRun(cfg: Config, w: World, run: Run, id: Id)
    requires id !in w.core.pool.buyouts && PositionsSteady(cfg, w, run, id)
    ensures TallyRightAt(After(cfg, w, run).core.pool, id)
    ensures After(cfg, w, run).core.pool.PositionsOf(id) == w.core.pool.PositionsOf(id)
  {
    if run != [] {
      var last, earlier := run[|run| - 1], run[..|run| - 1];
      var before := After(cfg, w, earlier);
      TallyOverRun(cfg, w, earlier, id);
      if Commits(cfg, last.env, before, last.action) {
        HasEffect(cfg, last.env, before, last.action);
        TallyKept(cfg, last.env, before, Step(cfg, last.env, before, last.action), last.action, id);
      }
    }
  }

  /** With shares totalling at most 10_000, a set of acceptors reaches 10_000 exactly when the
      shares total 10_000 and everybody with a positive share is among them. */
  lemma UnanimityExactly(ps: Positions, accepted: seq<Address>)
    requires Sum(ShareMap(ps)) <= BPS
    ensures Sum(AcceptedShares(ps, accepted)) >= BPS
       <==> Sum(ShareMap(ps)) == BPS && forall h | h in ps && ps[h].shareBps > 0 :: h in accepted
  {
    var all, part := ShareMap(ps), AcceptedShares(ps, accepted);
    SumPointwiseAtMost(part, all);
    if forall h | h in ps && ps[h].shareBps > 0 :: h in accepted {
      assert part == all;
    } else {
      var h :| h in ps && ps[h].shareBps > 0 && h !in accepted;
      SumWithout(all, h);
      SumWithout(part, h);
      SumPointwiseAtMost(part - {h}, all - {h});
    }
  }

  /** From before the proposal on, with the positions unchanged and shares totalling at most
      10_000: an acceptance settles the buyout exactly when the shares total 10_000 and it
      leaves nobody with a positive share who has not accepted. */
  lemma SettlesExactlyWhenUnanimous(cfg: Config, w: World, run: Run, env: Env, investor: Address, id: Id)
    requires id !in w.core.pool.buyouts && PositionsSteady(cfg, w, run, id)
    requires Sum(ShareMap(w.core.pool.PositionsOf(id))) <= BPS
    requires Commits(cfg, env, After(cfg, w, run), AcceptBuyout(investor, id))
    ensures var now, ps := After(cfg, w, run).core, w.core.pool.PositionsOf(id);
            id in now.pool.buyouts &&
            (Distributes(env, now, AcceptBuyout(investor, id)) <==>
               && Sum(ShareMap(ps)) == BPS
               && forall h | h in ps && ps[h].shareBps > 0 :: h == investor || h in now.pool.buyouts[id].accepted)
  {
    var now, a := After(cfg, w, run), AcceptBuyout(investor, id);
    TallyOverRun(cfg, w, run, id);
    HasEffect(cfg, env, now, a);
    SettlesWhen(cfg, env, now, Step(cfg, env, now, a), investor, id);
  }

  lemma SettlesWhen(cfg: Config, env: Env, w: World, w': World, investor: Address, id: Id)
    requires Effect(cfg, env, w, w', AcceptBuyout(investor, id)) && TallyRightAt(w.core.pool, id)
    requires Sum(ShareMap(w.core.pool.PositionsOf(id))) <= BPS
    ensures id in w.core.pool.buyouts
    ensures var ps := w.core.pool.PositionsOf(id);
            Distributes(env, w.core, AcceptBuyout(investor, id)) <==>
               && Sum(ShareMap(ps)) == BPS
               && forall h | h in ps && ps[h].shareBps > 0 :: h == investor || h in w.core.pool.buyouts[id].accepted
  {
    var ps, offer := w.core.pool.PositionsOf(id), w.core.pool.buyouts[id];
    OneMoreAccepts(offer, ps, investor);
    UnanimityExactly(ps, offer.accepted + [investor]);
    assert forall h :: h in offer.accepted + [investor] <==> h == investor || h in offer.accepted;
  }

  // ── Where escrows go ───────────────────────────────────────────────────────

  /** Buyouts of one invoice over a run: how many, and how much, was escrowed, refunded to
      the proposer, and distributed to the investors. */
  datatype Books = Books(escrowed: int, refunded: int, distributed: int, paidIn: int, paidBack: int, paidOut: int)

  ghost function AmountOf(p: PoolStore, id: Id): int {
    if id in p.buyouts then p.buyouts[id].amount else 0
  }

  ghost function Entry(cfg: Config, env: Env, w: World, a: Action, id: Id): Books {
    if !Commits(cfg, env, w, a) then Books(0, 0, 0, 0, 0, 0)
    else if a.ProposeBuyout? && a.id == id then Books(1, 0, 0, a.amount, 0, 0)
    else if a.CancelBuyout? && a.id == id then Books(0, 1, 0, 0, AmountOf(w.core.pool, id), 0)
    else if a.AcceptBuyout? && a.id == id && Distributes(env, w.core, a) then
      Books(0, 0, 1, 0, 0, AmountOf(w.core.pool, id))
    else Books(0, 0, 0, 0, 0, 0)
  }

  ghost function BooksOf(cfg: Config, w: World, run: Run, id: Id): Books {
    if run == [] then Books(0, 0, 0, 0, 0, 0) else
    var last, earlier := run[|run| - 1], run[..|run| - 1];
    var b, e := BooksOf(cfg, w, earlier, id), Entry(cfg, last.env, After(cfg, w, earlier), last.action, id);
    Books(b.escrowed + e.escrowed, b.refunded + e.refunded, b.distributed + e.distributed,
          b.paidIn + e.paidIn, b.paidBack + e.paidBack, b.paidOut + e.paidOut)
  }

  ghost predicate Balanced(b: Books, p: PoolStore, id: Id) {
    && b.escrowed == b.refunded + b.distributed + (if id in p.buyouts then 1 else 0)
    && b.paidIn == b.paidBack + b.paidOut + AmountOf(p, id)
  }

  lemma EntryBalances(cfg: Config, env: Env, w: World, w': World, a: Action, id: Id)
    requires Commits(cfg, env, w, a) && Effect(cfg, env, w, w', a)
    ensures var e, before, after := Entry(cfg, env, w, a, id), w.core.pool, w'.core.pool;
            && e.escrowed - e.refunded - e.distributed
                 == (if id in after.buyouts then 1 else 0) - (if id in before.buyouts then 1 else 0)
            && e.paidIn - e.paidBack - e.paidOut == AmountOf(after, id) - AmountOf(before, id)
  {
    if (a.ProposeBuyout? || a.AcceptBuyout? || a.CancelBuyout?) && a.id == id { }
    else { OfferKept(cfg, env, w, w', a, id); }
  }

  /** Over any run, every escrow of an invoice is either still pending, or was refunded once,
      or was distributed once: the books balance in number and in amount. */
  lemma {:induction false} EscrowConserved(cfg: Config, w0: World, run: Run, id: Id)
    requires Initial(w0)
    ensures Balanced(BooksOf(cfg, w0, run, id), After(cfg, w0, run).core.pool, id)
  {
    if run != [] {
      var last, earlier := run[|run| - 1], run[..|run| - 1];
      var before := After(cfg, w0, earlier);
      EscrowConserved(cfg, w0, earlier, id);
      if Commits(cfg, last.env, before, last.action) {
        HasEffect(cfg, last.env, before, last.action);
        EntryBalances(cfg, last.env, before, Step(cfg, last.env, before, last.action), last.action, id);
      }
    }
  }

  // ── What a settled buyout leaves behind ────────────────────────────────────

  /** What a settled buyout pays to each holder. */
  ghost function BuyoutPayouts(cfg: Config, p: PoolStore, id: Id): map<Address, int>
    requires id in p.pools && id in p.buyouts && p.pools[id].token in cfg.decimals
  {
    var ps := p.PositionsOf(id);
    Payouts(ps, p.buyouts[id].amount, cfg.decimals[p.pools[id].token], ps.Keys)
  }

  /** A settled buyout overwrites what was repaid before it, and distributes the escrow alone,
      to at most its amount. */
  lemma EarlierRepaymentsNotDistributed(cfg: Config, env: Env, w: World, investor: Address, id: Id)
    requires Commits(cfg, env, w, AcceptBuyout(investor, id)) && Distributes(env, w.core, AcceptBuyout(investor, id))
    ensures var w' := Step(cfg, env, w, AcceptBuyout(investor, id));
            && id in w.core.pool.pools && id in w.core.pool.buyouts && w.core.pool.pools[id].token in cfg.decimals
            && w'.core.pool.pools[id].repaidAmount == w.core.pool.buyouts[id].amount
            && Paid(w.core.tokens, w'.core.tokens, w.core.pool.pools[id].token, cfg.pool,
                 BuyoutPayouts(cfg, w.core.pool, id))
  {
    HasEffect(cfg, env, w, AcceptBuyout(investor, id));
  }

  /** Settling lowers what the pool owes by the escrow and by everything repaid before, while
      the balance falls by the payouts alone: the slack grows by the earlier repayments and
      the dust. Only the dust is left over exactly when nothing had been repaid. */
  lemma RepaymentsStranded(cfg: Config, env: Env, w: World, investor: Address, id: Id, now: nat)
    requires Sound(cfg, w, now)
    requires Commits(cfg, env, w, AcceptBuyout(investor, id)) && Distributes(env, w.core, AcceptBuyout(investor, id))
    ensures id in w.core.pool.pools && id in w.core.pool.buyouts && w.core.pool.pools[id].token in cfg.decimals
    ensures var w', p, offer := Step(cfg, env, w, AcceptBuyout(investor, id)), w.core.pool.pools[id],
        w.core.pool.buyouts[id];
            var dust := offer.amount - Outflow(BuyoutPayouts(cfg, w.core.pool, id), cfg.pool);
            && dust >= 0
            && Liabilities(w', p.token) == Liabilities(w, p.token) - offer.amount - p.repaidAmount
            && Slack(cfg, w', p.token) == Slack(cfg, w, p.token) + p.repaidAmount + dust
            && (Slack(cfg, w', p.token) == Slack(cfg, w, p.token) + dust <==> p.repaidAmount == 0)
  {
    HasEffect(cfg, env, w, AcceptBuyout(investor, id));
    EarlierRepaymentsNotDistributed(cfg, env, w, investor, id);
    Strands(cfg, env, w, Step(cfg, env, w, AcceptBuyout(investor, id)), investor, id, now);
  }

  lemma Strands(cfg: Config, env: Env, w: World, w': World, investor: Address, id: Id, now: nat)
    requires Sound(cfg, w, now)
    requires Effect(cfg, env, w, w', AcceptBuyout(investor, id)) && Distributes(env, w.core, AcceptBuyout(investor, id))
    requires id in w.core.pool.pools && id in w.core.pool.buyouts && w.core.pool.pools[id].token in cfg.decimals
    requires Paid(w.core.tokens, w'.core.tokens, w.core.pool.pools[id].token, cfg.pool,
        BuyoutPayouts(cfg, w.core.pool, id))
    ensures var p, offer := w.core.pool.pools[id], w.core.pool.buyouts[id];
            var paid := Outflow(BuyoutPayouts(cfg, w.core.pool, id), cfg.pool);
            && paid <= offer.amount
            && Liabilities(w', p.token) == Liabilities(w, p.token) - offer.amount - p.repaidAmount
            && Balance(w'.core.tokens, p.token, cfg.pool) == Balance(w.core.tokens, p.token, cfg.pool) - paid
  {
    var c, c', p := w.core, w'.core, w.core.pool.pools[id];
    assert CoupledAt(w, id);
    CoreOwed(c, c', id, p.token);
    NoPositionsSound(c.pool, id);
    OutflowInRange(c.pool.PositionsOf(id), c.pool.buyouts[id].amount, cfg.decimals[p.token], cfg.pool);
  }
}
