/** The per-token aggregate of investor positions agrees with recomputing it from the
    positions of the pools whose repayments have not been distributed. */
module Aggregate {
  import opened Validation
  import opened Sums
  import opened Records
  import opened Distribution
  import opened Protocol
  import opened Effects
  import opened Coupling
  import opened Lifecycle

  ghost function ContributedTo(p: PoolStore, id: Id): int {
    Sum(Contributed(p.PositionsOf(id), p.PositionsOf(id).Keys))
  }

  /** Per pool in the token: what its investors contributed, 0 once it has been settled. */
  ghost function Outstanding(p: PoolStore, settled: set<Id>, t: Address): map<Id, int> {
    map id | id in p.pools :: if p.pools[id].token == t && id !in settled then ContributedTo(p, id) else 0
  }

  ghost predicate Agrees(p: PoolStore, settled: set<Id>) {
    && (forall t :: p.AggregateFunded(t) == Sum(Outstanding(p, settled, t)))
    && (forall id, h | id in p.positions && h in p.positions[id] :: p.positions[id][h].contributed >= 0)
  }

  /** What the investor is recorded to have contributed, 0 without a position. */
  ghost function ContributionOf(p: PoolStore, id: Id, investor: Address): int {
    if investor in p.PositionsOf(id) then p.PositionsOf(id)[investor].contributed else 0
  }

  /** Conditions the entry points do not check: distributions name the pool's own token, and
      until a pool is distributed its buyers contributed nothing yet; afterwards recordings
      repeat what was contributed. */
  ghost predicate FairBooks(env: Env, w: World, settled: set<Id>, a: Action) {
    var p := w.core.pool;
    match a
    case Repay(_, id, token, _) =>
      Distributes(env, w.core, a) ==> token == p.pools[id].token || ContributedTo(p, id) == 0
    case MarkDefault(_, id, token) =>
      Distributes(env, w.core, a) ==> token == p.pools[id].token || ContributedTo(p, id) == 0
    case RecordPosition(_, id, investor, contributed, _) =>
      id in settled ==> contributed == ContributionOf(p, id, investor)
    case BuyPosition(buyer, id, seller) => id in settled || buyer == seller || ContributionOf(p, id, buyer) == 0
    case _ => true
  }

  /** The invoices distributed so far in a run. */
  ghost function Settled(cfg: Config, w: World, run: Run): set<Id> {
    if run == [] then {} else
    var last, earlier := run[|run| - 1], run[..|run| - 1];
    var before := After(cfg, w, earlier);
    Settled(cfg, w, earlier) +
    (if Commits(cfg, last.env, before, last.action) && Distributes(last.env, before.core, last.action)
     then {last.action.id} else {})
  }

  /** Every call that commits keeps the conditions; calls that are rejected may be anything. */
  ghost predicate FairBooksRun(cfg: Config, w: World, run: Run) {
    run == [] ||
    var last, earlier := run[|run| - 1], run[..|run| - 1];
    && FairBooksRun(cfg, w, earlier)
    && var before := After(cfg, w, earlier);
    && (Commits(cfg, last.env, before, last.action) ==>
          FairBooks(last.env, before, Settled(cfg, w, earlier), last.action))
  }

  ghost predicate AllTerminal(w: World, settled: set<Id>) {
    forall id | id in settled :: Terminal(w, id)
  }

  // ── Sums over one pool's positions ─────────────────────────────────────────

  lemma ContributedNonNegativeAt(p: PoolStore, settled: set<Id>, id: Id)
    requires Agrees(p, settled)
    ensures ContributedTo(p, id) >= 0
  {
    ContributedNonNegative(p.PositionsOf(id), p.PositionsOf(id).Keys);
  }

  lemma ContributedSet(ps: Positions, h: Address, position: Position)
    ensures Sum(Contributed(ps[h := position], ps[h := position].Keys))
         == Sum(Contributed(ps, ps.Keys)) - (if h in ps then ps[h].contributed else 0) + position.contributed
  {
    SumUpdate(Contributed(ps, ps.Keys), h, position.contributed);
    assert Contributed(ps[h := position], ps[h := position].Keys)
        == Contributed(ps, ps.Keys)[h := position.contributed];
  }

  /** A purchase loses what the buyer had contributed before. */
  lemma ContributedSold(ps: Positions, seller: Address, buyer: Address, bought: Position)
    requires seller in ps && bought.contributed == ps[seller].contributed
    ensures var after := (ps - {seller})[buyer := bought];
            Sum(Contributed(after, after.Keys)) == Sum(Contributed(ps, ps.Keys))
              - (if buyer != seller && buyer in ps then ps[buyer].contributed else 0)
  {
    var rest := ps - {seller};
    SumWithout(Contributed(ps, ps.Keys), seller);
    assert Contributed(ps, ps.Keys) - {seller} == Contributed(rest, rest.Keys);
    ContributedSet(rest, buyer, bought);
  }

  // ── The steps ──────────────────────────────────────────────────────────────

  /** One pool's outstanding amount replaced. */
  lemma OutstandingSet(p: PoolStore, p': PoolStore, settled: set<Id>, settled': set<Id>, id: Id, t: Address)
    requires id in p'.pools && p'.pools == p.pools[id := p'.pools[id]]
    requires settled' == settled || settled' == settled + {id}
    requires p'.positions == p.positions || (id in p'.positions && p'.positions == p.positions[id := p'.positions[id]])
    ensures Sum(Outstanding(p', settled', t)) == Sum(Outstanding(p, settled, t))
      - (if id in p.pools then Outstanding(p, settled, t)[id] else 0) + Outstanding(p', settled', t)[id]
  {
    var before, after: map<Id, int> := Outstanding(p, settled, t), Outstanding(p', settled', t);
    forall i | i in p'.pools && i != id
      ensures after[i] == before[i]
    {
      OutstandingElsewhere(p, p', settled, settled', id, i, t);
    }
    OneChanged(before, after, id);
  }

  lemma OneChanged(before: map<Id, int>, after: map<Id, int>, id: Id)
    requires id in after && after.Keys == before.Keys + {id}
    requires forall i | i in after && i != id :: after[i] == before[i]
    ensures Sum(after) == Sum(before) - (if id in before then before[id] else 0) + after[id]
  {
    SumUpdate<Id>(before, id, after[id]);
    assert after == before[id := after[id]];
  }

  lemma OutstandingElsewhere(p: PoolStore, p': PoolStore, settled: set<Id>, settled': set<Id>, id: Id, i: Id,
                             t: Address)
    requires i != id && i in p.pools && i in p'.pools && p'.pools[i] == p.pools[i]
    requires settled' == settled || settled' == settled + {id}
    requires p'.positions == p.positions || (id in p'.positions && p'.positions == p.positions[id := p'.positions[id]])
    ensures Outstanding(p', settled', t)[i] == Outstanding(p, settled, t)[i]
  {
    assert p'.PositionsOf(i) == p.PositionsOf(i);
  }

  /** Where nothing but one pool's entry changed, the books agree afterwards exactly when the
      aggregate moved by what that entry did, in every token. */
  ghost predicate MovesTogether(p: PoolStore, p': PoolStore, settled: set<Id>, settled': set<Id>, id: Id) {
    && id in p.pools && id in p'.pools
    && forall t :: p'.AggregateFunded(t) - p.AggregateFunded(t)
         == Outstanding(p', settled', t)[id] - Outstanding(p, settled, t)[id]
  }

  lemma AgreesExactly(p: PoolStore, p': PoolStore, settled: set<Id>, settled': set<Id>, id: Id)
    requires Agrees(p, settled) && id in p.pools && id in p'.pools && p'.pools == p.pools[id := p'.pools[id]]
    requires settled' == settled || settled' == settled + {id}
    requires p'.positions == p.positions || (id in p'.positions && p'.positions == p.positions[id := p'.positions[id]])
    requires forall h | h in p'.PositionsOf(id) :: p'.PositionsOf(id)[h].contributed >= 0
    ensures Agrees(p', settled') <==> MovesTogether(p, p', settled, settled', id)
  {
    forall t
      ensures p.AggregateFunded(t) == Sum(Outstanding(p, settled, t))
      ensures Sum(Outstanding(p', settled', t)) == Sum(Outstanding(p, settled, t))
        - Outstanding(p, settled, t)[id] + Outstanding(p', settled', t)[id]
    {
      OutstandingSet(p, p', settled, settled', id, t);
    }
    forall i, h | i in p'.positions && h in p'.positions[i]
      ensures p'.positions[i][h].contributed >= 0
    {
      if i == id { assert h in p'.PositionsOf(id); } else { assert p'.positions[i] == p.positions[i]; }
    }
  }

  /** One token's aggregate moved by `moved`, and the pool's entry, in its own token, by `due`. */
  lemma TogetherExactly(p: PoolStore, p': PoolStore, settled: set<Id>, settled': set<Id>, id: Id,
                        token: Address, moved: int, due: int)
    requires id in p.pools && id in p'.pools
    requires forall t :: p'.AggregateFunded(t) - p.AggregateFunded(t) == if t == token then moved else 0
    requires forall t :: Outstanding(p', settled', t)[id] - Outstanding(p, settled, t)[id]
                      == if t == p.pools[id].token then due else 0
    ensures MovesTogether(p, p', settled, settled', id) <==>
              moved == due && (token == p.pools[id].token || moved == 0)
  {
    var own := p.pools[id].token;
    if MovesTogether(p, p', settled, settled', id) {
      assert p'.AggregateFunded(own) - p.AggregateFunded(own)
          == Outstanding(p', settled', own)[id] - Outstanding(p, settled, own)[id];
      assert p'.AggregateFunded(token) - p.AggregateFunded(token)
          == Outstanding(p', settled', token)[id] - Outstanding(p, settled, token)[id];
    }
  }

  lemma AgreesRecord(c: Core, c': Core, settled: set<Id>, id: Id, investor: Address, contributed: i128, total: i128)
    requires Agrees(c.pool, settled) && RecordEffect(c, c', id, investor, contributed, total)
    ensures Agrees(c'.pool, settled) <==> (id in settled ==> contributed == ContributionOf(c.pool, id, investor))
  {
    var p, p' := c.pool, c'.pool;
    AgreesExactly(p, p', settled, settled, id);
    ContributedSet(p.PositionsOf(id), investor, p'.positions[id][investor]);
    var change := contributed - ContributionOf(p, id, investor);
    TogetherExactly(p, p', settled, settled, id, p.pools[id].token, change, if id in settled then 0 else change);
  }

  lemma AgreesBuy(cfg: Config, env: Env, w: World, w': World, a: Action, settled: set<Id>)
    requires Agrees(w.core.pool, settled) && a.BuyPosition? && Effect(cfg, env, w, w', a)
    ensures Agrees(w'.core.pool, settled) <==>
              a.id in settled || a.buyer == a.seller || ContributionOf(w.core.pool, a.id, a.buyer) == 0
  {
    var p, p', ps, id := w.core.pool, w'.core.pool, w.core.pool.PositionsOf(a.id), a.id;
    AgreesExactly(p, p', settled, settled, id);
    ContributedSold(ps, a.seller, a.buyer, ps[a.seller].(investor := a.buyer, invoiceId := id));
    var overwritten := if a.buyer == a.seller then 0 else ContributionOf(p, id, a.buyer);
    TogetherExactly(p, p', settled, settled, id, p.pools[id].token, 0, if id in settled then 0 else -overwritten);
  }

  /** Unsettled contributions to one pool fit in the aggregate, so nothing saturates. */
  lemma ContributionsFit(p: PoolStore, settled: set<Id>, id: Id, token: Address)
    requires Agrees(p, settled) && id !in settled && id in p.pools && token == p.pools[id].token
    ensures SmallContributions(p.PositionsOf(id))
    ensures 0 <= ContributedTo(p, id) <= p.AggregateFunded(token)
  {
    assert p.AggregateFunded(token) == Sum(Outstanding(p, settled, token));
    forall i | i in p.pools
      ensures Outstanding(p, settled, token)[i] >= 0
    {
      ContributedNonNegativeAt(p, settled, i);
    }
    SumNonNegative(Outstanding(p, settled, token));
    assert Outstanding(p, settled, token)[id] == ContributedTo(p, id);
  }

  /** A distribution takes exactly the pool's contributions off the aggregate of the token it
      names; neither of the saturating operations saturates. */
  lemma AggregateLowered(cfg: Config, c: Core, c': Core, settled: set<Id>, id: Id, token: Address, repaid: i128)
    requires Agrees(c.pool, settled) && id !in settled && id in c.pool.pools
    requires Distributed(cfg, c, c', id, token, repaid)
    ensures SmallContributions(c.pool.PositionsOf(id))
    ensures c'.pool.pools == c.pool.pools && c'.pool.positions == c.pool.positions
    ensures forall t :: c'.pool.AggregateFunded(t) - c.pool.AggregateFunded(t)
                     == if t == token then -ContributedTo(c.pool, id) else 0
  {
    ContributionsFit(c.pool, settled, id, c.pool.pools[id].token);
    AggregateNonNegative(c.pool, settled, token);
  }

  /** So the books agree after it exactly when it names the pool's own token or nothing was
      contributed. */
  lemma AgreesDistributed(cfg: Config, c: Core, c': Core, settled: set<Id>, id: Id, token: Address, repaid: i128)
    requires Agrees(c.pool, settled) && id !in settled && id in c.pool.pools
    requires Distributed(cfg, c, c', id, token, repaid)
    ensures SmallContributions(c.pool.PositionsOf(id))
    ensures c'.pool.AggregateFunded(token) == c.pool.AggregateFunded(token) - ContributedTo(c.pool, id)
    ensures Agrees(c'.pool, settled + {id}) <==> token == c.pool.pools[id].token || ContributedTo(c.pool, id) == 0
  {
    AggregateLowered(cfg, c, c', settled, id, token, repaid);
    EntrySettled(c.pool, c'.pool, settled, id, token);
  }

  lemma EntrySettled(p: PoolStore, p': PoolStore, settled: set<Id>, id: Id, token: Address)
    requires Agrees(p, settled) && id !in settled && id in p.pools
    requires p'.pools == p.pools && p'.positions == p.positions
    requires forall t :: p'.AggregateFunded(t) - p.AggregateFunded(t)
                      == if t == token then -ContributedTo(p, id) else 0
    ensures Agrees(p', settled + {id}) <==> token == p.pools[id].token || ContributedTo(p, id) == 0
  {
    assert p'.PositionsOf(id) == p.PositionsOf(id);
    AgreesExactly(p, p', settled, settled + {id}, id);
    TogetherExactly(p, p', settled, settled + {id}, id, token, -ContributedTo(p, id), -ContributedTo(p, id));
  }

  lemma AggregateNonNegative(p: PoolStore, settled: set<Id>, token: Address)
    requires Agrees(p, settled)
    ensures p.AggregateFunded(token) >= 0
  {
    assert p.AggregateFunded(token) == Sum(Outstanding(p, settled, token));
    forall i | i in p.pools
      ensures Outstanding(p, settled, token)[i] >= 0
    {
      ContributedNonNegativeAt(p, settled, i);
    }
    SumNonNegative(Outstanding(p, settled, token));
  }

  /** Changing a pool's amounts, but neither its token nor any position, changes nothing. */
  lemma AgreesCredited(p: PoolStore, p': PoolStore, settled: set<Id>, id: Id)
    requires Agrees(p, settled) && id in p.pools && id in p'.pools && p'.pools[id].token == p.pools[id].token
    requires p'.pools == p.pools[id := p'.pools[id]] && p'.positions == p.positions && p'.aggregate == p.aggregate
    ensures Agrees(p', settled)
  {
    forall t
      ensures p'.AggregateFunded(t) == Sum(Outstanding(p', settled, t))
    {
      SameOutstanding(p, p', settled, t);
      assert p.AggregateFunded(t) == Sum(Outstanding(p, settled, t));
    }
  }

  lemma SameOutstanding(p: PoolStore, p': PoolStore, settled: set<Id>, t: Address)
    requires p'.pools.Keys == p.pools.Keys && forall i | i in p.pools :: p'.pools[i].token == p.pools[i].token
    requires p'.positions == p.positions
    ensures Outstanding(p', settled, t) == Outstanding(p, settled, t)
  {
    forall i | i in p.pools
      ensures ContributedTo(p', i) == ContributedTo(p, i)
    {
      assert p'.PositionsOf(i) == p.PositionsOf(i);
    }
  }

  lemma AgreesSettle(cfg: Config, env: Env, w: World, w': World, a: Action, settled: set<Id>)
    requires Coupled(w) && Agrees(w.core.pool, settled) && AllTerminal(w, settled)
    requires (a.Repay? || a.MarkDefault? || a.AcceptBuyout?) && Effect(cfg, env, w, w', a)
    ensures Agrees(w'.core.pool, settled + (if Distributes(env, w.core, a) then {a.id} else {})) <==>
              FairBooks(env, w, settled, a)
  {
    assert CoupledAt(w, a.id);
    assert settled + {} == settled;
    if a.MarkDefault? { AgreesDefault(cfg, env, w, w', a, settled); }
    else if a.Repay? { AgreesRepay(cfg, env, w, w', a, settled); }
    else { AgreesAccept(cfg, env, w, w', a, settled); }
  }

  lemma AgreesDefault(cfg: Config, env: Env, w: World, w': World, a: Action, settled: set<Id>)
    requires Agrees(w.core.pool, settled) && AllTerminal(w, settled)
    requires a.MarkDefault? && Effect(cfg, env, w, w', a)
    ensures Agrees(w'.core.pool, if Distributes(env, w.core, a) then settled + {a.id} else settled) <==>
              FairBooks(env, w, settled, a)
  {
    var c, c', id := w.core, w'.core, a.id;
    if Distributes(env, c, a) {
      AgreesDistributed(cfg, c, c'.(nft := c.nft), settled, id, a.token, c.pool.pools[id].repaidAmount);
    } else { AgreesCredited(c.pool, c'.pool, settled, id); }
  }

  lemma AgreesRepay(cfg: Config, env: Env, w: World, w': World, a: Action, settled: set<Id>)
    requires Agrees(w.core.pool, settled) && AllTerminal(w, settled)
    requires a.Repay? && Effect(cfg, env, w, w', a)
    ensures Agrees(w'.core.pool, if Distributes(env, w.core, a) then settled + {a.id} else settled) <==>
              FairBooks(env, w, settled, a)
  {
    var c, c', id := w.core, w'.core, a.id;
    var p := c'.pool.pools[id];
    if Distributes(env, c, a) {
      var tokens := TransferOf(c, a.token, a.payer, cfg.pool, a.amount);
      var credited := c.(tokens := tokens, pool := c.pool.(pools := c.pool.pools[id := p]));
      AgreesCredited(c.pool, credited.pool, settled, id);
      AgreesDistributed(cfg, credited, c'.(nft := c.nft), settled, id, a.token, p.repaidAmount);
      assert credited.pool.PositionsOf(id) == c.pool.PositionsOf(id);
    } else {
      AgreesCredited(c.pool, c'.pool, settled, id);
    }
  }

  lemma AgreesAccept(cfg: Config, env: Env, w: World, w': World, a: Action, settled: set<Id>)
    requires Agrees(w.core.pool, settled) && AllTerminal(w, settled)
    requires a.AcceptBuyout? && Effect(cfg, env, w, w', a)
    ensures Agrees(w'.core.pool, if Distributes(env, w.core, a) then settled + {a.id} else settled)
  {
    var c, c', id := w.core, w'.core, a.id;
    var p := c'.pool.pools[id];
    if Distributes(env, c, a) {
      var credited := c.(pool := c.pool.(pools := c.pool.pools[id := p], buyouts := c.pool.buyouts - {id}));
      AgreesCredited(c.pool, credited.pool, settled, id);
      AgreesDistributed(cfg, credited, c'.(nft := c.nft), settled, id, p.token, p.repaidAmount);
    } else {
      AgreesCredited(c.pool, c'.pool, settled, id);
    }
  }

  ghost function TransferOf(c: Core, token: Address, from: Address, to: Address, amount: i128): Balances {
    match Pools.Tokens.Transfer(c.tokens, token, from, to, amount)
    case Ok(b) => b
    case Err(_) => c.tokens
  }

  lemma AgreesFund(cfg: Config, env: Env, w: World, w': World, a: Action, settled: set<Id>)
    requires Coupled(w) && Agrees(w.core.pool, settled) && a.Fund? && Effect(cfg, env, w, w', a)
    ensures Agrees(w'.core.pool, settled)
  {
    var p, p', id := w.core.pool, w'.core.pool, a.id;
    assert CoupledAt(w, id);
    if p' != p {
      assert Contributed(map[], {}) == map[];
      forall t
        ensures p'.AggregateFunded(t) == Sum(Outstanding(p', settled, t))
      {
        assert p.AggregateFunded(t) == Sum(Outstanding(p, settled, t));
        OutstandingSet(p, p', settled, settled, id, t);
      }
    }
  }

  lemma AgreesOtherwise(cfg: Config, env: Env, w: World, w': World, a: Action, settled: set<Id>)
    requires Agrees(w.core.pool, settled) && Effect(cfg, env, w, w', a)
    requires !a.Fund? && !a.RecordPosition? && !a.BuyPosition? && !a.Repay? && !a.MarkDefault? && !a.AcceptBuyout?
    ensures Agrees(w'.core.pool, settled)
  {
    var p, p' := w.core.pool, w'.core.pool;
    assert p'.pools == p.pools && p'.positions == p.positions && p'.aggregate == p.aggregate;
    forall t
      ensures p'.AggregateFunded(t) == Sum(Outstanding(p', settled, t))
    {
      SameOutstanding(p, p', settled, t);
      assert p.AggregateFunded(t) == Sum(Outstanding(p, settled, t));
    }
  }

  /** A committed call keeps the aggregate in agreement exactly when it is fair. */
  lemma AgreesKeptExactly(cfg: Config, env: Env, w: World, a: Action, settled: set<Id>)
    requires Coupled(w) && Agrees(w.core.pool, settled) && AllTerminal(w, settled) && Commits(cfg, env, w, a)
    ensures Agrees(Step(cfg, env, w, a).core.pool, settled + (if Distributes(env, w.core, a) then {a.id} else {})) <==>
              FairBooks(env, w, settled, a)
  {
    HasEffect(cfg, env, w, a);
    AgreesAfter(cfg, env, w, Step(cfg, env, w, a), a, settled);
  }

  lemma AgreesAfter(cfg: Config, env: Env, w: World, w': World, a: Action, settled: set<Id>)
    requires Coupled(w) && Agrees(w.core.pool, settled) && AllTerminal(w, settled) && Effect(cfg, env, w, w', a)
    ensures Agrees(w'.core.pool, settled + (if Distributes(env, w.core, a) then {a.id} else {})) <==>
              FairBooks(env, w, settled, a)
  {
    if a.Repay? || a.MarkDefault? || a.AcceptBuyout? { AgreesSettle(cfg, env, w, w', a, settled); }
    else {
      assert settled + {} == settled;
      if a.Fund? { AgreesFund(cfg, env, w, w', a, settled); }
      else if a.RecordPosition? { AgreesRecord(w.core, w'.core, settled, a.id, a.investor, a.contributed, a.total); }
      else if a.BuyPosition? { AgreesBuy(cfg, env, w, w', a, settled); }
      else { AgreesOtherwise(cfg, env, w, w', a, settled); }
    }
  }

  lemma {:induction false} SettledTerminal(cfg: Config, w0: World, run: Run)
    requires Coupled(w0)
    ensures AllTerminal(After(cfg, w0, run), Settled(cfg, w0, run))
  {
    if run != [] {
      var last, earlier := run[|run| - 1], run[..|run| - 1];
      var before := After(cfg, w0, earlier);
      SettledTerminal(cfg, w0, earlier);
      RunKeeps(cfg, w0, earlier);
      forall id | id in Settled(cfg, w0, run)
        ensures Terminal(After(cfg, w0, run), id)
      {
        if id in Settled(cfg, w0, earlier) { TerminalStays(cfg, last.env, before, last.action, id); }
        else { DistributionLeavesFunded(cfg, last.env, before, last.action, id); }
      }
    }
  }

  /** After any run of calls that are fair when they commit, the aggregate of every token is
      the sum of the contributions recorded on the pools in it that have not been distributed. */
  lemma {:induction false} AggregateAgrees(cfg: Config, w0: World, run: Run)
    requires Initial(w0) && FairBooksRun(cfg, w0, run)
    ensures Agrees(After(cfg, w0, run).core.pool, Settled(cfg, w0, run))
  {
    InitialCoupled(w0);
    if run == [] {
      forall t
        ensures w0.core.pool.AggregateFunded(t) == Sum(Outstanding(w0.core.pool, {}, t))
      {
        assert Outstanding(w0.core.pool, {}, t) == map[];
      }
    } else {
      var last, earlier := run[|run| - 1], run[..|run| - 1];
      var before := After(cfg, w0, earlier);
      AggregateAgrees(cfg, w0, earlier);
      RunKeeps(cfg, w0, earlier);
      SettledTerminal(cfg, w0, earlier);
      if Commits(cfg, last.env, before, last.action) {
        AgreesKeptExactly(cfg, last.env, before, last.action, Settled(cfg, w0, earlier));
      }
      assert Settled(cfg, w0, earlier) + {} == Settled(cfg, w0, earlier);
    }
  }
}
