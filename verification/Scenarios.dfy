/** Concrete runs from initialization, for the promises the code does not keep: a repayment in
    a foreign token, a closing repayment under a pause, a buyout that strands earlier
    repayments, one that everybody accepts and that still does not settle, and invoices above
    their SME's credit limit. */
module Scenarios {
  import opened Outcomes
  import opened Validation
  import opened Sums
  import opened Records
  import opened TokenLedger
  import opened Distribution
  import opened Protocol
  import opened Effects
  import opened Solvency
  import opened Buyouts
  import opened Exposure
  import Pools = PoolSpec
  import Market = MarketSpec
  import Coupling
  import Lifecycle
  import Refunds

  const CFG := Config(1, 2, 3, 4, 0, map[10 := 7, 11 := 7])
  const ENV := Env(1000, false, map[], {6}, map[], {}, map[])
  const TERMS := InvoiceTerms([1], 100, 2000, "c", 10)
  const USD := 10
  const OTHER := 11

  /** Right after initialization: an investor holds 90, the seller 70, a debtor 100, and a payer 5 of another token. */
  const START := World(
    MarketStore(0, map[], {}, map[], map[], {}, map[], map[], {}),
    Core(map[(USD, 7) := 90, (USD, 6) := 70, (USD, 51) := 100, (OTHER, 50) := 5],
         NftStore(1, map[], {}, map[]),
         PoolStore(map[], map[], map[], map[], {}, 10_000, map[])))

  // ── An invoice of 100, listed for 90 and fully funded ──────────────────────

  const OPENING: seq<Action> := [
    Mint(6, TERMS, USDC, None),
    Whitelist(1, USD, true),
    List(6, 1, 90, 100, USD, 1500, None),
    Fund(7, 1, 90)]

  ghost function Minted(status: InvoiceStatus, fundedAt: Option<nat>): NftStore {
    NftStore(2, map[1 := Invoice(1, 6, TERMS, USDC, [], AAA, status, 1000, fundedAt, None, None)], {}, map[])
  }

  ghost function Listed90(fundedAmount: i128): Listing {
    Listing(1, 6, 90, 100, USD, fundedAmount, 1500, fundedAmount < 90)
  }

  ghost function Funded90(): World {
    World(
      MarketStore(0, map[], {USD}, map[1 := Listed90(90)], map[(1, 7) := 90], {}, map[], map[], {}),
      Core(START.core.tokens[(USD, 7) := 0][(USD, 3) := 90],
           Minted(Funded, Some(1000)),
           START.core.pool.(pools := map[1 := Pool(1, USD, 0, 100, 0, false, 0, 100, false)])))
  }

  ghost predicate Goes(w: World, a: Action, w': World) {
    Apply(CFG, ENV, w, a) == Ok(w')
  }

  lemma MintGoes()
    ensures Goes(START, OPENING[0], START.(core := START.core.(nft := Minted(Created, None))))
  {
  }

  lemma WhitelistGoes()
    ensures var w := START.(core := START.core.(nft := Minted(Created, None)));
            Goes(w, OPENING[1], w.(market := w.market.(whitelist := {USD})))
  {
    assert {} + {USD} == {USD};
    assert OPENING[1] == Whitelist(1, USD, true);
  }

  lemma ListGoes()
    ensures var w := START.(core := START.core.(nft := Minted(Created, None)),
        market := START.market.(whitelist := {USD}));
            Goes(w, OPENING[2], Ready())
  {
    assert OPENING[2] == List(6, 1, 90, 100, USD, 1500, None);
    assert Minted(Created, None).invoices[1 := Minted(Listed, None).invoices[1]] == Minted(Listed, None).invoices;
    assert START.market.listings[1 := Listed90(0)] == map[1 := Listed90(0)];
  }

  ghost function Ready(): World {
    World(START.market.(whitelist := {USD}, listings := map[1 := Listed90(0)]),
        START.core.(nft := Minted(Listed, None)))
  }

  lemma ReleaseGoes()
    ensures Pools.ReleaseFunds(CFG, ENV, Ready().core.(tokens := Funded90().core.tokens), 1, USD) == Ok(Funded90().core)
  {
    assert Minted(Listed, None).invoices[1 := Minted(Funded, Some(1000)).invoices[1]]
        == Minted(Funded, Some(1000)).invoices;
    assert START.core.pool.pools[1 := Funded90().core.pool.pools[1]] == Funded90().core.pool.pools;
  }

  lemma FundGoes()
    ensures Goes(Ready(), OPENING[3], Funded90())
  {
    assert OPENING[3] == Fund(7, 1, 90);
    assert Market.FundingFee(CFG, ENV, Ready(), 1, 90) == Ok(0);
    assert Market.TakeContribution(CFG, ENV, START.core.tokens, USD, 7, 0, 90) == Ok(Funded90().core.tokens);
    assert Ready().market.listings[1 := Listed90(90)] == Funded90().market.listings;
    assert Ready().market.contributions[(1, 7) := 90] == Funded90().market.contributions;
    ReleaseGoes();
  }

  // ── Runs, all at one ledger time ───────────────────────────────────────────

  function RunOf(actions: seq<Action>): (run: Run)
    ensures |run| == |actions|
    ensures forall i | 0 <= i < |run| :: run[i] == Call(ENV, actions[i])
  {
    seq(|actions|, i requires 0 <= i < |actions| => Call(ENV, actions[i]))
  }

  /** The world after these calls. */
  ghost function Reached(actions: seq<Action>): World {
    After(CFG, START, RunOf(actions))
  }

  /** One more call of the list. */
  lemma NextReached(actions: seq<Action>, i: nat, w: World, w': World)
    requires i < |actions| && Reached(actions[..i]) == w && Goes(w, actions[i], w')
    ensures Reached(actions[..i + 1]) == w'
  {
    assert RunOf(actions[..i + 1])[..i] == RunOf(actions[..i]);
  }

  lemma NothingReached(actions: seq<Action>)
    ensures Reached(actions[..0]) == START
  {
  }

  lemma StartIsInitial()
    ensures Initial(START) && CFG.Valid()
  {
  }

  /** The opening calls, and whatever follows them, go through the funded invoice. */
  lemma OpeningReaches(actions: seq<Action>)
    requires OPENING <= actions
    ensures Reached(actions[..4]) == Funded90()
  {
    var w1 := START.(core := START.core.(nft := Minted(Created, None)));
    NothingReached(actions);
    MintGoes();
    NextReached(actions, 0, START, w1);
    WhitelistGoes();
    var w2 := w1.(market := w1.market.(whitelist := {USD}));
    NextReached(actions, 1, w1, w2);
    ListGoes();
    NextReached(actions, 2, w2, Ready());
    FundGoes();
    NextReached(actions, 3, Ready(), Funded90());
  }

  /** The funded invoice, with other tokens and another state of the pool. */
  ghost function With(tokens: Balances, pool: PoolStore): World {
    Funded90().(core := Funded90().core.(tokens := tokens, pool := pool))
  }

  // ── A repayment in another token ───────────────────────────────────────────

  const FOREIGN: seq<Action> := OPENING + [Repay(50, 1, OTHER, 5)]

  lemma SingleSum<K(!new)>(m: map<K, int>, k: K)
    requires m.Keys == {k}
    ensures Sum(m) == m[k]
  {
    SumWithout(m, k);
    assert m - {k} == map[];
  }

  lemma OwesExactlyWhatItHolds()
    ensures Slack(CFG, Funded90(), USD) == 0
  {
    var w := Funded90();
    SingleSum(OwedContributions(w.market, USD), (1, 7));
    SingleSum(OwedRepayments(w.core, USD), 1);
    assert OwedBuyouts(w.core.pool, USD) == map[];
  }

  /** Invoice 1 is Funded, and between the two states it was credited with its first five. */
  ghost predicate CreditedFive(w: World, w': World) {
    && HasStatus(w.core.nft, 1, InvoiceStatus.Funded) && 1 in w.core.pool.pools && 1 in w'.core.pool.pools
    && var p, p' := w.core.pool.pools[1], w'.core.pool.pools[1];
    && !p'.isClosed && p.token == USD && p'.token == USD && p.repaidAmount == 0 && p'.repaidAmount == 5
  }

  lemma ForeignGoes() returns (w: World, w': World)
    ensures w == Funded90() && Goes(w, Repay(50, 1, OTHER, 5), w') && CreditedFive(w, w')
  {
    w := Funded90();
    w' := Step(CFG, ENV, w, Repay(50, 1, OTHER, 5));
  }

  lemma FiveShort(w: World, w': World)
    requires Effect(CFG, ENV, w, w', Repay(50, 1, OTHER, 5)) && CreditedFive(w, w')
    ensures Slack(CFG, w', USD) == Slack(CFG, w, USD) - 5
  {
    PartialRepaymentSlack(CFG, ENV, w, w', Repay(50, 1, OTHER, 5), USD);
  }

  lemma ForeignReached() returns (w: World, w': World)
    ensures Reached(FOREIGN[..4]) == w && Reached(FOREIGN) == w'
    ensures Slack(CFG, w, USD) == 0 && Goes(w, FOREIGN[4], w') && CreditedFive(w, w')
  {
    w, w' := ForeignGoes();
    OpeningReaches(FOREIGN);
    NextReached(FOREIGN, 4, w, w');
    assert FOREIGN[..5] == FOREIGN;
    OwesExactlyWhatItHolds();
  }

  /** From initialization: once the invoice is funded the pool holds exactly what it owes in
      its token; then five units of another token are credited as five of its own, and it
      owes five more than it holds. */
  lemma ForeignRepaymentBreaksSolvency()
    ensures Initial(START) && CFG.Valid()
    ensures Slack(CFG, Reached(FOREIGN[..4]), USD) == 0 && Commits(CFG, ENV, Reached(FOREIGN[..4]), FOREIGN[4])
    ensures Slack(CFG, Reached(FOREIGN), USD) == -5
  {
    StartIsInitial();
    var w, w' := ForeignReached();
    assert FOREIGN[4] == Repay(50, 1, OTHER, 5);
    HasEffect(CFG, ENV, w, FOREIGN[4]);
    FiveShort(w, w');
  }

  // ── A closing repayment under a pause ──────────────────────────────────────

  const CLOSING := Repay(51, 1, USD, 100)

  lemma ClosingGoes() returns (w: World)
    ensures w == Funded90() && Commits(CFG, ENV, w, CLOSING)
    ensures 1 in w.core.pool.pools && w.core.pool.pools[1] == Pool(1, USD, 0, 100, 0, false, 0, 100, false)
  {
    w := Funded90();
  }

  /** From initialization: the debtor pays the whole invoice. The call goes through while the
      protocol runs, and not while it is paused. */
  lemma PauseStopsClosingRepayment()
    ensures Initial(START) && CFG.Valid()
    ensures Commits(CFG, ENV, Reached(OPENING), CLOSING)
    ensures !Commits(CFG, ENV.(paused := true), Reached(OPENING), CLOSING)
  {
    StartIsInitial();
    var w := ClosingGoes();
    OpeningReaches(OPENING);
    assert OPENING[..4] == OPENING;
    Lifecycle.RepaymentsExemptUnlessClosing(CFG, ENV, w, 51, 1, USD, 100);
  }

  // ── A buyout that strands an earlier repayment ─────────────────────────────

  const STRANDING: seq<Action> := OPENING + [
    RecordPosition(1, 1, 7, 100, 100),
    Repay(6, 1, USD, 20),
    ProposeBuyout(6, 1, 50),
    AcceptBuyout(7, 1)]

  const SOLE_HOLDER: Positions := map[7 := Position(7, 1, 100, 10_000, 0)]

  ghost function Recorded(): World {
    var c := Funded90().core;
    With(c.tokens, c.pool.(positions := map[1 := SOLE_HOLDER], aggregate := map[USD := 100]))
  }

  ghost function PartlyRepaid(): World {
    var c := Recorded().core;
    With(c.tokens[(USD, 6) := 50][(USD, 3) := 110],
         c.pool.(pools := map[1 := Pool(1, USD, 0, 100, 20, false, 0, 100, false)]))
  }

  ghost function Proposed(): World {
    var c := PartlyRepaid().core;
    With(c.tokens[(USD, 6) := 0][(USD, 3) := 160], c.pool.(buyouts := map[1 := Buyout(1, 50, 0, [])]))
  }

  lemma RecordGoes()
    ensures Goes(Funded90(), RecordPosition(1, 1, 7, 100, 100), Recorded())
  {
    var p := Funded90().core.pool;
    assert p.positions[1 := p.PositionsOf(1)[7 := SOLE_HOLDER[7]]] == Recorded().core.pool.positions;
    assert p.aggregate[USD := 100] == Recorded().core.pool.aggregate;
  }

  lemma PartRepayGoes()
    ensures Goes(Recorded(), Repay(6, 1, USD, 20), PartlyRepaid())
  {
    var c, p := Recorded().core, PartlyRepaid().core.pool.pools[1];
    assert Pools.Credited(ENV, c.nft.invoices[1], c.pool.pools[1], 20) == Ok(p);
    assert c.pool.pools[1 := p] == PartlyRepaid().core.pool.pools;
    assert c.pool.locks + {1} - {1} == c.pool.locks;
  }

  lemma ProposeGoes()
    ensures Goes(PartlyRepaid(), ProposeBuyout(6, 1, 50), Proposed())
  {
    assert PartlyRepaid().core.pool.buyouts[1 := Buyout(1, 50, 0, [])] == Proposed().core.pool.buyouts;
  }

  lemma SoleHolderPaid(b: Balances)
    requires Balance(b, USD, 3) >= 50
    ensures Pools.PayHolders(CFG, b, USD, 7, SOLE_HOLDER, 50, SOLE_HOLDER.Keys, 0).Ok?
  {
    assert SOLE_HOLDER.Keys == {7};
    assert BpsOfNormalized(50, 10_000, 7) == Ok(50);
    Pools.PayNext(CFG, b, USD, 7, SOLE_HOLDER, 50, {7}, 0, 7);
    assert {7} - {7} == {};
  }

  lemma AcceptGoes()
    ensures Commits(CFG, ENV, Proposed(), AcceptBuyout(7, 1))
    ensures Distributes(ENV, Proposed().core, AcceptBuyout(7, 1))
  {
    SoleHolderPaid(Proposed().core.tokens);
  }

  lemma StrandingReached() returns (w: World)
    ensures w == Proposed() && Reached(STRANDING[..7]) == w
  {
    w := Proposed();
    OpeningReaches(STRANDING);
    RecordGoes();
    NextReached(STRANDING, 4, Funded90(), Recorded());
    PartRepayGoes();
    NextReached(STRANDING, 5, Recorded(), PartlyRepaid());
    ProposeGoes();
    NextReached(STRANDING, 6, PartlyRepaid(), Proposed());
  }

  lemma ReachedSound(actions: seq<Action>)
    requires AllPositionsSound(Reached(actions).core.pool)
    ensures Sound(CFG, Reached(actions), Clock(RunOf(actions)))
  {
    StartIsInitial();
    Lifecycle.InitialCoupled(START);
    Coupling.RunKeeps(CFG, START, RunOf(actions));
    Lifecycle.AmountsOverRun(CFG, START, RunOf(actions));
    Refunds.RunSound(CFG, START, RunOf(actions));
  }

  lemma SoleHolderSound()
    ensures AllPositionsSound(Proposed().core.pool)
  {
    SingleSum(ShareMap(SOLE_HOLDER), 7);
  }

  lemma BeforeStranding() returns (w: World, now: nat)
    ensures Reached(STRANDING[..7]) == w && Sound(CFG, w, now)
    ensures Commits(CFG, ENV, w, AcceptBuyout(7, 1)) && Distributes(ENV, w.core, AcceptBuyout(7, 1))
    ensures 1 in w.core.pool.pools && 1 in w.core.pool.buyouts
    ensures w.core.pool.pools[1].repaidAmount == 20 && w.core.pool.pools[1].token == USD
    ensures w.core.pool.buyouts[1].amount == 50
  {
    w := StrandingReached();
    now := Clock(RunOf(STRANDING[..7]));
    SoleHolderSound();
    ReachedSound(STRANDING[..7]);
    AcceptGoes();
  }

  /** From initialization: 20 are repaid, a buyout of 50 is proposed and the only holder
      accepts. It settles, and the 20 stay in the pool's balance while nobody is owed them. */
  lemma BuyoutStrandsRepayment()
    ensures Initial(START) && CFG.Valid()
    ensures var w, w' := Reached(STRANDING[..7]), Reached(STRANDING);
            && Commits(CFG, ENV, w, STRANDING[7]) && Distributes(ENV, w.core, STRANDING[7])
            && 1 in w.core.pool.pools && w.core.pool.pools[1].repaidAmount == 20
            && Liabilities(w', USD) == Liabilities(w, USD) - 50 - 20
            && Slack(CFG, w', USD) >= Slack(CFG, w, USD) + 20
  {
    StartIsInitial();
    var w, now := BeforeStranding();
    NextReached(STRANDING, 7, w, Step(CFG, ENV, w, AcceptBuyout(7, 1)));
    assert STRANDING[..8] == STRANDING;
    RepaymentsStranded(CFG, ENV, w, 7, 1, now);
  }

  // ── A buyout that everybody accepts and that does not settle ───────────────

  const UNANIMOUS: seq<Action> := OPENING + [
    RecordPosition(1, 1, 7, 1, 3),
    RecordPosition(1, 1, 8, 1, 3),
    RecordPosition(1, 1, 9, 1, 3),
    ProposeBuyout(6, 1, 50),
    AcceptBuyout(7, 1),
    AcceptBuyout(8, 1),
    AcceptBuyout(9, 1)]

  ghost function Third(h: Address): Position {
    Position(h, 1, 1, 3333, 0)
  }

  ghost function Thirds(n: nat): Positions
    requires n <= 3
  {
    if n == 0 then map[] else Thirds(n - 1)[6 + n := Third(6 + n)]
  }

  /** After `n` of the three positions are recorded. */
  ghost function RecordedThirds(n: nat): World
    requires n <= 3
  {
    var c := Funded90().core;
    if n == 0 then Funded90() else With(c.tokens, c.pool.(positions := map[1 := Thirds(n)], aggregate := map[USD := n]))
  }

  /** After `accepted` agreed to the offer of 50. */
  ghost function Agreed(accepted: seq<Address>): World
    requires |accepted| <= 3
  {
    var c := RecordedThirds(3).core;
    With(c.tokens[(USD, 6) := 20][(USD, 3) := 140],
         c.pool.(buyouts := map[1 := Buyout(1, 50, 3333 * |accepted|, accepted)]))
  }

  lemma ThirdGoes(n: nat)
    requires n < 3
    ensures Goes(RecordedThirds(n), RecordPosition(1, 1, 7 + n, 1, 3), RecordedThirds(n + 1))
  {
    ThirdRecorded(n);
    assert Pools.ShareOf(1, 3) == Ok(3333);
    assert RecordedThirds(n).core.nft == RecordedThirds(n + 1).core.nft == Funded90().core.nft;
  }

  lemma ThirdRecorded(n: nat)
    requires n < 3
    ensures var p, p' := RecordedThirds(n).core.pool, RecordedThirds(n + 1).core.pool;
            && 1 in p.pools && p.pools[1].token == USD && 7 + n !in p.PositionsOf(1) && p.AggregateFunded(USD) == n
            && p' == p.(positions := p.positions[1 := p.PositionsOf(1)[7 + n := Third(7 + n)]],
                        aggregate := p.aggregate[USD := n + 1])
  {
    var p, p' := RecordedThirds(n).core.pool, RecordedThirds(n + 1).core.pool;
    assert p.PositionsOf(1) == Thirds(n) && 7 + n !in Thirds(n);
    assert p.positions[1 := p.PositionsOf(1)[7 + n := Third(7 + n)]] == p'.positions;
    assert p.aggregate[USD := n + 1] == p'.aggregate;
  }

  lemma ProposeThirdsGoes()
    ensures Goes(RecordedThirds(3), ProposeBuyout(6, 1, 50), Agreed([]))
  {
    assert RecordedThirds(3).core.pool.buyouts[1 := Buyout(1, 50, 0, [])] == Agreed([]).core.pool.buyouts;
  }

  lemma AgreeGoes(accepted: seq<Address>, h: Address)
    requires |accepted| < 3 && h !in accepted && 7 <= h <= 9
    ensures Goes(Agreed(accepted), AcceptBuyout(h, 1), Agreed(accepted + [h]))
  {
    assert h in Thirds(3) && Thirds(3)[h] == Third(h);
    assert Agreed(accepted).core.pool.buyouts[1 := Agreed(accepted + [h]).core.pool.buyouts[1]]
        == Agreed(accepted + [h]).core.pool.buyouts;
  }

  lemma ThirdNext(actions: seq<Action>, i: nat, n: nat)
    requires n < 3 && i < |actions| && actions[i] == RecordPosition(1, 1, 7 + n, 1, 3)
    requires Reached(actions[..i]) == RecordedThirds(n)
    ensures Reached(actions[..i + 1]) == RecordedThirds(n + 1)
  {
    ThirdGoes(n);
    NextReached(actions, i, RecordedThirds(n), RecordedThirds(n + 1));
  }

  lemma AgreeNext(actions: seq<Action>, i: nat, accepted: seq<Address>, h: Address, after: seq<Address>)
    requires |accepted| < 3 && h !in accepted && 7 <= h <= 9 && after == accepted + [h]
    requires i < |actions| && actions[i] == AcceptBuyout(h, 1) && Reached(actions[..i]) == Agreed(accepted)
    ensures Reached(actions[..i + 1]) == Agreed(after)
  {
    AgreeGoes(accepted, h);
    NextReached(actions, i, Agreed(accepted), Agreed(accepted + [h]));
  }

  /** The calls after the opening, one by one. */
  ghost predicate RecordsThirdsAndAgrees(actions: seq<Action>) {
    && |actions| == 11 && OPENING <= actions
    && actions[4] == RecordPosition(1, 1, 7, 1, 3) && actions[5] == RecordPosition(1, 1, 8, 1, 3)
    && actions[6] == RecordPosition(1, 1, 9, 1, 3) && actions[7] == ProposeBuyout(6, 1, 50)
    && actions[8] == AcceptBuyout(7, 1) && actions[9] == AcceptBuyout(8, 1) && actions[10] == AcceptBuyout(9, 1)
  }

  lemma NoThirdsReached(actions: seq<Action>)
    requires OPENING <= actions
    ensures Reached(actions[..4]) == RecordedThirds(0)
  {
    OpeningReaches(actions);
  }

  lemma OneThirdReached(actions: seq<Action>)
    requires RecordsThirdsAndAgrees(actions)
    ensures Reached(actions[..5]) == RecordedThirds(1)
  {
    NoThirdsReached(actions);
    ThirdNext(actions, 4, 0);
  }

  lemma TwoThirdsReached(actions: seq<Action>)
    requires RecordsThirdsAndAgrees(actions)
    ensures Reached(actions[..6]) == RecordedThirds(2)
  {
    OneThirdReached(actions);
    ThirdNext(actions, 5, 1);
  }

  lemma ThirdsReached(actions: seq<Action>)
    requires RecordsThirdsAndAgrees(actions)
    ensures Reached(actions[..7]) == RecordedThirds(3)
  {
    TwoThirdsReached(actions);
    ThirdNext(actions, 6, 2);
  }

  lemma OfferReached(actions: seq<Action>)
    requires RecordsThirdsAndAgrees(actions)
    ensures Reached(actions[..8]) == Agreed([])
  {
    ThirdsReached(actions);
    ProposeThirdsGoes();
    NextReached(actions, 7, RecordedThirds(3), Agreed([]));
  }

  lemma OneAgrees(actions: seq<Action>)
    requires RecordsThirdsAndAgrees(actions)
    ensures Reached(actions[..9]) == Agreed([7])
  {
    OfferReached(actions);
    AgreeNext(actions, 8, [], 7, [7]);
  }

  lemma AllAgree(actions: seq<Action>)
    requires RecordsThirdsAndAgrees(actions)
    ensures Reached(actions[..11]) == Agreed([7, 8, 9])
  {
    OneAgrees(actions);
    AgreeNext(actions, 9, [7], 8, [7, 8]);
    AgreeNext(actions, 10, [7, 8], 9, [7, 8, 9]);
  }

  /** From initialization: three equal investors hold the whole pool and all accept. The offer
      stands at 9_999 and the pool stays open; nobody is left to accept. */
  lemma UnanimousBuyoutDoesNotSettle()
    ensures Initial(START) && CFG.Valid()
    ensures var p := Reached(UNANIMOUS).core.pool;
            && 1 in p.buyouts && p.buyouts[1].acceptedBps == 9_999
            && (forall h | h in p.PositionsOf(1) :: h in p.buyouts[1].accepted)
            && 1 in p.pools && !p.pools[1].isClosed
  {
    StartIsInitial();
    AllAgree(UNANIMOUS);
    assert UNANIMOUS[..11] == UNANIMOUS;
    assert forall h | h in Thirds(3) :: h in [7, 8, 9];
  }

  // ── Invoices above their SME's credit limit ────────────────────────────────

  const LIMITED := ENV.(creditLimits := map[6 := 100])
  const LARGE := TERMS.(amount := 1_000)

  const TWO_MINTS: seq<Action> := [Mint(6, TERMS, USDC, None), Mint(6, TERMS, USDC, None)]
  const RAISED: seq<Action> := [
    Mint(6, TERMS, USDC, None),
    Amend(6, 1, LARGE),
    Withdraw(6, 1),
    Mint(6, LARGE, USDC, None)]

  /** The world after these calls, all made while the SME's limit is 100. */
  ghost function LimitedTo(actions: seq<Action>): World {
    After(CFG, START, seq(|actions|, i requires 0 <= i < |actions| => Call(LIMITED, actions[i])))
  }

  /** START with these invoices and exposures. */
  ghost function Holding(nft: NftStore): World {
    START.(core := START.core.(nft := nft))
  }

  ghost predicate GoesLimited(nft: NftStore, a: Action, nft': NftStore) {
    Apply(CFG, LIMITED, Holding(nft), a) == Ok(Holding(nft'))
  }

  /** One more call of the list, which commits. */
  lemma NextLimited(actions: seq<Action>, i: nat, nft: NftStore, nft': NftStore)
    requires i < |actions| && LimitedTo(actions[..i]) == Holding(nft) && GoesLimited(nft, actions[i], nft')
    ensures LimitedTo(actions[..i + 1]) == Holding(nft') && Commits(CFG, LIMITED, LimitedTo(actions[..i]), actions[i])
  {
    var run := seq(i + 1, j requires 0 <= j < i + 1 => Call(LIMITED, actions[j]));
    assert run[..i] == seq(i, j requires 0 <= j < i => Call(LIMITED, actions[..i][j]));
    assert run == seq(i + 1, j requires 0 <= j < i + 1 => Call(LIMITED, actions[..i + 1][j]));
  }

  ghost function Fresh(id: Id, terms: InvoiceTerms): Invoice {
    Invoice(id, 6, terms, USDC, [], AAA, Created, 1000, None, None, None)
  }

  lemma FirstMintLimited(actions: seq<Action>)
    requires |actions| > 0 && actions[0] == Mint(6, TERMS, USDC, None)
    ensures LimitedTo(actions[..1]) == Holding(Minted(Created, None))
    ensures Commits(CFG, LIMITED, LimitedTo(actions[..0]), actions[0])
  {
    NextLimited(actions, 0, START.core.nft, Minted(Created, None));
  }

  ghost function TwiceMinted(): NftStore {
    NftStore(3, map[1 := Fresh(1, TERMS), 2 := Fresh(2, TERMS)], {}, map[])
  }

  lemma SecondMintGoes()
    ensures GoesLimited(Minted(Created, None), Mint(6, TERMS, USDC, None), TwiceMinted())
  {
    assert Minted(Created, None).invoices[2 := Fresh(2, TERMS)] == TwiceMinted().invoices;
  }

  lemma TwiceMintedLive()
    ensures LiveTotal(TwiceMinted(), 6) == 200
  {
    SingleSum(LiveAmounts(Minted(Created, None), 6), 1);
    LiveSet(Minted(Created, None), TwiceMinted(), 2, 6);
  }

  /** From initialization, with a limit of 100: two invoices of 100 are minted, and both live. */
  lemma MintsAboveLimit()
    ensures Initial(START) && CFG.Valid() && LIMITED.CreditLimit(6) == 100
    ensures forall i: nat | i < 2 :: Commits(CFG, LIMITED, LimitedTo(TWO_MINTS[..i]), TWO_MINTS[i])
    ensures LiveTotal(LimitedTo(TWO_MINTS).core.nft, 6) == 200
  {
    StartIsInitial();
    FirstMintLimited(TWO_MINTS);
    SecondMintGoes();
    NextLimited(TWO_MINTS, 1, Minted(Created, None), TwiceMinted());
    assert TWO_MINTS[..2] == TWO_MINTS;
    TwiceMintedLive();
  }

  ghost function Enlarged(): NftStore {
    NftStore(2, map[1 := Fresh(1, LARGE)], {}, map[])
  }

  ghost function Withdrawn(): NftStore {
    NftStore(2, map[], {}, map[6 := -1_000])
  }

  ghost function MintedAnew(): NftStore {
    NftStore(3, map[2 := Fresh(2, LARGE)], {}, map[6 := -1_000])
  }

  lemma AmendGoes()
    ensures GoesLimited(Minted(Created, None), Amend(6, 1, LARGE), Enlarged())
  {
    assert Minted(Created, None).invoices[1 := Fresh(1, LARGE)] == Enlarged().invoices;
  }

  lemma WithdrawGoes()
    ensures GoesLimited(Enlarged(), Withdraw(6, 1), Withdrawn())
  {
    assert Enlarged().invoices - {1} == map[];
  }

  lemma LargeMintGoes()
    ensures GoesLimited(Withdrawn(), Mint(6, LARGE, USDC, None), MintedAnew())
  {
    assert Withdrawn().invoices[2 := Fresh(2, LARGE)] == MintedAnew().invoices;
  }

  lemma RaisedReached()
    ensures LimitedTo(RAISED[..2]) == Holding(Enlarged()) && LimitedTo(RAISED[..4]) == Holding(MintedAnew())
    ensures forall i: nat | i < 4 :: Commits(CFG, LIMITED, LimitedTo(RAISED[..i]), RAISED[i])
  {
    FirstMintLimited(RAISED);
    AmendGoes();
    NextLimited(RAISED, 1, Minted(Created, None), Enlarged());
    WithdrawGoes();
    NextLimited(RAISED, 2, Enlarged(), Withdrawn());
    LargeMintGoes();
    NextLimited(RAISED, 3, Withdrawn(), MintedAnew());
  }

  lemma RaisedLive()
    ensures LiveTotal(Enlarged(), 6) == LiveTotal(MintedAnew(), 6) == 1_000
  {
    SingleSum(LiveAmounts(Enlarged(), 6), 1);
    SingleSum(LiveAmounts(MintedAnew(), 6), 2);
  }

  /** From initialization, with a limit of 100: an invoice of 100 is amended to 1_000; and after
      it is withdrawn, a fresh one of 1_000 is minted. */
  lemma AmendmentAboveLimit()
    ensures Initial(START) && CFG.Valid() && LIMITED.CreditLimit(6) == 100
    ensures forall i: nat | i < 4 :: Commits(CFG, LIMITED, LimitedTo(RAISED[..i]), RAISED[i])
    ensures LiveTotal(LimitedTo(RAISED[..2]).core.nft, 6) == 1_000
    ensures LiveTotal(LimitedTo(RAISED).core.nft, 6) == 1_000
  {
    StartIsInitial();
    RaisedReached();
    assert RAISED[..4] == RAISED;
    RaisedLive();
  }
}
