/** The marketplace, the financing pool, the invoices and the tokens as one transition
    system: every call anybody can make, and runs of such calls. */
module Protocol {
  import opened Outcomes
  import opened Validation
  import opened Records
  import Tokens = TokenLedger
  import Nft = InvoiceNft
  import Pools = PoolSpec
  import Market = MarketSpec

  datatype Action =
    // invoice_nft
    | Mint(sme: Address, terms: InvoiceTerms, currency: Symbol, notes: Option<string>)
    | Amend(sme: Address, id: Id, terms: InvoiceTerms)
    | Withdraw(sme: Address, id: Id)
    | SetDefaulted(caller: Address, id: Id)
    | SetFrozen(caller: Address, id: Id, freeze: bool)
    // marketplace
    | SetFee(caller: Address, bps: u32)
    | SetTierFee(caller: Address, tier: RiskTier, bps: u32)
    | Whitelist(caller: Address, token: Address, add: bool)
    | List(seller: Address, id: Id, asking: i128, face: i128, token: Address, deadline: nat, referrer: Option<Address>)
    | Fund(investor: Address, id: Id, amount: i128)
    | CancelListing(caller: Address, id: Id)
    | RequestCancellation(caller: Address, id: Id)
    | ConfirmCancellation(caller: Address, id: Id)
    | ClaimRefund(investor: Address, id: Id)
    // financing_pool
    | SetMaxPosition(caller: Address, bps: u32)
    | RecordPosition(caller: Address, id: Id, investor: Address, contributed: i128, total: i128)
    | Repay(payer: Address, id: Id, token: Address, amount: i128)
    | MarkDefault(caller: Address, id: Id, token: Address)
    | ProposeBuyout(sme: Address, id: Id, amount: i128)
    | AcceptBuyout(investor: Address, id: Id)
    | CancelBuyout(sme: Address, id: Id)
    | ListForSale(seller: Address, id: Id, token: Address, price: i128)
    | BuyPosition(buyer: Address, id: Id, seller: Address)
    // the token contracts, used by anyone
    | TokenTransfer(token: Address, from: Address, to: Address, amount: i128)
    | TokenMint(token: Address, to: Address, minted: nat)

  ghost function OnNft(w: World, r: Result<NftStore>): Result<World> {
    var nft :- r;
    Ok(w.(core := w.core.(nft := nft)))
  }

  ghost function OnCore(w: World, r: Result<Core>): Result<World> {
    var core :- r;
    Ok(w.(core := core))
  }

  ghost function Apply(cfg: Config, env: Env, w: World, a: Action): Result<World> {
    match a
    case Mint(sme, terms, currency, notes) => OnNft(w, Nft.Mint(env, w.core.nft, sme, terms, currency, notes))
    case Amend(sme, id, terms) => OnNft(w, Nft.Amend(env, w.core.nft, sme, id, terms))
    case Withdraw(sme, id) => OnNft(w, Nft.Withdraw(env, w.core.nft, sme, id))
    case SetDefaulted(caller, id) => OnNft(w, Nft.SetDefaulted(cfg, env, w.core.nft, caller, id))
    case SetFrozen(caller, id, freeze) => OnNft(w, Nft.SetFrozen(cfg, w.core.nft, caller, id, freeze))
    case SetFee(caller, bps) => Market.SetFee(cfg, w, caller, bps)
    case SetTierFee(caller, tier, bps) => Market.SetTierFee(cfg, w, caller, tier, bps)
    case Whitelist(caller, token, add) => Market.Whitelist(cfg, w, caller, token, add)
    case List(seller, id, asking, face, token, deadline, referrer) =>
      Market.ListInvoice(cfg, env, w, seller, id, asking, face, token, deadline, referrer)
    case Fund(investor, id, amount) => Market.FundInvoice(cfg, env, w, investor, id, amount)
    case CancelListing(caller, id) => Market.CancelListing(cfg, w, caller, id)
    case RequestCancellation(caller, id) => Market.RequestCancellation(cfg, w, caller, id)
    case ConfirmCancellation(caller, id) => Market.ConfirmCancellation(cfg, w, caller, id)
    case ClaimRefund(investor, id) => Market.ClaimRefund(cfg, env, w, investor, id)
    case SetMaxPosition(caller, bps) => OnCore(w, Pools.SetMaxPosition(cfg, w.core, caller, bps))
    case RecordPosition(caller, id, investor, contributed, total) =>
      OnCore(w, Pools.RecordPosition(cfg, env, w.core, caller, id, investor, contributed, total))
    case Repay(payer, id, token, amount) => OnCore(w, Pools.Repay(cfg, env, w.core, payer, id, token, amount))
    case MarkDefault(caller, id, token) => OnCore(w, Pools.MarkDefault(cfg, env, w.core, caller, id, token))
    case ProposeBuyout(sme, id, amount) => OnCore(w, Pools.ProposeBuyout(cfg, env, w.core, sme, id, amount))
    case AcceptBuyout(investor, id) => OnCore(w, Pools.AcceptBuyout(cfg, env, w.core, investor, id))
    case CancelBuyout(sme, id) => OnCore(w, Pools.CancelBuyout(cfg, w.core, sme, id))
    case ListForSale(seller, id, token, price) => OnCore(w, Pools.ListForSale(env, w.core, seller, id, token, price))
    case BuyPosition(buyer, id, seller) => OnCore(w, Pools.BuyPosition(env, w.core, buyer, id, seller))
    case TokenTransfer(token, from, to, amount) =>
      var b :- Tokens.Transfer(w.core.tokens, token, from, to, amount);
      Ok(w.(core := w.core.(tokens := b)))
    case TokenMint(token, to, amount) =>
      Ok(w.(core := w.core.(tokens := Tokens.Credit(w.core.tokens, token, to, amount))))
  }

  /** One call: it commits, or the host undoes it. */
  ghost function Step(cfg: Config, env: Env, w: World, a: Action): World {
    Commit(w, Apply(cfg, env, w, a))
  }

  ghost predicate Commits(cfg: Config, env: Env, w: World, a: Action) {
    Apply(cfg, env, w, a).Ok?
  }

  // ── Runs ───────────────────────────────────────────────────────────────────

  datatype Call = Call(env: Env, action: Action)

  type Run = seq<Call>

  ghost function After(cfg: Config, w: World, run: Run): World {
    if run == [] then w else
    var last := run[|run| - 1];
    Step(cfg, last.env, After(cfg, w, run[..|run| - 1]), last.action)
  }

  /** The world in which call `i` of the run is made. */
  ghost function Before(cfg: Config, w: World, run: Run, i: nat): World
    requires i <= |run|
  {
    After(cfg, w, run[..i])
  }

  /** Ledger time never decreases. */
  ghost predicate Timely(run: Run) {
    forall i, j | 0 <= i < j < |run| :: run[i].env.now <= run[j].env.now
  }

  ghost function Clock(run: Run): nat {
    if run == [] then 0 else run[|run| - 1].env.now
  }

  lemma BeforeStep(cfg: Config, w: World, run: Run, i: nat)
    requires i < |run|
    ensures Before(cfg, w, run, i + 1) == Step(cfg, run[i].env, Before(cfg, w, run, i), run[i].action)
    ensures Before(cfg, w, run, |run|) == After(cfg, w, run)
  {
    assert run[..i + 1][..i] == run[..i];
    assert run[..|run|] == run;
  }

  /** The storages right after initialization; anybody may already hold tokens. */
  ghost predicate Initial(w: World) {
    && w.market.feeBps <= BPS && 1 <= w.core.pool.maxPositionBps <= BPS
    && w.market == MarketStore(w.market.feeBps, map[], {}, map[], map[], {}, map[], map[], {})
    && w.core.nft == NftStore(1, map[], {}, map[])
    && w.core.pool == PoolStore(map[], map[], map[], map[], {}, w.core.pool.maxPositionBps, map[])
  }
}
