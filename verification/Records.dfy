/** The records the protocol contracts keep in storage (contracts/shared/src/types.rs), and
    the contracts' storages as values. */
module Records {
  import opened Outcomes
  import opened Validation
  import Oracle = PriceOracle

  type Address = nat
  type Id = nat
  type Symbol = string
  type Bytes = seq<bv8>

  const U64_MAX: nat := 0xFFFF_FFFF_FFFF_FFFF
  const USDC: Symbol := "USDC"

  /** What an invocation reads from outside the three protocol contracts: the ledger time,
      the pause flag of access_control, the oracle's prices, the sellers attested and the
      credit limits set in risk_registry, the tokens the treasury accepts fees in and the fees
      its ledger shows collected. */
  datatype Env = Env(
    now: nat,
    paused: bool,
    prices: Oracle.Prices,
    attested: set<Address>,
    creditLimits: map<Address, i128>,
    treasuryTokens: set<Address>,
    feesCollected: map<Address, i128>)
  {
    /** 0, no limit, for an SME without a profile. */
    function CreditLimit(sme: Address): i128 {
      if sme in creditLimits then creditLimits[sme] else 0
    }

    /** The treasury's `collect_fee`, up to the write of its ledger. */
    function CollectFee(token: Address, fee: i128): Result<i128> {
      if fee <= 0 then Err(InvalidAmount)
      else if token !in treasuryTokens then Err(TokenNotWhitelisted)
      else Fit((if token in feesCollected then feesCollected[token] else 0) + fee)
    }
  }

  /** Addresses wired at initialization, and the decimals each token contract reports. */
  datatype Config = Config(
    admin: Address,
    marketplace: Address,
    pool: Address,
    treasury: Address,
    latePenaltyBps: u32,
    decimals: map<Address, u32>)
  {
    predicate Valid() {
      && latePenaltyBps <= BPS
      && pool != marketplace && pool != treasury
    }
  }

  // ── invoice_nft ────────────────────────────────────────────────────────────

  datatype InvoiceStatus = Created | Listed | Funded | Repaid | Defaulted

  datatype RiskTier = AAA | AA | A | B | C

  function TierFromScore(score: u32): RiskTier {
    if score <= 20 then AAA else if score <= 40 then AA else if score <= 60 then A
    else if score <= 80 then B else C
  }

  /** The fields an SME supplies when minting or amending. */
  datatype InvoiceTerms = InvoiceTerms(
    debtorHash: Bytes, amount: i128, dueDate: nat, ipfsCid: string, riskScore: u32)

  datatype Invoice = Invoice(
    id: Id,
    sme: Address,
    terms: InvoiceTerms,
    currency: Symbol,
    metadataHash: Bytes,
    riskTier: RiskTier,
    status: InvoiceStatus,
    createdAt: nat,
    fundedAt: Option<nat>,
    repaidAt: Option<nat>,
    notes: Option<string>)

  datatype NftStore = NftStore(
    nextId: Id, invoices: map<Id, Invoice>, frozen: set<Id>, exposure: map<Address, i128>)
  {
    function Outstanding(sme: Address): i128 {
      if sme in exposure then exposure[sme] else 0
    }

    /** The exposure an invoice stands for, given back. */
    function Released(invoice: Invoice): NftStore {
      this.(exposure := exposure[invoice.sme := Saturate(Outstanding(invoice.sme) - invoice.terms.amount)])
    }
  }

  // ── financing_pool ─────────────────────────────────────────────────────────

  datatype Pool = Pool(
    invoiceId: Id,
    token: Address,
    totalFunded: i128,
    faceValue: i128,
    repaidAmount: i128,
    isClosed: bool,
    latePenaltyBps: u32,
    totalOwed: i128,
    penaltyApplied: bool)

  datatype Position = Position(
    investor: Address, invoiceId: Id, contributed: i128, shareBps: u32, yieldClaimed: i128)

  type Positions = map<Address, Position>

  datatype SaleOffer = SaleOffer(seller: Address, invoiceId: Id, token: Address, price: i128)

  datatype Buyout = Buyout(invoiceId: Id, amount: i128, acceptedBps: u32, accepted: seq<Address>)

  datatype PoolStore = PoolStore(
    pools: map<Id, Pool>,
    positions: map<Id, Positions>,
    saleOffers: map<(Id, Address), SaleOffer>,
    buyouts: map<Id, Buyout>,
    locks: set<Id>,
    maxPositionBps: u32,
    aggregate: map<Address, i128>)
  {
    function PositionsOf(id: Id): Positions {
      if id in positions then positions[id] else map[]
    }

    function AggregateFunded(token: Address): i128 {
      if token in aggregate then aggregate[token] else 0
    }
  }

  // ── marketplace ────────────────────────────────────────────────────────────

  datatype Listing = Listing(
    invoiceId: Id,
    seller: Address,
    askingPrice: i128,
    faceValue: i128,
    token: Address,
    fundedAmount: i128,
    fundingDeadline: nat,
    isActive: bool)

  datatype MarketStore = MarketStore(
    feeBps: u32,
    tierFeeBps: map<RiskTier, u32>,
    whitelist: set<Address>,
    listings: map<Id, Listing>,
    contributions: map<(Id, Address), i128>,
    refunded: set<(Id, Address)>,
    referrers: map<Id, Address>,
    cancelRequests: map<Id, Address>,
    cancelConfirmed: set<Id>)
  {
    function Contribution(id: Id, investor: Address): i128 {
      if (id, investor) in contributions then contributions[(id, investor)] else 0
    }

    function FeeFor(tier: RiskTier): u32 {
      if tier in tierFeeBps then tierFeeBps[tier] else feeBps
    }
  }

  // ── tokens, and the storages together ──────────────────────────────────────

  /** (token, holder) to balance; an absent entry is a zero balance. */
  type Balances = map<(Address, Address), nat>

  /** What the financing pool works on: token balances, invoices and its own storage. */
  datatype Core = Core(tokens: Balances, nft: NftStore, pool: PoolStore)

  /** What the marketplace works on: its own storage above the pool's. */
  datatype World = World(market: MarketStore, core: Core)
}
