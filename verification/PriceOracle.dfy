/** Currency conversion by stored prices (contracts/price_oracle/src/lib.rs). */
module PriceOracle {
  import opened Outcomes
  import opened Validation
  import opened BasisPoints

  type Address = nat
  type Symbol = string

  const MAX_STALENESS_SECS: nat := 3600
  const PRICE_SCALE: int := 10_000_000

  datatype PriceData = PriceData(price: i128, timestamp: nat)

  type Prices = map<(Symbol, Symbol), PriceData>

  /** The stored price, unless it is missing or older than an hour; the age saturates at 0. */
  function GetPrice(prices: Prices, now: nat, base: Symbol, quote: Symbol): Result<PriceData> {
    if (base, quote) !in prices then Err(InvalidAmount) else
    var data := prices[(base, quote)];
    var age := if now <= data.timestamp then 0 else now - data.timestamp;
    if age > MAX_STALENESS_SECS then Err(InvoiceExpired) else Ok(data)
  }

  function Convert(prices: Prices, now: nat, amount: i128, from: Symbol, to: Symbol): Result<i128> {
    if from == to then Ok(amount) else
    var data :- GetPrice(prices, now, from, to);
    var product :- Fit(amount * data.price);
    TruncDivShrinks(product, PRICE_SCALE);
    var converted := TruncDiv(product, PRICE_SCALE);
    if converted <= 0 then Err(InvalidAmount) else Ok(converted)
  }

  class PriceOracle {
    const admin: Address
    var prices: Prices

    constructor (admin: Address)
      ensures this.admin == admin && prices == map[]
    {
      this.admin := admin;
      prices := map[];
    }

    method SetPrice(caller: Address, now: nat, base: Symbol, quote: Symbol, price: i128) returns (r: Status)
      modifies this
      ensures r == if caller != admin then Failed(NotAdmin) else if price <= 0 then Failed(InvalidAmount) else Done
      ensures prices == if r.Done? then old(prices)[(base, quote) := PriceData(price, now)] else old(prices)
    {
      if caller != admin { return Failed(NotAdmin); }
      if price <= 0 { return Failed(InvalidAmount); }
      prices := prices[(base, quote) := PriceData(price, now)];
      return Done;
    }
  }

  /** A conversion of a positive amount is the floor of the exact product and is positive;
      the price used is at most an hour old. */
  lemma ConvertExact(prices: Prices, now: nat, amount: i128, from: Symbol, to: Symbol)
    requires amount > 0 && Convert(prices, now, amount, from, to).Ok?
    ensures Convert(prices, now, amount, from, to).value > 0
    ensures from != to ==>
              && (from, to) in prices
              && now - prices[(from, to)].timestamp <= MAX_STALENESS_SECS
              && prices[(from, to)].price > 0
              && Convert(prices, now, amount, from, to).value == amount * prices[(from, to)].price / PRICE_SCALE
  {
    if from != to {
      var price := prices[(from, to)].price;
      if price <= 0 { MulMono(price, 0, amount); }
      else { MulMono(0, amount, price); }
    }
  }

  /** A price is returned exactly when it is stored and at most an hour old, or stamped ahead
      of the ledger; it is then the stored one. */
  lemma PriceAvailableExactly(prices: Prices, now: nat, base: Symbol, quote: Symbol)
    ensures GetPrice(prices, now, base, quote).Ok? <==>
              (base, quote) in prices && now <= prices[(base, quote)].timestamp + 3_600
    ensures GetPrice(prices, now, base, quote).Ok? ==>
              GetPrice(prices, now, base, quote).value == prices[(base, quote)]
  {
  }

  /** A positive amount converts exactly when the currencies are one, or the pair has a price
      that is fresh, and the product fits and comes to at least one unit. */
  lemma ConvertsExactly(prices: Prices, now: nat, amount: i128, from: Symbol, to: Symbol)
    requires amount > 0
    ensures Convert(prices, now, amount, from, to).Ok? <==>
              from == to ||
              ((from, to) in prices && now <= prices[(from, to)].timestamp + 3_600
               && 10_000_000 <= amount * prices[(from, to)].price <= I128_MAX)
  {
    if from != to && (from, to) in prices {
      var product := amount * prices[(from, to)].price;
      if product >= PRICE_SCALE { DivBounds(product, PRICE_SCALE); }
      else if product < 0 { DivBounds(-product, PRICE_SCALE); }
    }
  }

  /** The credit never exceeds the payment, whatever is paid, exactly when the price is at
      most one unit per unit. */
  lemma CreditWithinPayment(prices: Prices, now: nat, from: Symbol, to: Symbol)
    requires from != to && GetPrice(prices, now, from, to).Ok? && prices[(from, to)].price > 0
    ensures (forall amount: i128 | amount > 0 && Convert(prices, now, amount, from, to).Ok? ::
               Convert(prices, now, amount, from, to).value <= amount)
       <==> prices[(from, to)].price <= PRICE_SCALE
  {
    var price := prices[(from, to)].price;
    forall amount: i128 | price <= PRICE_SCALE && amount > 0 && Convert(prices, now, amount, from, to).Ok?
      ensures Convert(prices, now, amount, from, to).value <= amount
    {
      ConvertExact(prices, now, amount, from, to);
      MulMono(price, PRICE_SCALE, amount);
    }
    if price > PRICE_SCALE {
      var amount: i128 := if price >= 2 * PRICE_SCALE then 1 else PRICE_SCALE;
      assert Convert(prices, now, amount, from, to).Ok? && Convert(prices, now, amount, from, to).value > amount;
    }
  }

  ghost function CreditOf(prices: Prices, now: nat, payments: seq<i128>, from: Symbol, to: Symbol): Result<int> {
    if payments == [] then Ok(0) else
    var credit :- Convert(prices, now, payments[0], from, to);
    var rest :- CreditOf(prices, now, payments[1..], from, to);
    Ok(credit + rest)
  }

  lemma {:induction false} CreditIsFloor(prices: Prices, now: nat, payments: seq<i128>, from: Symbol, to: Symbol)
    requires from != to && (forall p | p in payments :: p > 0) && payments != []
    requires CreditOf(prices, now, payments, from, to).Ok?
    ensures (from, to) in prices && prices[(from, to)].price > 0
    ensures CreditOf(prices, now, payments, from, to).value
         == FloorTotal(payments, prices[(from, to)].price, PRICE_SCALE)
  {
    var rest := payments[1..];
    assert forall p | p in rest :: p in payments;
    assert payments[0] in payments;
    ConvertExact(prices, now, payments[0], from, to);
    if rest != [] { CreditIsFloor(prices, now, rest, from, to); }
  }

  /** n partial repayments at one price are credited at most the lump-sum credit and at
      least that minus n - 1. */
  lemma SplittingRepayments(prices: Prices, now: nat, payments: seq<i128>, whole: i128, from: Symbol, to: Symbol)
    requires (forall p | p in payments :: p > 0) && payments != [] && Total(payments) == whole
    requires CreditOf(prices, now, payments, from, to).Ok? && Convert(prices, now, whole, from, to).Ok?
    ensures Convert(prices, now, whole, from, to).value - (|payments| - 1)
         <= CreditOf(prices, now, payments, from, to).value
         <= Convert(prices, now, whole, from, to).value
  {
    if from == to {
      SameCurrencyCredit(prices, now, payments, from);
    } else {
      CreditIsFloor(prices, now, payments, from, to);
      var price := prices[(from, to)].price;
      SplitFloor(payments, price, PRICE_SCALE);
      if whole > 0 { ConvertExact(prices, now, whole, from, to); }
    }
  }

  lemma {:induction false} SameCurrencyCredit(prices: Prices, now: nat, payments: seq<i128>, symbol: Symbol)
    ensures CreditOf(prices, now, payments, symbol, symbol) == Ok(Total(payments))
  {
    if payments != [] { SameCurrencyCredit(prices, now, payments[1..], symbol); }
  }
}
