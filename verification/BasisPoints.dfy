/** What the basis-point functions compute, when they succeed, and what rounding costs. */
module BasisPoints {
  import opened Outcomes
  import opened Validation

  // ── The plain fee ──────────────────────────────────────────────────────────

  lemma BpsOfExact(amount: i128, bps: u32)
    ensures BpsOf(amount, bps).Ok? <==> 0 <= amount && (bps == 0 || amount <= I128_MAX / bps)
    ensures BpsOf(amount, bps).Ok? ==>
              var fee := BpsOf(amount, bps).value;
              && fee * BPS <= amount * bps < (fee + 1) * BPS
              && 0 <= fee && (bps <= BPS ==> fee <= amount)
  {
    if amount >= 0 {
      MulMono(0, amount, bps);
      DivBounds(amount * bps, BPS);
      if bps > 0 {
        DivBounds(I128_MAX, bps);
        if amount <= I128_MAX / bps { MulMono(amount, I128_MAX / bps, bps); }
        else { MulMono(I128_MAX / bps + 1, amount, bps); }
      }
      if bps <= BPS { MulMono(bps, BPS, amount); }
    }
  }

  /** Staying below the "overflow-safety ceiling" does not keep the product in range. */
  lemma CeilingIsNotEnough()
    ensures MAX_AMOUNT <= I128_MAX && BpsOf(MAX_AMOUNT, 3) == Err(ArithmeticOverflow)
  {
  }

  /** The ceiling under which every valid rate succeeds. */
  lemma SafeForEveryRate(amount: i128)
    ensures (forall bps: u32 | bps <= BPS :: BpsOf(amount, bps).Ok?) <==> 0 <= amount <= I128_MAX / BPS
  {
    BpsOfExact(amount, BPS);
    forall bps: u32 | bps <= BPS && 0 <= amount <= I128_MAX / BPS
      ensures BpsOf(amount, bps).Ok?
    {
      BpsOfExact(amount, bps);
      if bps > 0 {
        DivBounds(I128_MAX, BPS);
        MulMono(bps, BPS, I128_MAX / BPS);
        DivBounds(I128_MAX, bps);
        if I128_MAX / bps < amount { MulMono(I128_MAX / bps + 1, amount, bps); MulMono(bps, BPS, amount); }
      }
    }
    assert BpsOf(amount, BPS).Ok? <==> 0 <= amount <= I128_MAX / BPS;
  }

  // ── The normalised fee refines the plain one ───────────────────────────────

  /** With at most 7 decimals, normalising is exact: same fee, and it succeeds exactly when
      the scaled amount and the scaled product both fit. */
  lemma FewDecimals(amount: i128, bps: u32, decimals: u32)
    requires decimals <= STANDARD_DECIMALS
    ensures var scale := Pow10(STANDARD_DECIMALS - decimals);
            BpsOfNormalized(amount, bps, decimals).Ok? <==>
              0 <= amount && amount * scale <= I128_MAX && amount * scale * bps <= I128_MAX
    ensures BpsOfNormalized(amount, bps, decimals).Ok? ==>
              && BpsOf(amount, bps) == BpsOfNormalized(amount, bps, decimals)
              && BpsOfNormalized(amount, bps, decimals).value == amount * bps / BPS
  {
    var scale := Pow10(STANDARD_DECIMALS - decimals);
    Pow10UpTo7(STANDARD_DECIMALS - decimals);
    if amount >= 0 {
      MulMono(1, scale, amount);
      MulMono(0, amount * scale, bps);
      MulMono(0, amount, bps);
      MulMono(amount, amount * scale, bps);
      assert (amount * bps) * scale == amount * scale * bps;
      ScaledFloor(amount * bps, scale, BPS);
    }
  }

  /** With more than 7 decimals, digits below `K` are dropped twice: the fee is a multiple of
      `K`, never above the plain fee, and less than `2 * K` below it. */
  lemma ManyDecimals(amount: i128, bps: u32, decimals: u32)
    requires decimals > STANDARD_DECIMALS && bps <= BPS
    ensures var K := Pow10(decimals - STANDARD_DECIMALS);
            && K >= 1
            && (BpsOfNormalized(amount, bps, decimals).Ok? <==>
                0 <= amount && K <= I128_MAX && amount / K * bps <= I128_MAX)
            && (BpsOfNormalized(amount, bps, decimals).Ok? ==>
                var fee := BpsOfNormalized(amount, bps, decimals).value;
                && fee % K == 0
                && 0 <= amount * bps / BPS - fee < 2 * K)
  {
    var K := Pow10(decimals - STANDARD_DECIMALS);
    Pow10Positive(decimals - STANDARD_DECIMALS);
    if 0 <= amount && K <= I128_MAX {
      var n := amount / K;
      DivBounds(amount, K);
      MulMono(0, n, bps);
      var q := n * bps / BPS;
      DivBounds(n * bps, BPS);
      TruncatedTwice(amount, bps, K);
      MulMono(q, n, K) by { MulMono(bps, BPS, n); }
      assert q * K <= amount;
      assert (q * K) % K == 0 by { MultipleOf(q, K); }
    }
  }

  lemma MultipleOf(q: int, K: int)
    requires q >= 0 && K >= 1
    ensures (q * K) % K == 0
  {
    FloorIs(q * K, K, q);
    assert q * K == K * (q * K / K) + (q * K) % K;
  }

  lemma TruncatedBelow(amount: int, bps: int, K: int)
    requires amount >= 0 && 0 <= bps <= BPS && K >= 1
    ensures (amount / K * bps / BPS) * K <= amount * bps / BPS
  {
    var n := amount / K;
    DivBounds(amount, K);
    MulMono(0, n, bps);
    MulMono(0, amount, bps);
    var q := n * bps / BPS;
    DivBounds(n * bps, BPS);
    DivBounds(amount * bps, BPS);
    MulMono(n * K, amount, bps);
    MulMono(q * BPS, n * bps, K);
    MulSwap(n, K, bps);
    MulSwap(q, BPS, K);
    var qK := q * K;
    assert qK * BPS <= amount * bps;
  }

  lemma TruncatedAbove(amount: int, bps: int, K: int)
    requires amount >= 0 && 0 <= bps <= BPS && K >= 1
    ensures amount * bps / BPS < (amount / K * bps / BPS) * K + 2 * K
  {
    var n := amount / K;
    DivBounds(amount, K);
    MulMono(0, n, bps);
    MulMono(0, amount, bps);
    var q := n * bps / BPS;
    DivBounds(n * bps, BPS);
    DivBounds(amount * bps, BPS);
    MulMono(amount, (n + 1) * K, bps);
    MulSwap(n + 1, K, bps);
    assert (n + 1) * bps == n * bps + bps;
    BelowScaled((n + 1) * bps, q + 2, K);
    assert (q + 2) * K == q * K + 2 * K;
    var plain, bound := amount * bps / BPS, (q + 2) * K;
    if bound <= plain { MulMono(bound, plain, BPS); }
  }

  lemma BelowScaled(x: int, q: int, K: int)
    requires K >= 1 && x < q * BPS
    ensures x * K < (q * K) * BPS
  {
    MulMono(x + 1, q * BPS, K);
    MulSwap(q, BPS, K);
    assert (x + 1) * K == x * K + K;
  }

  /** Dropping the digits below `K` before and after the rate costs less than `2 * K`. */
  lemma TruncatedTwice(amount: int, bps: int, K: int)
    requires amount >= 0 && 0 <= bps <= BPS && K >= 1
    ensures 0 <= amount * bps / BPS - (amount / K * bps / BPS) * K < 2 * K
  {
    TruncatedBelow(amount, bps, K);
    TruncatedAbove(amount, bps, K);
  }

  /** Whatever the decimals, a payout never exceeds the exact share. */
  lemma NeverAboveExactShare(amount: i128, bps: u32, decimals: u32)
    requires bps <= BPS && BpsOfNormalized(amount, bps, decimals).Ok?
    ensures 0 <= BpsOfNormalized(amount, bps, decimals).value <= amount * bps / BPS <= amount
  {
    if decimals <= STANDARD_DECIMALS { FewDecimals(amount, bps, decimals); }
    else {
      ManyDecimals(amount, bps, decimals);
      var K := Pow10(decimals - STANDARD_DECIMALS);
      DivBounds(amount, K);
      MulMono(0, amount / K, bps);
      MulMono(0, amount / K * bps / BPS, K);
    }
    MulMono(0, amount, bps);
    MulMono(bps, BPS, amount);
  }

  /** 10^(d - 7) for a token with d > 7 decimals, 1 otherwise: every fee is a multiple of it. */
  ghost function Grain(decimals: u32): (K: int)
    ensures K >= 1
  {
    if decimals <= STANDARD_DECIMALS then 1 else
    Pow10Positive(decimals - STANDARD_DECIMALS);
    Pow10(decimals - STANDARD_DECIMALS)
  }

  /** The most a fee can be below the plain one. */
  ghost function Slip(decimals: u32): int {
    if decimals <= STANDARD_DECIMALS then 0 else 2 * Grain(decimals) - 1
  }

  lemma NearPlainFee(amount: i128, bps: u32, decimals: u32)
    requires (decimals > STANDARD_DECIMALS ==> bps <= BPS) && BpsOfNormalized(amount, bps, decimals).Ok?
    ensures amount >= 0
    ensures 0 <= amount * bps / BPS - BpsOfNormalized(amount, bps, decimals).value <= Slip(decimals)
  {
    if decimals <= STANDARD_DECIMALS { FewDecimals(amount, bps, decimals); }
    else { ManyDecimals(amount, bps, decimals); }
  }

  // ── Decimal round trips ────────────────────────────────────────────────────

  /** Normalising and denormalising restores an amount with at most 7 decimals, and drops
      exactly the digits below `K` otherwise. */
  lemma RoundTrip(amount: i128, decimals: u32)
    requires amount >= 0 && NormalizeAmount(amount, decimals).Ok?
    ensures var restored := DenormalizeAmount(NormalizeAmount(amount, decimals).value, decimals);
            && restored.Ok?
            && (decimals <= STANDARD_DECIMALS ==> restored.value == amount)
            && (decimals > STANDARD_DECIMALS ==>
                Pow10(decimals - STANDARD_DECIMALS) >= 1 &&
                restored.value == amount - amount % Pow10(decimals - STANDARD_DECIMALS))
  {
    if decimals < STANDARD_DECIMALS { ScaledUpAndDown(amount, decimals); }
    else if decimals > STANDARD_DECIMALS { ScaledDownAndUp(amount, decimals); }
  }

  lemma ScaledUpAndDown(amount: i128, decimals: u32)
    requires decimals < STANDARD_DECIMALS && amount >= 0 && NormalizeAmount(amount, decimals).Ok?
    ensures DenormalizeAmount(NormalizeAmount(amount, decimals).value, decimals) == Ok(amount)
  {
    var scale := Pow10(STANDARD_DECIMALS - decimals);
    Pow10UpTo7(STANDARD_DECIMALS - decimals);
    MulMono(0, amount, scale);
    FloorIs(amount * scale, scale, amount);
  }

  lemma ScaledDownAndUp(amount: i128, decimals: u32)
    requires decimals > STANDARD_DECIMALS && amount >= 0 && NormalizeAmount(amount, decimals).Ok?
    ensures Pow10(decimals - STANDARD_DECIMALS) >= 1
    ensures DenormalizeAmount(NormalizeAmount(amount, decimals).value, decimals)
         == Ok(amount - amount % Pow10(decimals - STANDARD_DECIMALS))
  {
    var K := Pow10(decimals - STANDARD_DECIMALS);
    Pow10Positive(decimals - STANDARD_DECIMALS);
    DivMod(amount, K);
    var q := amount / K;
    assert NormalizeAmount(amount, decimals) == Ok(q);
    assert DenormalizeAmount(q, decimals) == Fit(q * K);
  }

  lemma DivMod(a: int, b: int)
    requires a >= 0 && b >= 1
    ensures 0 <= (a / b) * b == a - a % b <= a
  {
    DivBounds(a, b);
    MulMono(0, a / b, b);
  }

  // ── Splitting one amount into several ──────────────────────────────────────

  ghost function Total(xs: seq<int>): int {
    if xs == [] then 0 else xs[0] + Total(xs[1..])
  }

  ghost function FloorTotal(xs: seq<int>, num: int, den: int): int
    requires den > 0
  {
    if xs == [] then 0 else xs[0] * num / den + FloorTotal(xs[1..], num, den)
  }

  /** Rounding each of n parts down loses at most n - 1 against rounding the whole once. */
  lemma {:induction false} SplitFloor(xs: seq<int>, num: int, den: int)
    requires xs != [] && den > 0 && num >= 0
    requires forall x | x in xs :: x >= 0
    ensures Total(xs) >= 0
    ensures Total(xs) * num / den - (|xs| - 1) <= FloorTotal(xs, num, den) <= Total(xs) * num / den
  {
    var a, rest := xs[0], xs[1..];
    assert a in xs && forall x | x in rest :: x in xs;
    if rest == [] {
      assert Total(xs) == a && FloorTotal(xs, num, den) == a * num / den;
    } else {
      SplitFloor(rest, num, den);
      RateOfSum(a, Total(rest), num, den);
    }
  }

  lemma RateOfSum(a: int, b: int, num: int, den: int)
    requires a >= 0 && b >= 0 && num >= 0 && den > 0
    ensures a * num / den + b * num / den <= (a + b) * num / den <= a * num / den + b * num / den + 1
  {
    MulMono(0, a, num);
    MulMono(0, b, num);
    FloorOfSum(a * num, b * num, den);
    assert (a + b) * num == a * num + b * num;
  }

  lemma FloorOfSum(a: int, b: int, d: int)
    requires a >= 0 && b >= 0 && d > 0
    ensures a / d + b / d <= (a + b) / d <= a / d + b / d + 1
  {
    var p, q := a / d, b / d;
    DivBounds(a, d);
    DivBounds(b, d);
    MulDistributes(p, q, d);
    MulDistributes(p + 1, q + 1, d);
    QuotientBetween(a + b, d, p + q, p + 1 + (q + 1));
  }

  lemma MulDistributes(a: int, b: int, c: int)
    ensures (a + b) * c == a * c + b * c
  {
  }

  lemma {:induction false} TotalsAppend(xs: seq<int>, x: int, num: int, den: int)
    requires den > 0
    ensures Total(xs + [x]) == Total(xs) + x
    ensures FloorTotal(xs + [x], num, den) == FloorTotal(xs, num, den) + x * num / den
  {
    if xs == [] {
      assert [] + [x] == [x];
    } else {
      assert (xs + [x])[1..] == xs[1..] + [x];
      TotalsAppend(xs[1..], x, num, den);
    }
  }

  ghost function FeesOf(amounts: seq<i128>, bps: u32, decimals: u32): Result<int> {
    if amounts == [] then Ok(0) else
    var fee :- BpsOfNormalized(amounts[0], bps, decimals);
    var rest :- FeesOf(amounts[1..], bps, decimals);
    Ok(fee + rest)
  }

  lemma {:induction false} FeesNearFloors(amounts: seq<i128>, bps: u32, decimals: u32)
    requires (decimals > STANDARD_DECIMALS ==> bps <= BPS) && FeesOf(amounts, bps, decimals).Ok?
    ensures FloorTotal(amounts, bps, BPS) - |amounts| * Slip(decimals)
         <= FeesOf(amounts, bps, decimals).value
         <= FloorTotal(amounts, bps, BPS)
    ensures forall x | x in amounts :: x >= 0
  {
    if amounts != [] {
      NearPlainFee(amounts[0], bps, decimals);
      FeesNearFloors(amounts[1..], bps, decimals);
      MulDistributes(|amounts| - 1, 1, Slip(decimals));
      assert amounts == [amounts[0]] + amounts[1..];
    }
  }

  /** Funding a price in n contributions at one rate never costs more in fees than funding it
      at once, and at most n - 1 units less, plus what dropped digits take off each fee in a
      token with more than 7 decimals. */
  lemma SplittingFees(amounts: seq<i128>, price: i128, bps: u32, decimals: u32)
    requires (decimals > STANDARD_DECIMALS ==> bps <= BPS) && amounts != [] && Total(amounts) == price
    requires FeesOf(amounts, bps, decimals).Ok? && BpsOf(price, bps).Ok?
    ensures BpsOf(price, bps).value - (|amounts| - 1) - |amounts| * Slip(decimals)
         <= FeesOf(amounts, bps, decimals).value
         <= BpsOf(price, bps).value
  {
    FeesNearFloors(amounts, bps, decimals);
    SplitFloor(amounts, bps, BPS);
  }
}
