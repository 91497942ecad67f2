/** Checked `i128` arithmetic, basis points and decimal normalisation
    (contracts/shared/src/validation.rs). */
module Validation {
  import opened Outcomes

  const I128_MAX: int := 0x7FFF_FFFF_FFFF_FFFF_FFFF_FFFF_FFFF_FFFF
  const I128_MIN: int := -I128_MAX - 1
  const MAX_AMOUNT: int := I128_MAX / 2
  const BPS: int := 10_000
  const STANDARD_DECIMALS: nat := 7

  type i128 = x: int | I128_MIN <= x <= I128_MAX
  type u32 = x: int | 0 <= x < 0x1_0000_0000

  /** A checked operation: the exact integer when it fits, the overflow error otherwise. */
  function Fit(x: int): Result<i128> {
    if I128_MIN <= x <= I128_MAX then Ok(x) else Err(ArithmeticOverflow)
  }

  /** A saturating operation on `i128`: the exact integer clamped to the type's range. */
  function Saturate(x: int): i128 {
    if x < I128_MIN then I128_MIN else if x > I128_MAX then I128_MAX else x
  }

  /** Rust's integer division, which truncates toward zero. */
  function TruncDiv(a: int, b: int): int
    requires b > 0
  {
    if a >= 0 then a / b else -((-a) / b)
  }

  function Pow10(n: nat): int {
    if n == 0 then 1 else 10 * Pow10(n - 1)
  }

  function BpsOf(amount: i128, bps: u32): Result<i128> {
    if amount < 0 then Err(InvalidAmount) else
    var product :- Fit(amount * bps);
    Ok(product / BPS)
  }

  function NormalizeAmount(amount: i128, decimals: u32): Result<i128> {
    if decimals == STANDARD_DECIMALS then Ok(amount)
    else if decimals < STANDARD_DECIMALS then
      var scale :- Fit(Pow10(STANDARD_DECIMALS - decimals));
      Fit(amount * scale)
    else
      var scale :- Fit(Pow10(decimals - STANDARD_DECIMALS));
      Pow10Positive(decimals - STANDARD_DECIMALS);
      TruncDivShrinks(amount, scale);
      Ok(TruncDiv(amount, scale))
  }

  function DenormalizeAmount(amount: i128, decimals: u32): Result<i128> {
    if decimals == STANDARD_DECIMALS then Ok(amount)
    else if decimals < STANDARD_DECIMALS then
      var scale :- Fit(Pow10(STANDARD_DECIMALS - decimals));
      Pow10Positive(STANDARD_DECIMALS - decimals);
      TruncDivShrinks(amount, scale);
      Ok(TruncDiv(amount, scale))
    else
      var scale :- Fit(Pow10(decimals - STANDARD_DECIMALS));
      Fit(amount * scale)
  }

  function BpsOfNormalized(amount: i128, bps: u32, decimals: u32): Result<i128> {
    if amount < 0 then Err(InvalidAmount) else
    var normalized :- NormalizeAmount(amount, decimals);
    var product :- Fit(normalized * bps);
    DenormalizeAmount(TruncDiv(product, BPS), decimals)
  }

  // ── Integer facts ──────────────────────────────────────────────────────────

  lemma {:induction false} Pow10Positive(n: nat)
    ensures Pow10(n) >= 1
  {
    if n > 0 { Pow10Positive(n - 1); }
  }

  lemma Pow10UpTo7(n: nat)
    requires n <= 7
    ensures 1 <= Pow10(n) <= 10_000_000
  {
    Pow10Positive(n);
    Pow10Below(n, 7);
    assert Pow10(3) == 1000 && Pow10(5) == 100_000 && Pow10(7) == 10_000_000;
  }

  lemma {:induction false} Pow10Below(m: nat, n: nat)
    requires m <= n
    ensures Pow10(m) <= Pow10(n)
    decreases n - m
  {
    if m < n {
      Pow10Positive(m);
      Pow10Below(m + 1, n);
    }
  }

  lemma TruncDivShrinks(a: int, b: int)
    requires b >= 1
    ensures a >= 0 ==> 0 <= TruncDiv(a, b) <= a
    ensures a <= 0 ==> a <= TruncDiv(a, b) <= 0
  {
    if a >= 0 { DivBounds(a, b); } else { DivBounds(-a, b); }
  }

  lemma MulMono(a: int, b: int, c: int)
    requires a <= b && c >= 0
    ensures a * c <= b * c
  {
    assert (b - a) * c >= 0;
  }

  lemma MulOrder(a: int, b: int, c: int)
    requires c > 0
    ensures a <= b <==> a * c <= b * c
  {
    if a <= b { MulMono(a, b, c); } else { MulMono(b + 1, a, c); }
  }

  lemma DivBounds(a: int, b: int)
    requires a >= 0 && b >= 1
    ensures 0 <= a / b <= a
    ensures (a / b) * b <= a < (a / b + 1) * b
  {
    var q := a / b;
    assert a == b * q + a % b;
    assert (q + 1) * b == q * b + b;
    MulMono(1, b, q);
  }

  /** The floor quotient is the only integer between its two bounds. */
  lemma FloorIs(n: int, d: int, q: int)
    requires d > 0 && q * d <= n < (q + 1) * d
    ensures n / d == q
  {
    var r := n / d;
    assert n == d * r + n % d;
    if r + 1 <= q { MulMono(r + 1, q, d); }
    if q + 1 <= r { MulMono(q + 1, r, d); }
  }

  /** A quotient lies between any two multiples of the divisor that bound the dividend. */
  lemma QuotientBetween(n: int, d: int, low: int, high: int)
    requires d > 0 && low * d <= n < high * d
    ensures low <= n / d < high
  {
    var r := n / d;
    assert n == d * r + n % d;
    if r < low { MulMono(r + 1, low, d); }
    if high <= r { MulMono(high, r, d); }
  }

  lemma ScaledBounds(low: int, x: int, high: int, s: int)
    requires s > 0 && low <= x < high
    ensures low * s <= x * s < high * s
  {
    MulMono(low, x, s);
    MulMono(x + 1, high, s);
  }

  lemma MulSwap(a: int, b: int, c: int)
    ensures (a * b) * c == (a * c) * b
  {
  }

  /** Scaling up by `s`, dividing by `m` and scaling back down loses nothing. */
  lemma ScaledFloor(x: int, s: int, m: int)
    requires x >= 0 && s > 0 && m > 0
    ensures (x * s) / m >= 0 && ((x * s) / m) / s == x / m
  {
    var q := x / m;
    DivBounds(x, m);
    ScaledBounds(q * m, x, (q + 1) * m, s);
    MulSwap(q, m, s);
    MulSwap(q + 1, m, s);
    QuotientBetween(x * s, m, q * s, (q + 1) * s);
    MulMono(0, q, s);
    FloorIs((x * s) / m, s, q);
  }
}
