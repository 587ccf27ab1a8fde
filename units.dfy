/**
 * Unit conversion (utils.go): a human-readable amount is scaled by 10^decimals
 * and rounded to the nearest integer, which is then stored as a uint64.
 * Amounts are exact reals; rounding is math.Round, which on the non-negative
 * values allowed here rounds halves upwards.
 */
module Units {

  /** One more than the largest uint64. */
  const U64Limit: int := 0x1_0000_0000_0000_0000

  type u64 = x: int | 0 <= x < U64Limit
  type u8 = x: int | 0 <= x < 256

  /** Decimal places of native-currency amounts (lamports per SOL is 10^9). */
  const LamportDecimals: u8 := 9

  /** 10^d, exactly (math.Pow10). */
  function Pow10(d: nat): (r: nat)
    ensures r >= 1
  {
    if d == 0 then 1 else 10 * Pow10(d - 1)
  }

  /** The factor an amount with `d` decimal places is multiplied by. */
  function Scale(d: nat): (f: real)
    ensures f >= 1.0
  {
    Pow10(d) as real
  }

  /** math.Round on a non-negative value: the nearest integer, with a tie going up. */
  function Round(x: real): (r: nat)
    requires x >= 0.0
    ensures x - 0.5 < r as real <= x + 0.5
  {
    (x + 0.5).Floor
  }

  /**
   * The inputs for which the conversion is defined: a non-negative amount whose
   * rounded scaled value fits in a uint64 (Go's conversion of a larger float is
   * not modelled).
   */
  predicate Convertible(human: real, decimals: nat)
  {
    0.0 <= human && human * Scale(decimals) + 0.5 < U64Limit as real
  }

  /** ConvertToDecimals: round(human * 10^decimals). */
  function ConvertToDecimals(human: real, decimals: u8): (r: u64)
    requires Convertible(human, decimals)
    ensures human * Scale(decimals) - 0.5 < r as real <= human * Scale(decimals) + 0.5
  {
    var rp := human * Scale(decimals);
    ProductNonNegative(human, Scale(decimals));
    Round(rp)
  }

  /** ConvertToLamport: the same conversion at a fixed nine decimal places. */
  function ConvertToLamport(amount: real): (r: u64)
    requires Convertible(amount, LamportDecimals as nat)
    ensures r == ConvertToDecimals(amount, LamportDecimals)
  {
    Round(amount * 1_000_000_000.0)
  }

  /** Scaling a non-negative amount keeps it non-negative. */
  lemma ProductNonNegative(a: real, b: real)
    requires a >= 0.0 && b >= 0.0
    ensures a * b >= 0.0
  {
  }

  /** Rounding has one answer: any integer within half a unit (ties up) is the rounded value. */
  lemma RoundUnique(x: real, n: int)
    requires x >= 0.0
    requires x - 0.5 < n as real <= x + 0.5
    ensures Round(x) == n
  {
  }

  /** Zero converts to zero at every precision. */
  lemma ConvertZero(d: u8)
    ensures Convertible(0.0, d)
    ensures ConvertToDecimals(0.0, d) == 0
  {
  }

  /** Scaling by a non-negative factor preserves order. */
  lemma ScaleMonotone(a: real, b: real, f: real)
    requires a <= b && f >= 0.0
    ensures a * f <= b * f
  {
  }

  /** Rounding preserves order. */
  lemma RoundMonotone(x1: real, x2: real)
    requires 0.0 <= x1 <= x2
    ensures Round(x1) <= Round(x2)
  {
  }

  /** A larger amount never converts to fewer base units. */
  lemma ConvertMonotone(h1: real, h2: real, d: u8)
    requires Convertible(h1, d) && Convertible(h2, d)
    requires h1 <= h2
    ensures ConvertToDecimals(h1, d) <= ConvertToDecimals(h2, d)
  {
    var f := Scale(d);
    ScaleMonotone(h1, h2, f);
    ProductNonNegative(h1, f);
    RoundMonotone(h1 * f, h2 * f);
  }

  /** An amount with at most `d` decimal places, k / 10^d, converts to exactly k base units. */
  lemma ConvertExact(k: nat, d: u8)
    requires Convertible(k as real / Scale(d), d)
    ensures ConvertToDecimals(k as real / Scale(d), d) == k
  {
  }

  /** A whole amount n converts to n * 10^d base units. */
  lemma ConvertWhole(n: nat, d: u8)
    requires Convertible(n as real, d)
    ensures ConvertToDecimals(n as real, d) == n * Pow10(d)
  {
  }

  /** The expected values of the conversion tests. */
  lemma ConversionVectors()
    ensures ConvertToDecimals(1.0, 6) == 1_000_000
    ensures ConvertToDecimals(0.5, 6) == 500_000
    ensures ConvertToDecimals(2.345, 3) == 2345
    ensures ConvertToDecimals(1.23456789, 8) == 123_456_789
    ensures ConvertToLamport(1.0) == 1_000_000_000
    ensures ConvertToLamport(0.5) == 500_000_000
    ensures ConvertToLamport(0.000000001) == 1
  {
  }

  /** The amounts minted and transferred in the mint-and-transfer scenario, at ten decimals. */
  lemma ScenarioAmounts()
    ensures ConvertToDecimals(1000.0, 10) == 10_000_000_000_000
    ensures ConvertToDecimals(250.0, 10) == 2_500_000_000_000
  {
  }
}
