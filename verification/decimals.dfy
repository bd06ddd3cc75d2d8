/**
 * The fixed-point decimal type used for every amount and balance.
 *
 * A `Decimal` is modelled by its exact value. The library's representation
 * (a 96-bit mantissa with a scale of up to 28 digits) appears only where the
 * ledger depends on it: `checked_add` fails once the magnitude of the sum
 * exceeds `MAX`, and `rescale(4)` rounds to four fractional digits.
 */
module Decimals {
  import opened Results

  type Decimal = real

  /** The largest representable magnitude, 2^96 - 1. */
  const MAX: Decimal := 79228162514264337593543950335.0

  /** Ten to the number of fractional digits the ledger keeps (four). */
  const UNITS_PER_WHOLE: real := 10000.0

  predicate InRange(x: Decimal)
  {
    -MAX <= x <= MAX
  }

  /** `checked_add`: the exact sum, or `None` when it leaves the representable range. */
  function CheckedAdd(a: Decimal, b: Decimal): (r: Option<Decimal>)
    ensures r.Some? <==> InRange(a + b)
    ensures r.Some? ==> r.value == a + b
  {
    if InRange(a + b) then Some(a + b) else None
  }

  /** The value needs no more than four fractional digits (`scale() <= 4`). */
  predicate HasScaleAtMost4(x: Decimal)
  {
    (x * UNITS_PER_WHOLE).Floor as real == x * UNITS_PER_WHOLE
  }

  /** Rounds a non-negative value to four digits, a midpoint going up. */
  function RoundMagnitude4(x: Decimal): (r: Decimal)
    requires x >= 0.0
    ensures r >= 0.0
    ensures HasScaleAtMost4(r)
    ensures x - 0.00005 < r <= x + 0.00005
  {
    var units := (x * UNITS_PER_WHOLE + 0.5).Floor;
    assert (units as real / UNITS_PER_WHOLE) * UNITS_PER_WHOLE == units as real;
    units as real / UNITS_PER_WHOLE
  }

  /**
   * `rescale(4)`: the value rounded to four fractional digits, a midpoint
   * rounding away from zero.
   */
  function Rescale4(x: Decimal): (r: Decimal)
    ensures HasScaleAtMost4(r)
    ensures -0.00005 <= r - x <= 0.00005
    ensures x >= 0.0 ==> r >= 0.0
    ensures x <= 0.0 ==> r <= 0.0
  {
    if x >= 0.0 then RoundMagnitude4(x)
    else
      var m := RoundMagnitude4(-x);
      NegationKeepsScale(m);
      -m
  }

  lemma NegationKeepsScale(x: Decimal)
    requires HasScaleAtMost4(x)
    ensures HasScaleAtMost4(-x)
  {
    var k := (x * UNITS_PER_WHOLE).Floor;
    assert -x * UNITS_PER_WHOLE == (-k) as real;
  }

  /** Rescaling a value that already has at most four digits keeps it. */
  lemma RescaleKeepsFourDigitValues(x: Decimal)
    requires HasScaleAtMost4(x)
    ensures Rescale4(x) == x
  {
    var k := (x * UNITS_PER_WHOLE).Floor;
    if x >= 0.0 {
      assert (x * UNITS_PER_WHOLE + 0.5).Floor == k;
    } else {
      assert (-x * UNITS_PER_WHOLE + 0.5).Floor == -k;
    }
  }
}
