/** The min/max scaling shared by every continuous feature (price and age). */
module Normalization {
  /** `normalize(value, min, max)`: `(value - min) / ((max - min) || 1)`.
      A range of zero is falsy in JavaScript, so the denominator then falls
      back to 1 and the result is the plain offset `value - min`. */
  function Normalize(value: real, min: real, max: real): (r: real)
    ensures max != min ==> r == (value - min) / (max - min)
    ensures max == min ==> r == value - min
  {
    var range := max - min;
    (value - min) / (if range != 0.0 then range else 1.0)
  }

  /** A value inside a non-degenerate range is scaled into `[0, 1]`. */
  lemma NormalizeInUnitInterval(value: real, min: real, max: real)
    requires min < max && min <= value <= max
    ensures 0.0 <= Normalize(value, min, max) <= 1.0
  {
    QuotientInUnitInterval(value - min, max - min);
  }

  lemma QuotientInUnitInterval(x: real, d: real)
    requires 0.0 <= x <= d && d > 0.0
    ensures 0.0 <= x / d <= 1.0
  {
    var q := x / d;
    assert q * d == x;
    assert (1.0 - q) * d == d - x;
  }

  /** The midpoint of a non-degenerate range is scaled to exactly one half. */
  lemma MidpointIsHalf(min: real, max: real)
    requires min < max
    ensures Normalize((min + max) / 2.0, min, max) == 0.5
  {
    var range := max - min;
    assert (min + max) / 2.0 - min == 0.5 * range;
    assert (0.5 * range) / range == 0.5;
  }

  /** On a degenerate range every value is scaled to its offset from `min`,
      so the midpoint (which is `min` itself) is scaled to 0, not to one half. */
  lemma DegenerateMidpointIsZero(min: real)
    ensures Normalize((min + min) / 2.0, min, min) == 0.0
  {
  }
}
