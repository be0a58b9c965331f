/** The numeric helpers of src/utils/math-helper.ts. `Math.random()` becomes
    the parameter `draw`, a value in [0, 1). */
module MathHelper {
  import opened Types

  /** randomInt: floor(draw * (max - min + 1)) + min, an integer in [min, max]. */
  function RandomInt(min: int, max: int, draw: real): (r: int)
    ensures min <= max && 0.0 <= draw < 1.0 ==> min <= r <= max
  {
    var span := max - min + 1;
    var scaled := draw * span as real;
    assert min <= max && 0.0 <= draw < 1.0 ==> 0.0 <= scaled < span as real by {
      if min <= max && 0.0 <= draw < 1.0 {
        ScaleBelow(draw, span as real);
      }
    }
    scaled.Floor + min
  }

  /** draw * n stays inside [0, n) when draw is in [0, 1) and n is positive. */
  lemma ScaleBelow(draw: real, n: real)
    requires 0.0 <= draw < 1.0 && n > 0.0
    ensures 0.0 <= draw * n < n
  {
    assert n - draw * n == (1.0 - draw) * n;
  }

  /** percentage: 0 when total is 0, otherwise value / total * 100. */
  function Percentage(value: real, total: real): (r: real)
    ensures total == 0.0 ==> r == 0.0
    ensures total != 0.0 ==> r * total == value * 100.0
  {
    if total == 0.0 then 0.0 else (value / total) * 100.0
  }

  /** isWithinTolerance: |value - target| <= tolerance, boundary included. */
  function IsWithinTolerance(value: real, target: real, tolerance: real): (r: bool)
    ensures r <==> target - tolerance <= value <= target + tolerance
  {
    Abs(value - target) <= tolerance
  }

  /** The tolerance test does not depend on which argument is the target, and
      every value is within any non-negative tolerance of itself. */
  lemma ToleranceSymmetricReflexive(a: real, b: real, tolerance: real)
    ensures IsWithinTolerance(a, b, tolerance) == IsWithinTolerance(b, a, tolerance)
    ensures tolerance >= 0.0 ==> IsWithinTolerance(a, a, tolerance)
  {
  }
}
