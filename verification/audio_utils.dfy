/**
 * Range and mix helpers used by the knobs: clamped linear maps between the
 * unit interval and a parameter range, and the dry/wet split of a mix amount.
 * Numbers are exact reals; the floating-point NaN of a division by zero is
 * the `None` result.
 */
module AudioUtils {
  import opened Wrappers

  /**
   * `clamp(x, lower, upper)` as the clamp helper the range maps import computes
   * it: first cap at `upper`, then raise to `lower`, so `lower` wins when the
   * bounds are crossed.
   */
  function Clamp(x: real, lower: real, upper: real): (r: real)
    ensures lower <= upper ==> lower <= r <= upper
    ensures lower <= x <= upper ==> r == x
    ensures upper < lower ==> r == lower
  {
    var capped := if x <= upper then x else upper;
    if capped >= lower then capped else lower
  }

  /** Maps a unit-interval position onto [min, max]. */
  function NormalizeToRange(min: real, max: real, x: real): (r: real)
    ensures min <= max ==> min <= r <= max
    ensures x <= 0.0 ==> r == min
    ensures x >= 1.0 ==> r == max
    ensures 0.0 <= x <= 1.0 ==> r == min + x * (max - min)
  {
    Lerp(Clamp(x, 0.0, 1.0), min, max)
  }

  /**
   * Maps a value of [min, max] back onto the unit interval. A range of width
   * zero divides zero by zero, which is NaN: `None`.
   */
  function NormalizeFromRange(min: real, max: real, y: real): (r: Option<real>)
    ensures min == max <==> r.None?
    ensures min < max ==> r.Some? && 0.0 <= r.value <= 1.0
    ensures min < max && y <= min ==> r == Some(0.0)
    ensures min < max && y >= max ==> r == Some(1.0)
    ensures max < min ==> r == Some(0.0)
  {
    if max - min == 0.0 then None
    else
      var c := Clamp(y, min, max);
      if min < max then
        QuotientBounds(c - min, max - min);
        Some((c - min) / (max - min))
      else
        assert c - min == 0.0;
        assert (c - min) / (max - min) == 0.0;
        Some((c - min) / (max - min))
  }

  lemma ProductNonnegative(a: real, b: real)
    requires a >= 0.0 && b >= 0.0
    ensures a * b >= 0.0
  {
  }

  /** The point a fraction c of the way from min to max, which stays in [min, max]. */
  function Lerp(c: real, min: real, max: real): (r: real)
    requires 0.0 <= c <= 1.0
    ensures min <= max ==> min <= r <= max
    ensures c == 0.0 ==> r == min
    ensures c == 1.0 ==> r == max
  {
    var width := max - min;
    if width >= 0.0 then
      ProductNonnegative(c, width);
      ProductNonnegative(1.0 - c, width);
      assert (1.0 - c) * width == width - c * width;
      c * width + min
    else
      c * width + min
  }

  /** A part of a positive width is a fraction between zero and one of it. */
  lemma QuotientBounds(part: real, width: real)
    requires width > 0.0 && 0.0 <= part <= width
    ensures 0.0 <= part / width <= 1.0
    ensures part == 0.0 ==> part / width == 0.0
    ensures part == width ==> part / width == 1.0
  {
    assert part / width * width == part;
  }

  /** The dry and wet gains of a mix amount: `[1 - mix, mix]`. */
  function MixToDryWet(mix: real): (r: (real, real))
    ensures r.1 == mix
    ensures r.0 + r.1 == 1.0
  {
    (1.0 - mix, mix)
  }

  /** Going to a range and back is the identity on the unit interval. */
  lemma FromRangeAfterToRange(min: real, max: real, x: real)
    requires min < max && 0.0 <= x <= 1.0
    ensures NormalizeFromRange(min, max, NormalizeToRange(min, max, x)) == Some(x)
  {
    var y := NormalizeToRange(min, max, x);
    assert y - min == x * (max - min);
    assert (y - min) / (max - min) == x;
  }

  /** Coming back from a range and going out again clamps to the range. */
  lemma ToRangeAfterFromRange(min: real, max: real, y: real)
    requires min < max
    ensures NormalizeToRange(min, max, NormalizeFromRange(min, max, y).value) == Clamp(y, min, max)
  {
    var c := Clamp(y, min, max);
    var x := (c - min) / (max - min);
    assert x * (max - min) == c - min;
  }
}
