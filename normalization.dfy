/**
 * Min-max normalisation, the helper the card stack uses to derive the top
 * card's rotation and the peek scale of the card beneath it from the drag
 * distance. Floats are modelled as reals.
 */
module Normalization {

  /** What `normalize` produces: a value, or the failed range requirement. */
  datatype Outcome = Ok(value: real) | StartNotBelowEnd

  /** Kotlin's `coerceIn(lo, hi)` on a float whose range is not empty. */
  function Clamp(v: real, lo: real, hi: real): (r: real)
    requires lo <= hi
    ensures lo <= r <= hi
    ensures lo <= v <= hi ==> r == v
    ensures v <= lo ==> r == lo
    ensures v >= hi ==> r == hi
  {
    if v < lo then lo else if v > hi then hi else v
  }

  /**
   * `normalize(min, max, v, startRange, endRange)`: clamp `v` into
   * [min, max], then map [min, max] linearly onto [startRange, endRange].
   * The range requirement is checked first and is the only failure; the
   * requirement min < max stands for the float division by zero (and the
   * empty-range exception of `coerceIn`) that the model does not capture.
   */
  function Normalize(min: real, max: real, v: real, startRange: real, endRange: real): (r: Outcome)
    requires min < max
    ensures r.Ok? <==> startRange < endRange
    ensures r.Ok? ==> startRange <= r.value <= endRange
    ensures r.Ok? && v <= min ==> r.value == startRange
    ensures r.Ok? && v >= max ==> r.value == endRange
    ensures r.Ok? && v > min ==> r.value > startRange
    ensures r.Ok? && v < max ==> r.value < endRange
  {
    if !(startRange < endRange) then StartNotBelowEnd
    else
      var c := Clamp(v, min, max);
      UnitScaleBounds(c - min, max - min, endRange - startRange);
      Ok((c - min) / (max - min) * (endRange - startRange) + startRange)
  }

  /** 0 <= a <= d maps to 0 <= a / d * w <= w, strictly inside when a is. */
  lemma UnitScaleBounds(a: real, d: real, w: real)
    requires d > 0.0 && w > 0.0 && 0.0 <= a <= d
    ensures 0.0 <= a / d * w <= w
    ensures a > 0.0 ==> a / d * w > 0.0
    ensures a < d ==> a / d * w < w
  {
    var t := a / d;
    assert t * d == a;
    assert 0.0 <= t <= 1.0;
    if a < d {
      assert t < 1.0;
      assert t * w < 1.0 * w;
    }
    if a > 0.0 {
      assert t > 0.0;
    }
  }

  /** Inside [min, max] the clamp does nothing and the map is exactly affine. */
  lemma NormalizeInside(min: real, max: real, v: real, startRange: real, endRange: real)
    requires min <= v <= max && min < max && startRange < endRange
    ensures Normalize(min, max, v, startRange, endRange)
         == Ok(startRange + (v - min) * (endRange - startRange) / (max - min))
  {
  }

  /**
   * Equal steps of `v` inside [min, max] give equal steps of the result:
   * the result moves by (endRange - startRange) / (max - min) per unit of `v`.
   */
  lemma NormalizeAffine(min: real, max: real, v1: real, v2: real, startRange: real, endRange: real)
    requires min <= v1 <= max && min <= v2 <= max
    requires min < max && startRange < endRange
    ensures Normalize(min, max, v2, startRange, endRange).value
          - Normalize(min, max, v1, startRange, endRange).value
         == (v2 - v1) * (endRange - startRange) / (max - min)
  {
  }

  /** The midpoint of [min, max] maps to the midpoint of the target range. */
  lemma NormalizeMidpoint(min: real, max: real, startRange: real, endRange: real)
    requires min < max && startRange < endRange
    ensures Normalize(min, max, (min + max) / 2.0, startRange, endRange)
         == Ok((startRange + endRange) / 2.0)
  {
  }

  /** The result never decreases as `v` grows. */
  lemma NormalizeMonotone(min: real, max: real, v1: real, v2: real, startRange: real, endRange: real)
    requires v1 <= v2 && min < max && startRange < endRange
    ensures Normalize(min, max, v1, startRange, endRange).value
         <= Normalize(min, max, v2, startRange, endRange).value
  {
    var c1, c2 := Clamp(v1, min, max), Clamp(v2, min, max);
    assert c1 <= c2;
    NormalizeAffine(min, max, c1, c2, startRange, endRange);
    assert Normalize(min, max, v1, startRange, endRange) == Normalize(min, max, c1, startRange, endRange);
    assert Normalize(min, max, v2, startRange, endRange) == Normalize(min, max, c2, startRange, endRange);
    ProductQuotientNonnegative(c2 - c1, endRange - startRange, max - min);
  }

  lemma ProductQuotientNonnegative(a: real, b: real, d: real)
    requires a >= 0.0 && b >= 0.0 && d > 0.0
    ensures a * b / d >= 0.0
  {
    assert a * b >= 0.0;
  }
}
