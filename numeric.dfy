/**
 * The arithmetic helpers of the face pipeline: the clamp-normalisation every
 * embedding dimension passes through, and the square root the pipeline takes
 * from `Math.sqrt`.
 */
module Numeric {

  /**
   * `Math.sqrt` restricted to the non-negative reals. The model does not
   * construct square roots; every member that needs one takes the root
   * function as a parameter and requires it to be one.
   */
  ghost predicate IsSqrt(sqrt: real -> real) {
    forall x :: x >= 0.0 ==> sqrt(x) >= 0.0 && sqrt(x) * sqrt(x) == x
  }

  function Abs(x: real): real {
    if x < 0.0 then -x else x
  }

  function Min(a: real, b: real): real {
    if a <= b then a else b
  }

  function Max(a: real, b: real): real {
    if a >= b then a else b
  }

  /**
   * `Math.max(0, Math.min(1, (value - min) / (max - min)))`: rescales `value`
   * from the expected range [min, max] onto [0, 1], clipping what lies outside.
   */
  function NormalizeValue(value: real, min: real, max: real): (r: real)
    requires min < max
    ensures 0.0 <= r <= 1.0
    ensures min <= value <= max ==> r == (value - min) / (max - min)
    ensures value <= min ==> r == 0.0
    ensures value >= max ==> r == 1.0
  {
    var width := max - min;
    var scaled := (value - min) / width;
    assert scaled * width == value - min;
    assert value <= min ==> scaled <= 0.0;
    assert (scaled - 1.0) * width == value - max;
    SignOfProduct(scaled - 1.0, width);
    Max(0.0, Min(1.0, scaled))
  }

  /** Clamp-normalisation never reverses the order of two raw values. */
  lemma NormalizeMonotone(v1: real, v2: real, min: real, max: real)
    requires min < max
    requires v1 <= v2
    ensures NormalizeValue(v1, min, max) <= NormalizeValue(v2, min, max)
  {
    var d := max - min;
    assert (v1 - min) / d <= (v2 - min) / d by {
      assert (v2 - min) / d - (v1 - min) / d == (v2 - v1) / d;
    }
  }

  /** A positive factor does not change the sign of a product. */
  lemma SignOfProduct(a: real, w: real)
    requires w > 0.0
    ensures a < 0.0 ==> a * w < 0.0
    ensures a > 0.0 ==> a * w > 0.0
  {
  }
}
