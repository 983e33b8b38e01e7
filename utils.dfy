/** The numeric helpers of `src/lib/utils.js`. JavaScript numbers are modelled
    as exact reals. */
module Utils {

  /** `Math.min` of two numbers. */
  function Min(a: real, b: real): (r: real)
    ensures r <= a && r <= b
    ensures r == a || r == b
  {
    if a <= b then a else b
  }

  /** `Math.max` of two numbers. */
  function Max(a: real, b: real): (r: real)
    ensures a <= r && b <= r
    ensures r == a || r == b
  {
    if a <= b then b else a
  }

  /** `clamp(value, min, max)`: the outer `Math.min` has the last word, so an
      inverted range yields `max`. */
  function Clamp(value: real, lo: real, hi: real): (r: real)
    ensures lo <= hi ==> lo <= r <= hi
    ensures lo <= value <= hi ==> r == value
    ensures value < lo <= hi ==> r == lo
    ensures lo <= hi < value ==> r == hi
    ensures hi < lo ==> r == hi
  {
    Min(Max(value, lo), hi)
  }

  /** Clamping an already clamped value changes nothing. */
  lemma ClampIdempotent(value: real, lo: real, hi: real)
    ensures Clamp(Clamp(value, lo, hi), lo, hi) == Clamp(value, lo, hi)
  {
  }

  /** `lerp(start, end, t)`: linear interpolation, with `t` not restricted to
      the unit interval. */
  function Lerp(start: real, end: real, t: real): (r: real)
    ensures t == 0.0 ==> r == start
    ensures t == 1.0 ==> r == end
    ensures start == end ==> r == start
    ensures r - start == (end - start) * t
  {
    start * (1.0 - t) + end * t
  }

  /** For an increasing range, interpolation is non-decreasing in `t`. */
  lemma LerpMonotone(start: real, end: real, t1: real, t2: real)
    requires start <= end && t1 <= t2
    ensures Lerp(start, end, t1) <= Lerp(start, end, t2)
  {
    var d := end - start;
    assert Lerp(start, end, t2) - Lerp(start, end, t1) == d * (t2 - t1);
    assert 0.0 <= d && 0.0 <= t2 - t1;
  }

  /** For `t` in the unit interval the interpolated value lies between the ends. */
  lemma LerpBetween(start: real, end: real, t: real)
    requires start <= end && 0.0 <= t <= 1.0
    ensures start <= Lerp(start, end, t) <= end
  {
    LerpMonotone(start, end, 0.0, t);
    LerpMonotone(start, end, t, 1.0);
  }
}
