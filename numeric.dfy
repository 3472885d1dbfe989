/** The scalar helpers every core file writes inline: Math.abs, Math.min,
    Math.max, Math.sign, the max(lo, min(hi, v)) clamp, and what it means
    for a supplied function to be the square root at a point. */
module Numeric {

  function Abs(x: real): (r: real)
    ensures 0.0 <= r && (r == x || r == -x)
  {
    if x < 0.0 then -x else x
  }

  function Min(a: real, b: real): (r: real)
    ensures r <= a && r <= b && (r == a || r == b)
  {
    if a <= b then a else b
  }

  function Max(a: real, b: real): (r: real)
    ensures a <= r && b <= r && (r == a || r == b)
  {
    if a >= b then a else b
  }

  /** Math.sign over reals: -1, 0 or 1. */
  function Sign(x: real): (r: real)
    ensures x > 0.0 ==> r == 1.0
    ensures x < 0.0 ==> r == -1.0
    ensures x == 0.0 ==> r == 0.0
  {
    if x > 0.0 then 1.0 else if x < 0.0 then -1.0 else 0.0
  }

  /** Math.max(lo, Math.min(hi, v)): when the range is empty the lower
      bound wins. */
  function Clamp(v: real, lo: real, hi: real): (r: real)
    ensures lo <= hi ==> lo <= r <= hi
    ensures lo <= v <= hi ==> r == v
    ensures hi < lo ==> r == lo
    ensures lo <= hi && v < lo ==> r == lo
    ensures lo <= hi && hi < v ==> r == hi
  {
    Max(lo, Min(hi, v))
  }

  /** A clamp never moves two values further apart. */
  lemma ClampNonExpansive(a: real, b: real, lo: real, hi: real)
    ensures Abs(Clamp(a, lo, hi) - Clamp(b, lo, hi)) <= Abs(a - b)
  {
  }

  /** Clamping twice is clamping once. */
  lemma ClampIdempotent(v: real, lo: real, hi: real)
    ensures Clamp(Clamp(v, lo, hi), lo, hi) == Clamp(v, lo, hi)
  {
  }

  /** `sqrt` returns the exact non-negative square root of x. */
  predicate SqrtAt(sqrt: real -> real, x: real)
  {
    0.0 <= sqrt(x) && sqrt(x) * sqrt(x) == x
  }
}
