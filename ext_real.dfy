/**
 * Extended non-negative-capable reals: the engine uses `np.inf` as the default
 * maximum density and as the default receiving flow of a sink, so a bound is
 * either a finite real or infinity.
 */
module ExtReal {

  datatype Ext = Fin(r: real) | Inf

  /** `x <= b`, where every real is below infinity. */
  predicate AtMost(x: real, b: Ext) {
    b.Inf? || x <= b.r
  }

  /** `b >= 0`. */
  predicate NonNegative(b: Ext) {
    b.Inf? || 0.0 <= b.r
  }

  /** `np.minimum(a, b)` for a finite `a`: the result is always finite. */
  function Min(a: real, b: Ext): (m: real)
    ensures m <= a && AtMost(m, b)
    ensures m == a || b == Fin(m)
  {
    if b.Inf? || a <= b.r then a else b.r
  }
}
