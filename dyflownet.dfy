/**
 * The two scalar update rules of the engine: the discretised conservation law
 * that integrates a density over one time step, and the speed rule with its
 * zero-density convention. Quantities are exact reals; a maximum density of
 * `Inf` stands for `np.inf`.
 */
module DyFlowNet {
  import opened ExtReal

  /**
   * The conservation law before clamping: `den + (inflow - outflow) * timeStep / length`.
   * The vehicles on the cell (density times length) change by exactly the net
   * flow times the time step.
   */
  function Integrated(den: real, inflow: real, outflow: real, timeStep: real, length: real): (x: real)
    requires length != 0.0
    ensures (x - den) * length == (inflow - outflow) * timeStep
  {
    den + (inflow - outflow) * timeStep / length
  }

  /**
   * The density after one step, clamped into `[0, maxDen]` in the order the
   * engine applies the bounds: first the lower bound 0, then the upper bound.
   */
  function UpdateDensity(den: real, inflow: real, outflow: real, timeStep: real, length: real, maxDen: Ext): (r: real)
    requires length != 0.0
    ensures AtMost(r, maxDen)
    ensures NonNegative(maxDen) ==> 0.0 <= r
  {
    var x := Integrated(den, inflow, outflow, timeStep, length);
    var lower := if x < 0.0 then 0.0 else x;
    Min(lower, maxDen)
  }

  /**
   * The updated density is at most `maxDen` and, for a non-negative bound,
   * at least 0; inside the bounds the conservation law is exact, below 0 it
   * is raised to 0 and above `maxDen` it is cut to `maxDen`. A negative bound
   * wins over the lower bound.
   */
  lemma DensityClamped(den: real, inflow: real, outflow: real, timeStep: real, length: real, maxDen: Ext)
    requires length != 0.0
    ensures var r, x := UpdateDensity(den, inflow, outflow, timeStep, length, maxDen), Integrated(den, inflow, outflow, timeStep, length);
      && AtMost(r, maxDen)
      && (NonNegative(maxDen) ==> 0.0 <= r)
      && (0.0 <= x && AtMost(x, maxDen) ==> r == x)
      && (x < 0.0 && NonNegative(maxDen) ==> r == 0.0)
      && (!AtMost(x, maxDen) ==> maxDen == Fin(r))
      && (!NonNegative(maxDen) ==> maxDen == Fin(r))
  {
  }

  /**
   * The speed rule: `outflow / den` for a non-zero density. For a zero density
   * the outflow is masked to 0, the maximum speed is added and the density is
   * shifted to 1, so the quotient is the maximum speed and no division by zero
   * happens.
   */
  function UpdateSpeed(den: real, outflow: real, maxSpeed: real): (r: real)
    ensures den != 0.0 ==> r * den == outflow
    ensures den == 0.0 ==> r == maxSpeed
  {
    if den != 0.0 then outflow / den
    else
      var masked := if den > 0.0 then outflow else 0.0;
      var shifted := masked + (if den == 0.0 then maxSpeed else 0.0);
      shifted / (den + (if den == 0.0 then 1.0 else 0.0))
  }

  /** With no upper bound the update is `max(0, den + (inflow - outflow) * timeStep / length)`: the source's rule. */
  lemma UnboundedDensity(den: real, inflow: real, outflow: real, timeStep: real, length: real)
    requires length != 0.0
    ensures var x := Integrated(den, inflow, outflow, timeStep, length);
      UpdateDensity(den, inflow, outflow, timeStep, length, Inf) == if x < 0.0 then 0.0 else x
  {
  }

  /**
   * The sink integrates with outflow 0 and no upper bound: for a non-negative
   * inflow and time step over a positive length it never decreases.
   */
  lemma SinkDensityNeverDecreases(den: real, inflow: real, timeStep: real, length: real)
    requires 0.0 <= inflow && 0.0 <= timeStep && 0.0 < length
    ensures UpdateDensity(den, inflow, 0.0, timeStep, length, Inf) >= den
  {
    assert inflow * timeStep >= 0.0;
    assert (inflow - 0.0) * timeStep / length >= 0.0;
  }
}
