/**
 * The triangular fundamental diagram the example scripts inject into every
 * entity: a cell sends `min(maxV * den, maxQ)` and receives
 * `min(maxW * (maxDen - den), maxQ)`. Example 6 uses `maxV` in both places,
 * which is the diagram with `maxW == maxV`.
 */
module Triangular {
  import opened ExtReal
  import Chain

  datatype Diagram = Diagram(maxV: real, maxW: real, maxQ: real, maxDen: real)

  /** Free-flow speed and backward wave speed in `(0, 1]`, non-negative capacity and jam density. */
  predicate Physical(dg: Diagram) {
    0.0 < dg.maxV <= 1.0 && 0.0 < dg.maxW <= 1.0 && 0.0 <= dg.maxQ && 0.0 <= dg.maxDen
  }

  /** The sending (demand) branch of the diagram: free-flow demand, cut at the capacity. */
  function Sending(dg: Diagram, den: real): (r: real)
    ensures r <= dg.maxV * den && r <= dg.maxQ
    ensures r == dg.maxV * den || r == dg.maxQ
  {
    Min(dg.maxV * den, Fin(dg.maxQ))
  }

  /** The receiving (supply) branch of the diagram: backward-wave supply, cut at the capacity. */
  function Receiving(dg: Diagram, den: real): (r: real)
    ensures r <= dg.maxW * (dg.maxDen - den) && r <= dg.maxQ
    ensures r == dg.maxW * (dg.maxDen - den) || r == dg.maxQ
  {
    Min(dg.maxW * (dg.maxDen - den), Fin(dg.maxQ))
  }

  /**
   * The chain the scripts build from the diagram: every cell uses both
   * branches and has maximum density `maxDen`, the sink's receiving flow is
   * infinite and the source's demand function is `lambda: 0`.
   */
  function ChainConfig(dg: Diagram): (cfg: Chain.Config)
    ensures cfg.sinkReceiving == Inf && cfg.demand == 0.0 && cfg.maxDen == Fin(dg.maxDen)
  {
    Chain.Config(d => Sending(dg, d), d => Fin(Receiving(dg, d)), Inf, 0.0, Fin(dg.maxDen))
  }

  /** Scaling a non-negative quantity by a factor in `[0, 1]` keeps it in `[0, x]`. */
  lemma Scaled(a: real, x: real)
    requires 0.0 <= a <= 1.0 && 0.0 <= x
    ensures 0.0 <= a * x <= x
  {
    assert x - a * x == (1.0 - a) * x;
  }

  /** Multiplying by a non-negative factor keeps the order. */
  lemma ScaledOrder(a: real, x: real, y: real)
    requires 0.0 <= a && x <= y
    ensures a * x <= a * y
  {
    assert a * y - a * x == a * (y - x);
    assert a * (y - x) >= 0.0;
  }

  /**
   * An empty cell sends nothing; a non-empty one sends at most its density
   * and at most the capacity.
   */
  lemma SendingBounds(dg: Diagram, den: real)
    requires Physical(dg) && 0.0 <= den
    ensures 0.0 <= Sending(dg, den) <= den && Sending(dg, den) <= dg.maxQ
    ensures den == 0.0 ==> Sending(dg, den) == 0.0
  {
    var free := dg.maxV * den;
    Scaled(dg.maxV, den);
    assert 0.0 <= free <= den;
    assert den == 0.0 ==> free == 0.0;
    var m := Sending(dg, den);
    assert m == free || m == dg.maxQ;
    assert m <= free && m <= dg.maxQ;
  }

  /**
   * Up to the critical density `maxQ / maxV` a cell sends its free-flow
   * demand `maxV * den`, from there on the capacity `maxQ`.
   */
  lemma SendingBranches(dg: Diagram, den: real)
    requires 0.0 < dg.maxV
    ensures den <= dg.maxQ / dg.maxV ==> Sending(dg, den) == dg.maxV * den
    ensures dg.maxQ / dg.maxV <= den ==> Sending(dg, den) == dg.maxQ
  {
    var critical := dg.maxQ / dg.maxV;
    assert dg.maxV * critical == dg.maxQ;
    if den <= critical {
      ScaledOrder(dg.maxV, den, critical);
    }
    if critical <= den {
      ScaledOrder(dg.maxV, critical, den);
    }
  }

  /** More vehicles never send less. */
  lemma SendingMonotone(dg: Diagram, d1: real, d2: real)
    requires Physical(dg) && d1 <= d2
    ensures Sending(dg, d1) <= Sending(dg, d2)
  {
    assert dg.maxV * d2 - dg.maxV * d1 == dg.maxV * (d2 - d1);
    assert dg.maxV * (d2 - d1) >= 0.0;
  }

  /**
   * Within `[0, maxDen]` a cell receives a non-negative flow, at most the
   * capacity, and never more than the room it has left; at the jam density it
   * receives nothing.
   */
  lemma ReceivingBounds(dg: Diagram, den: real)
    requires Physical(dg) && 0.0 <= den <= dg.maxDen
    ensures 0.0 <= Receiving(dg, den) <= dg.maxQ
    ensures den + Receiving(dg, den) <= dg.maxDen
    ensures den == dg.maxDen ==> Receiving(dg, den) == 0.0
  {
    var room := dg.maxDen - den;
    var supply := dg.maxW * room;
    Scaled(dg.maxW, room);
    assert 0.0 <= supply <= room;
    assert room == 0.0 ==> supply == 0.0;
    var m := Receiving(dg, den);
    assert m == supply || m == dg.maxQ;
    assert m <= supply && m <= dg.maxQ;
  }

  /**
   * Up to `maxDen - maxQ / maxW` a cell receives the capacity `maxQ`, from
   * there on the backward-wave supply `maxW * (maxDen - den)`.
   */
  lemma ReceivingBranches(dg: Diagram, den: real)
    requires 0.0 < dg.maxW
    ensures den <= dg.maxDen - dg.maxQ / dg.maxW ==> Receiving(dg, den) == dg.maxQ
    ensures dg.maxDen - dg.maxQ / dg.maxW <= den ==> Receiving(dg, den) == dg.maxW * (dg.maxDen - den)
  {
    var room := dg.maxDen - den;
    var critical := dg.maxQ / dg.maxW;
    assert dg.maxW * critical == dg.maxQ;
    if den <= dg.maxDen - critical {
      ScaledOrder(dg.maxW, critical, room);
    }
    if dg.maxDen - critical <= den {
      ScaledOrder(dg.maxW, room, critical);
    }
  }

  /** More vehicles never receive more. */
  lemma ReceivingAntitone(dg: Diagram, d1: real, d2: real)
    requires Physical(dg) && d1 <= d2
    ensures Receiving(dg, d2) <= Receiving(dg, d1)
  {
    assert dg.maxW * (dg.maxDen - d1) - dg.maxW * (dg.maxDen - d2) == dg.maxW * (d2 - d1);
    assert dg.maxW * (d2 - d1) >= 0.0;
  }

  /** A physical diagram meets the chain's capacity contract, so no clamp ever fires. */
  lemma DiagramAdmissible(dg: Diagram)
    requires Physical(dg)
    ensures Chain.Admissible(ChainConfig(dg))
  {
    var cfg := ChainConfig(dg);
    forall d | 0.0 <= d
      ensures 0.0 <= cfg.sending(d) <= d
    {
      SendingBounds(dg, d);
    }
    forall d | 0.0 <= d && AtMost(d, cfg.maxDen)
      ensures NonNegative(cfg.receiving(d)) && cfg.receiving(d).Fin? && d + cfg.receiving(d).r <= cfg.maxDen.r
    {
      ReceivingBounds(dg, d);
    }
  }
}
