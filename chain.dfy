/**
 * The value-level meaning of one step of the example scripts' network: a
 * source, a chain of cells and a sink, joined by nodes that apply the minimum
 * rule. Node `k` takes flow from the source (k = 0) or from cell `k - 1`, and
 * passes it to cell `k` or, past the last cell, to the sink. Every flow is
 * computed from the densities at the start of the step, then every density is
 * integrated with the engine's conservation law.
 *
 * The main result: when the injected diagram never asks a cell to send more
 * than it holds or to receive more than it has room for, no clamp fires and
 * the step conserves vehicles: the total grows by exactly the source demand.
 */
module Chain {
  import opened ExtReal
  import DyFlowNet

  /**
   * What every entity of the chain shares. Every entity has the engine's
   * default length and time step, 1, as in the example scripts.
   */
  datatype Config = Config(
    sending: real -> real,  // the source's and every cell's sending-flow function
    receiving: real -> Ext, // every cell's receiving-flow function
    sinkReceiving: Ext,     // the value of the sink's receiving-flow function
    demand: real,           // the value of the source's demand function
    maxDen: Ext)            // every cell's maximum density

  /** The densities of the source, of each cell in order, and of the sink. */
  datatype Densities = Densities(source: real, cells: seq<real>, sink: real)

  /** The density of the entity feeding node `k`. */
  function UpstreamDen(st: Densities, k: nat): real
    requires k <= |st.cells|
  {
    if k == 0 then st.source else st.cells[k - 1]
  }

  /** The receiving flow of the entity node `k` feeds. */
  function DownstreamReceiving(cfg: Config, st: Densities, k: nat): Ext
    requires k <= |st.cells|
  {
    if k < |st.cells| then cfg.receiving(st.cells[k]) else cfg.sinkReceiving
  }

  /**
   * The minimum rule at node `k`: the node passes no more than its upstream
   * entity sends and its downstream entity receives, and as much as the
   * tighter of the two.
   */
  function Flow(cfg: Config, st: Densities, k: nat): (r: real)
    requires k <= |st.cells|
    ensures r <= cfg.sending(UpstreamDen(st, k)) && AtMost(r, DownstreamReceiving(cfg, st, k))
    ensures r == cfg.sending(UpstreamDen(st, k)) || DownstreamReceiving(cfg, st, k) == Fin(r)
  {
    Min(cfg.sending(UpstreamDen(st, k)), DownstreamReceiving(cfg, st, k))
  }

  /** The flows of nodes `0` up to `m - 1`, in order. */
  function Flows(cfg: Config, st: Densities, m: nat): (f: seq<real>)
    requires m <= |st.cells| + 1
    ensures |f| == m
    ensures forall k {:trigger Flow(cfg, st, k)} :: 0 <= k < m ==> f[k] == Flow(cfg, st, k)
  {
    if m == 0 then [] else Flows(cfg, st, m - 1) + [Flow(cfg, st, m - 1)]
  }

  /** The conservation law for cell `i`: inflow from node `i`, outflow to node `i + 1`. */
  function CellNext(cfg: Config, st: Densities, i: nat): real
    requires i < |st.cells|
  {
    DyFlowNet.UpdateDensity(st.cells[i], Flow(cfg, st, i), Flow(cfg, st, i + 1), 1.0, 1.0, cfg.maxDen)
  }

  /** One step: flows from the start-of-step densities, then the conservation law for each entity. */
  function Step(cfg: Config, st: Densities): (r: Densities)
    ensures |r.cells| == |st.cells|
    ensures forall i :: 0 <= i < |st.cells| ==> r.cells[i] == CellNext(cfg, st, i)
  {
    var n := |st.cells|;
    Densities(
      DyFlowNet.UpdateDensity(st.source, cfg.demand, Flow(cfg, st, 0), 1.0, 1.0, Inf),
      seq(n, i requires 0 <= i < n => CellNext(cfg, st, i)),
      DyFlowNet.UpdateDensity(st.sink, Flow(cfg, st, n), 0.0, 1.0, 1.0, Inf))
  }

  /** The conservation law applied to every entity, with `f[k]` the flow through node `k`. */
  function Conserve(cfg: Config, st: Densities, f: seq<real>): (r: Densities)
    requires |f| == |st.cells| + 1
    ensures |r.cells| == |st.cells|
    ensures forall i :: 0 <= i < |st.cells| ==>
      r.cells[i] == DyFlowNet.UpdateDensity(st.cells[i], f[i], f[i + 1], 1.0, 1.0, cfg.maxDen)
  {
    var n := |st.cells|;
    Densities(
      DyFlowNet.UpdateDensity(st.source, cfg.demand, f[0], 1.0, 1.0, Inf),
      seq(n, i requires 0 <= i < n => DyFlowNet.UpdateDensity(st.cells[i], f[i], f[i + 1], 1.0, 1.0, cfg.maxDen)),
      DyFlowNet.UpdateDensity(st.sink, f[n], 0.0, 1.0, 1.0, Inf))
  }

  /** A step is the conservation law applied with the node flows of the minimum rule. */
  lemma StepIsConserve(cfg: Config, st: Densities)
    ensures Step(cfg, st) == Conserve(cfg, st, Flows(cfg, st, |st.cells| + 1))
  {
    var f, n := Flows(cfg, st, |st.cells| + 1), |st.cells|;
    forall i | 0 <= i < n
      ensures Step(cfg, st).cells[i] == Conserve(cfg, st, f).cells[i]
    {
      assert f[i] == Flow(cfg, st, i) && f[i + 1] == Flow(cfg, st, i + 1);
    }
    assert f[0] == Flow(cfg, st, 0) && f[n] == Flow(cfg, st, n);
  }

  /** `steps` consecutive steps. */
  function Run(cfg: Config, st: Densities, steps: nat): (r: Densities)
    ensures |r.cells| == |st.cells|
    decreases steps
  {
    if steps == 0 then st else Run(cfg, Step(cfg, st), steps - 1)
  }

  /** One more step extends a run at its end. */
  lemma {:induction false} RunSucc(cfg: Config, st: Densities, steps: nat)
    ensures Run(cfg, st, steps + 1) == Step(cfg, Run(cfg, st, steps))
    decreases steps
  {
    if steps > 0 {
      RunSucc(cfg, Step(cfg, st), steps - 1);
    }
  }

  function Sum(s: seq<real>): real {
    if s == [] then 0.0 else s[0] + Sum(s[1..])
  }

  /** The vehicles per unit length held by the source, the cells and the sink together. */
  function Total(st: Densities): real {
    st.source + Sum(st.cells) + st.sink
  }

  /**
   * The diagram obeys the capacity contract for a unit time step and length:
   * the sending flow is non-negative and never drains more than the density,
   * and within the density bounds the receiving flow is non-negative and
   * never fills a cell beyond its maximum.
   */
  ghost predicate Admissible(cfg: Config) {
    && NonNegative(cfg.sinkReceiving)
    && (forall d :: 0.0 <= d ==> 0.0 <= cfg.sending(d) <= d)
    && (forall d :: 0.0 <= d && AtMost(d, cfg.maxDen) ==>
          && NonNegative(cfg.receiving(d))
          && (cfg.maxDen.Fin? ==> cfg.receiving(d).Fin? && d + cfg.receiving(d).r <= cfg.maxDen.r))
  }

  /** Densities are non-negative and the cells respect their maximum. */
  ghost predicate InRange(cfg: Config, st: Densities) {
    && 0.0 <= st.source && 0.0 <= st.sink
    && forall i :: 0 <= i < |st.cells| ==> 0.0 <= st.cells[i] && AtMost(st.cells[i], cfg.maxDen)
  }

  /**
   * Under the capacity contract every node flow is non-negative, at most the
   * upstream sending flow and density, and fits the room left downstream.
   */
  lemma FlowBounds(cfg: Config, st: Densities, k: nat)
    requires Admissible(cfg) && InRange(cfg, st) && k <= |st.cells|
    ensures 0.0 <= Flow(cfg, st, k) <= cfg.sending(UpstreamDen(st, k)) <= UpstreamDen(st, k)
    ensures AtMost(Flow(cfg, st, k), DownstreamReceiving(cfg, st, k))
    ensures k < |st.cells| && cfg.maxDen.Fin? ==> st.cells[k] + Flow(cfg, st, k) <= cfg.maxDen.r
  {
    var u := UpstreamDen(st, k);
    assert 0.0 <= u;
    if k < |st.cells| {
      var c := st.cells[k];
      assert 0.0 <= c && AtMost(c, cfg.maxDen);
    }
  }

  /**
   * Cell `i` gains the flow of node `i` and loses the flow of node `i + 1`,
   * and under the capacity contract the clamp never fires.
   */
  lemma CellUnclamped(cfg: Config, st: Densities, i: nat)
    requires Admissible(cfg) && InRange(cfg, st) && i < |st.cells|
    ensures var r := CellNext(cfg, st, i);
      && r == st.cells[i] + Flow(cfg, st, i) - Flow(cfg, st, i + 1)
      && 0.0 <= r && AtMost(r, cfg.maxDen)
  {
    FlowBounds(cfg, st, i);
    FlowBounds(cfg, st, i + 1);
  }

  /** Telescoping: each element changes by the difference of two consecutive boundary terms. */
  lemma {:induction false} SumTelescopes(a: seq<real>, g: seq<real>, b: seq<real>)
    requires |b| == |a| && |g| == |a| + 1
    requires forall i :: 0 <= i < |a| ==> b[i] == a[i] + g[i] - g[i + 1]
    ensures Sum(b) == Sum(a) + g[0] - g[|a|]
  {
    if a != [] {
      SumTelescopes(a[1..], g[1..], b[1..]);
    }
  }

  /** Under the capacity contract no cell's clamp fires in a step. */
  lemma StepUnclamped(cfg: Config, st: Densities)
    requires Admissible(cfg) && InRange(cfg, st)
    ensures forall i :: 0 <= i < |st.cells| ==>
      Step(cfg, st).cells[i] == DyFlowNet.Integrated(st.cells[i], Flow(cfg, st, i), Flow(cfg, st, i + 1), 1.0, 1.0)
  {
    forall i | 0 <= i < |st.cells|
      ensures Step(cfg, st).cells[i] == DyFlowNet.Integrated(st.cells[i], Flow(cfg, st, i), Flow(cfg, st, i + 1), 1.0, 1.0)
    {
      CellUnclamped(cfg, st, i);
    }
  }

  /**
   * One step under the capacity contract keeps every density in range and
   * the total grows by exactly the demand: whatever leaves one entity enters
   * the next.
   */
  lemma {:induction false} StepConserves(cfg: Config, st: Densities)
    requires Admissible(cfg) && InRange(cfg, st) && 0.0 <= cfg.demand
    ensures InRange(cfg, Step(cfg, st))
    ensures Total(Step(cfg, st)) == Total(st) + cfg.demand
  {
    var n := |st.cells|;
    var r := Step(cfg, st);
    var g := Flows(cfg, st, n + 1);
    CellsUnclamped(cfg, st, g);
    SumTelescopes(st.cells, g, r.cells);
    FlowBounds(cfg, st, 0);
    FlowBounds(cfg, st, n);
    assert r.source == st.source + cfg.demand - g[0];
    assert r.sink == st.sink + g[n];
  }

  /** `CellUnclamped` for every cell at once, with the node flows `g`. */
  lemma CellsUnclamped(cfg: Config, st: Densities, g: seq<real>)
    requires Admissible(cfg) && InRange(cfg, st) && g == Flows(cfg, st, |st.cells| + 1)
    ensures forall i :: 0 <= i < |st.cells| ==>
      && Step(cfg, st).cells[i] == st.cells[i] + g[i] - g[i + 1]
      && 0.0 <= Step(cfg, st).cells[i] && AtMost(Step(cfg, st).cells[i], cfg.maxDen)
  {
    forall i | 0 <= i < |st.cells|
      ensures Step(cfg, st).cells[i] == st.cells[i] + g[i] - g[i + 1]
      ensures 0.0 <= Step(cfg, st).cells[i] && AtMost(Step(cfg, st).cells[i], cfg.maxDen)
    {
      CellUnclamped(cfg, st, i);
      assert g[i] == Flow(cfg, st, i) && g[i + 1] == Flow(cfg, st, i + 1);
    }
  }

  /** A property of the densities that every step preserves holds after any number of steps. */
  lemma {:induction false} RunPreserves(cfg: Config, st: Densities, steps: nat, P: Densities -> bool)
    requires P(st)
    requires forall x {:trigger Step(cfg, x)} :: P(x) ==> P(Step(cfg, x))
    ensures P(Run(cfg, st, steps))
    decreases steps
  {
    if steps > 0 {
      RunPreserves(cfg, Step(cfg, st), steps - 1, P);
    }
  }

  /** With demand, any number of steps keeps the densities in range. */
  lemma RunInRange(cfg: Config, st: Densities, steps: nat)
    requires Admissible(cfg) && InRange(cfg, st) && 0.0 <= cfg.demand
    ensures InRange(cfg, Run(cfg, st, steps))
  {
    var P := x => InRange(cfg, x);
    forall x | P(x)
      ensures P(Step(cfg, x))
    {
      StepConserves(cfg, x);
    }
    RunPreserves(cfg, st, steps, P);
  }

  /**
   * Under the capacity contract the clamp never fires in any step of a run:
   * step `j + 1` integrates every cell exactly with the node flows of step `j`.
   */
  lemma RunUnclamped(cfg: Config, st: Densities, j: nat)
    requires Admissible(cfg) && InRange(cfg, st) && 0.0 <= cfg.demand
    ensures var before, after := Run(cfg, st, j), Run(cfg, st, j + 1);
      forall i :: 0 <= i < |st.cells| ==>
        after.cells[i] == DyFlowNet.Integrated(before.cells[i], Flow(cfg, before, i), Flow(cfg, before, i + 1), 1.0, 1.0)
  {
    RunInRange(cfg, st, j);
    StepUnclamped(cfg, Run(cfg, st, j));
    RunSucc(cfg, st, j);
  }

  /** Without demand, any number of steps keeps the densities in range and conserves the total. */
  lemma RunConserves(cfg: Config, st: Densities, steps: nat)
    requires Admissible(cfg) && InRange(cfg, st) && cfg.demand == 0.0
    ensures InRange(cfg, Run(cfg, st, steps))
    ensures Total(Run(cfg, st, steps)) == Total(st)
  {
    var P := x => InRange(cfg, x) && Total(x) == Total(st);
    forall x | P(x)
      ensures P(Step(cfg, x))
    {
      StepConserves(cfg, x);
    }
    RunPreserves(cfg, st, steps, P);
  }

  /** An empty source without demand whose sending flow vanishes at density 0 sends nothing and stays empty. */
  lemma EmptySourceStaysEmpty(cfg: Config, st: Densities)
    requires st.source == 0.0 && cfg.demand == 0.0 && cfg.sending(0.0) == 0.0
    requires NonNegative(DownstreamReceiving(cfg, st, 0))
    ensures Flow(cfg, st, 0) == 0.0
    ensures Step(cfg, st).source == 0.0
  {
  }

  /** Under the capacity contract, such a source stays empty for any number of steps. */
  lemma EmptySourceStaysEmptyForever(cfg: Config, st: Densities, steps: nat)
    requires Admissible(cfg) && InRange(cfg, st)
    requires st.source == 0.0 && cfg.demand == 0.0 && cfg.sending(0.0) == 0.0
    ensures Run(cfg, st, steps).source == 0.0
  {
    var P := x => InRange(cfg, x) && x.source == 0.0;
    forall x | P(x)
      ensures P(Step(cfg, x))
    {
      if 0 < |x.cells| {
        assert 0.0 <= x.cells[0] && AtMost(x.cells[0], cfg.maxDen);
      }
      EmptySourceStaysEmpty(cfg, x);
      StepConserves(cfg, x);
    }
    RunPreserves(cfg, st, steps, P);
  }

  /** A sink with infinite receiving flow never restrains the last node: it passes the last cell's sending flow. */
  lemma InfiniteSinkNeverConstrains(cfg: Config, st: Densities)
    requires cfg.sinkReceiving == Inf && |st.cells| > 0
    ensures Flow(cfg, st, |st.cells|) == cfg.sending(st.cells[|st.cells| - 1])
  {
  }
}
