/**
 * The second example script: 101 cells, the first 50 at density 70 and the
 * last 51 jammed at 250, fed by an empty source without demand and drained
 * by a sink, run for 32 steps. The queue discharges from its downstream end
 * while the traffic behind it is held back.
 */
module Example7 {
  import opened ExtReal
  import Chain
  import Triangular
  import opened Network
  import opened Stepping

  /** `maxV = 1`, `maxW = 0.25`, `maxQ = 50`, `maxDen = 250`. */
  const Diagram := Triangular.Diagram(1.0, 0.25, 50.0, 250.0)
  const Config := Triangular.ChainConfig(Diagram)
  const NumCells := 101
  const Steps := 32

  /** Fifty cells at 70, extended by fifty-one cells at the jam density. */
  function InitialDensities(): (dens: seq<real>)
    ensures |dens| == NumCells
    ensures forall i :: 0 <= i < 50 ==> dens[i] == 70.0
    ensures forall i :: 50 <= i < NumCells ==> dens[i] == Diagram.maxDen
  {
    seq(50, _ => 70.0) + seq(51, _ => 250.0)
  }

  function Initial(): Chain.Densities {
    Chain.Densities(0.0, InitialDensities(), 0.0)
  }

  lemma InitialInRange()
    ensures Chain.InRange(Config, Initial())
  {
  }

  /**
   * The flows of the first step: the source sends nothing, each node inside
   * the light part passes the 45 the next cell can receive, nothing enters
   * the jammed part, and the last jammed cell discharges the full capacity
   * into the sink.
   */
  lemma FirstStepFlows()
    ensures Chain.Flow(Config, Initial(), 0) == 0.0
    ensures forall k :: 1 <= k < 50 ==> Chain.Flow(Config, Initial(), k) == 45.0
    ensures forall k :: 50 <= k < NumCells ==> Chain.Flow(Config, Initial(), k) == 0.0
    ensures Chain.Flow(Config, Initial(), NumCells) == 50.0
  {
    var st := Initial();
    forall k | 1 <= k < 50
      ensures Chain.Flow(Config, st, k) == 45.0
    {
      assert st.cells[k - 1] == 70.0 && st.cells[k] == 70.0;
    }
    forall k | 50 <= k < NumCells
      ensures Chain.Flow(Config, st, k) == 0.0
    {
      assert st.cells[k] == 250.0;
    }
    assert st.cells[NumCells - 1] == 250.0;
  }

  /**
   * The densities after the first step: the first cell loses 45, the light
   * cells in between keep 70, the last light cell gains 45 and stops at the
   * queue, the queue keeps its jam density except the last cell, which
   * loses 50 to the sink.
   */
  lemma FirstStep()
    ensures var r := Chain.Step(Config, Initial());
      && r.source == 0.0 && r.cells[0] == 25.0 && r.cells[49] == 115.0
      && (forall i :: 1 <= i < 49 ==> r.cells[i] == 70.0)
      && (forall i :: 50 <= i < 100 ==> r.cells[i] == 250.0)
      && r.cells[100] == 200.0 && r.sink == 50.0
  {
    var st, r := Initial(), Chain.Step(Config, Initial());
    FirstStepFlows();
    forall i | 1 <= i < 49
      ensures r.cells[i] == 70.0
    {
      assert Chain.Flow(Config, st, i) == 45.0 && Chain.Flow(Config, st, i + 1) == 45.0;
    }
    forall i | 50 <= i < 100
      ensures r.cells[i] == 250.0
    {
      assert Chain.Flow(Config, st, i) == 0.0 && Chain.Flow(Config, st, i + 1) == 0.0;
    }
    assert Chain.Flow(Config, st, 1) == 45.0 && Chain.Flow(Config, st, 49) == 45.0;
    assert Chain.Flow(Config, st, 50) == 0.0 && Chain.Flow(Config, st, 100) == 0.0;
  }

  /** After `Steps` steps every density is in range and no vehicle has appeared or disappeared. */
  lemma Outcome()
    ensures var r := Chain.Run(Config, Initial(), Steps);
      && Chain.InRange(Config, r) && Chain.Total(r) == Chain.Total(Initial()) && r.source == 0.0
  {
    Triangular.DiagramAdmissible(Diagram);
    Triangular.SendingBounds(Diagram, 0.0);
    InitialInRange();
    Chain.RunConserves(Config, Initial(), Steps);
    Chain.EmptySourceStaysEmptyForever(Config, Initial(), Steps);
  }

  /** The script: build the entities and the nodes, then run the loop. */
  method RunScript() returns (source: Source, cells: seq<Link>, sink: Sink, nodes: seq<Node>)
    ensures |cells| == NumCells && Wired(source, cells, sink, nodes)
    ensures State(source, cells, sink) == Chain.Run(Config, Initial(), Steps)
    ensures Chain.InRange(Config, State(source, cells, sink))
    ensures Chain.Total(State(source, cells, sink)) == Chain.Total(Initial())
    ensures source.den == 0.0
    ensures Follows(DenHistories(source, cells, sink), Config, Initial(), Steps)
  {
    source := new Source(Diagram.maxV, Config.sending, () => 0.0);
    cells := MakeCells(InitialDensities(), Diagram.maxV, Config.sending, Config.receiving, Config.maxDen);
    sink := new Sink();
    nodes := BuildNodes(source, cells, sink);
    assert State(source, cells, sink) == Initial();
    HistoriesAre(source, cells, sink, Start(Initial()));
    Simulate(Config, source, cells, sink, nodes, Steps);
    Outcome();
    RecordedFollows(Config, Initial(), Steps);
  }
}
