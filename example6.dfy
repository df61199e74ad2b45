/**
 * The first example script: 151 cells whose densities fall evenly from the
 * jam density 150 to 0, fed by an empty source without demand and drained
 * by a sink, run for 20 steps.
 */
module Example6 {
  import opened ExtReal
  import Chain
  import DyFlowNet
  import Triangular
  import opened Network
  import opened Stepping

  /** `maxV = 1`, `maxQ = 50`, `maxDen = 150`; the receiving branch uses `maxV` as its wave speed. */
  const Diagram := Triangular.Diagram(1.0, 1.0, 50.0, 150.0)
  const Config := Triangular.ChainConfig(Diagram)
  const NumCells := 151
  const Steps := 20

  /** `np.linspace(150, 0, 151)`: starts at 150, ends at 0, evenly spaced. */
  function InitialDensities(): (dens: seq<real>)
    ensures |dens| == NumCells && dens[0] == 150.0 && dens[NumCells - 1] == 0.0
    ensures forall i :: 0 < i < |dens| ==> dens[i] == dens[i - 1] - 1.0
  {
    seq(NumCells, i requires 0 <= i < NumCells => 150.0 - i as real)
  }

  function Initial(): Chain.Densities {
    Chain.Densities(0.0, InitialDensities(), 0.0)
  }

  /** The initial profile lies between empty and jammed. */
  lemma InitialInRange()
    ensures Chain.InRange(Config, Initial())
  {
    var dens := InitialDensities();
    forall i | 0 <= i < |dens|
      ensures 0.0 <= dens[i] <= 150.0
    {
    }
  }

  /**
   * The flows of the first step: no node is fed from the source or drains
   * into the sink, the nodes in the light half pass what the cell below them
   * can receive, the middle nodes pass the full capacity, and the nodes in
   * the dense half pass what the cell above them can send.
   */
  lemma FirstStepFlows()
    ensures Chain.Flow(Config, Initial(), 0) == 0.0
    ensures forall k :: 1 <= k <= 50 ==> Chain.Flow(Config, Initial(), k) == k as real
    ensures forall k :: 50 <= k <= 101 ==> Chain.Flow(Config, Initial(), k) == 50.0
    ensures forall k :: 101 <= k <= NumCells ==> Chain.Flow(Config, Initial(), k) == (151 - k) as real
  {
    var st := Initial();
    forall k | 1 <= k < NumCells
      ensures Chain.Flow(Config, st, k) == if k <= 50 then k as real else if k <= 101 then 50.0 else (151 - k) as real
    {
      assert st.cells[k - 1] == (151 - k) as real && st.cells[k] == (150 - k) as real;
    }
    assert st.cells[NumCells - 1] == 0.0;
  }

  /**
   * The densities after the first step: the top 50 cells each lose one
   * vehicle, the middle cells keep theirs, the bottom 50 cells each gain
   * one, and nothing enters the sink.
   */
  lemma FirstStep()
    ensures var r := Chain.Step(Config, Initial());
      && r.source == 0.0 && r.sink == 0.0
      && (forall i :: 0 <= i < 50 ==> r.cells[i] == Initial().cells[i] - 1.0)
      && (forall i :: 50 <= i <= 100 ==> r.cells[i] == Initial().cells[i])
      && (forall i :: 100 < i < NumCells ==> r.cells[i] == Initial().cells[i] + 1.0)
  {
    var st, r := Initial(), Chain.Step(Config, Initial());
    FirstStepFlows();
    forall i | 0 <= i < 50
      ensures r.cells[i] == st.cells[i] - 1.0
    {
      Unclamped(st, i, i as real, (i + 1) as real);
    }
    forall i | 50 <= i <= 100
      ensures r.cells[i] == st.cells[i]
    {
      Unclamped(st, i, 50.0, 50.0);
    }
    forall i | 100 < i < NumCells
      ensures r.cells[i] == st.cells[i] + 1.0
    {
      Unclamped(st, i, (151 - i) as real, (150 - i) as real);
    }
  }

  /** A cell of the initial profile whose flows `a` and `b` keep it in range integrates exactly. */
  lemma Unclamped(st: Chain.Densities, i: nat, a: real, b: real)
    requires st == Initial() && i < NumCells
    requires Chain.Flow(Config, st, i) == a && Chain.Flow(Config, st, i + 1) == b
    requires 0.0 <= st.cells[i] + a - b <= 150.0
    ensures Chain.Step(Config, st).cells[i] == st.cells[i] + a - b
  {
    DyFlowNet.DensityClamped(st.cells[i], a, b, 1.0, 1.0, Config.maxDen);
  }

  /**
   * After the script's `Steps` steps every density is in range, no vehicle
   * has appeared or disappeared, and the source is still empty.
   */
  lemma Outcome()
    ensures var r := Chain.Run(Config, Initial(), Steps);
      && Chain.InRange(Config, r) && Chain.Total(r) == Chain.Total(Initial()) && r.source == 0.0
  {
    Triangular.DiagramAdmissible(Diagram);
    Triangular.SendingBounds(Diagram, 0.0);
    InitialInRange();
    Chain.RunConserves(Config, Initial(), Steps);
    Chain.EmptySourceStaysEmptyForever(Config, Initial(), Steps);
  }

  /**
   * The script: build the source, the cells, the sink and the nodes, then
   * run the loop. The densities are those of `Steps` chain steps, so
   * `Outcome` holds of them.
   */
  method RunScript() returns (source: Source, cells: seq<Link>, sink: Sink, nodes: seq<Node>)
    ensures |cells| == NumCells && Wired(source, cells, sink, nodes)
    ensures State(source, cells, sink) == Chain.Run(Config, Initial(), Steps)
    ensures Chain.InRange(Config, State(source, cells, sink))
    ensures Chain.Total(State(source, cells, sink)) == Chain.Total(Initial())
    ensures source.den == 0.0
    ensures Follows(DenHistories(source, cells, sink), Config, Initial(), Steps)
  {
    source := new Source(Diagram.maxV, Config.sending, () => 0.0);
    cells := MakeCells(InitialDensities(), Diagram.maxV, Config.sending, Config.receiving, Config.maxDen);
    sink := new Sink();
    nodes := BuildNodes(source, cells, sink);
    assert State(source, cells, sink) == Initial();
    HistoriesAre(source, cells, sink, Start(Initial()));
    Simulate(Config, source, cells, sink, nodes, Steps);
    Outcome();
    RecordedFollows(Config, Initial(), Steps);
  }
}
