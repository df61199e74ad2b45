/**
 * The third example script: 101 cells at density 25 with a short jam of
 * three cells (49, 50 and 51) at 250 in the middle, fed by an empty source
 * without demand and drained by a sink, run for 32 steps. Traffic piles up
 * behind the jam while the jam discharges downstream.
 */
module Example8 {
  import opened ExtReal
  import Chain
  import Triangular
  import opened Network
  import opened Stepping

  /** `maxV = 1`, `maxW = 0.25`, `maxQ = 50`, `maxDen = 250`. */
  const Diagram := Triangular.Diagram(1.0, 0.25, 50.0, 250.0)
  const Config := Triangular.ChainConfig(Diagram)
  const NumCells := 101
  const Steps := 32

  /** Cells 49, 50 and 51 are jammed; every other cell holds 25. */
  function InitialDensities(): (dens: seq<real>)
    ensures |dens| == NumCells
  {
    seq(NumCells, i requires 0 <= i < NumCells => if 49 <= i <= 51 then 250.0 else 25.0)
  }

  /** The script's construction: a list of 25s, then the jammed indices overwritten in place. */
  method BuildInitialDensities() returns (dens: seq<real>)
    ensures dens == InitialDensities()
  {
    dens := seq(NumCells, _ => 25.0);
    var jammed := [49, 50, 51];
    for j := 0 to |jammed|
      invariant |dens| == NumCells
      invariant forall i :: 0 <= i < NumCells ==> dens[i] == if i in jammed[..j] then 250.0 else 25.0
    {
      dens := dens[jammed[j] := Diagram.maxDen];
    }
    assert jammed[..|jammed|] == jammed;
    assert forall i :: 0 <= i < NumCells ==> dens[i] == InitialDensities()[i];
  }

  function Initial(): Chain.Densities {
    Chain.Densities(0.0, InitialDensities(), 0.0)
  }

  lemma InitialInRange()
    ensures Chain.InRange(Config, Initial())
  {
  }

  /**
   * The flows of the first step: nothing enters the jam, the jam's last cell
   * discharges the full capacity, and every other node passes the 25 its
   * upstream cell sends, except the source's node, which passes nothing.
   */
  lemma FirstStepFlows()
    ensures Chain.Flow(Config, Initial(), 0) == 0.0
    ensures forall k :: 1 <= k < 49 || 53 <= k <= NumCells ==> Chain.Flow(Config, Initial(), k) == 25.0
    ensures forall k :: 49 <= k <= 51 ==> Chain.Flow(Config, Initial(), k) == 0.0
    ensures Chain.Flow(Config, Initial(), 52) == 50.0
  {
    var st := Initial();
    forall k | 1 <= k < 49 || 53 <= k <= NumCells
      ensures Chain.Flow(Config, st, k) == 25.0
    {
      assert st.cells[k - 1] == 25.0;
      if k < NumCells {
        assert st.cells[k] == 25.0;
      }
    }
    forall k | 49 <= k <= 51
      ensures Chain.Flow(Config, st, k) == 0.0
    {
      assert st.cells[k] == 250.0;
    }
    assert st.cells[51] == 250.0 && st.cells[52] == 25.0;
  }

  /**
   * The densities after the first step: the first cell empties, the cell
   * behind the jam doubles, the jam keeps its density except its last cell,
   * which passes 50 on to the next cell, and the sink receives 25.
   */
  lemma FirstStep()
    ensures var r := Chain.Step(Config, Initial());
      && r.source == 0.0 && r.cells[0] == 0.0 && r.cells[48] == 50.0
      && r.cells[49] == 250.0 && r.cells[50] == 250.0 && r.cells[51] == 200.0 && r.cells[52] == 50.0
      && (forall i :: 1 <= i < 48 || 53 <= i < NumCells ==> r.cells[i] == 25.0)
      && r.sink == 25.0
  {
    var st, r := Initial(), Chain.Step(Config, Initial());
    FirstStepFlows();
    forall i | 1 <= i < 48 || 53 <= i < NumCells
      ensures r.cells[i] == 25.0
    {
      assert Chain.Flow(Config, st, i) == 25.0 && Chain.Flow(Config, st, i + 1) == 25.0;
    }
    assert Chain.Flow(Config, st, 1) == 25.0 && Chain.Flow(Config, st, 48) == 25.0;
    assert Chain.Flow(Config, st, 53) == 25.0 && Chain.Flow(Config, st, NumCells) == 25.0;
    assert Chain.Flow(Config, st, 49) == 0.0 && Chain.Flow(Config, st, 50) == 0.0 && Chain.Flow(Config, st, 51) == 0.0;
  }

  /** After `Steps` steps every density is in range and no vehicle has appeared or disappeared. */
  lemma Outcome()
    ensures var r := Chain.Run(Config, Initial(), Steps);
      && Chain.InRange(Config, r) && Chain.Total(r) == Chain.Total(Initial()) && r.source == 0.0
  {
    Triangular.DiagramAdmissible(Diagram);
    Triangular.SendingBounds(Diagram, 0.0);
    InitialInRange();
    Chain.RunConserves(Config, Initial(), Steps);
    Chain.EmptySourceStaysEmptyForever(Config, Initial(), Steps);
  }

  /** The script: build the entities and the nodes, then run the loop. */
  method RunScript() returns (source: Source, cells: seq<Link>, sink: Sink, nodes: seq<Node>)
    ensures |cells| == NumCells && Wired(source, cells, sink, nodes)
    ensures State(source, cells, sink) == Chain.Run(Config, Initial(), Steps)
    ensures Chain.InRange(Config, State(source, cells, sink))
    ensures Chain.Total(State(source, cells, sink)) == Chain.Total(Initial())
    ensures source.den == 0.0
    ensures Follows(DenHistories(source, cells, sink), Config, Initial(), Steps)
  {
    var dens := BuildInitialDensities();
    source := new Source(Diagram.maxV, Config.sending, () => 0.0);
    cells := MakeCells(dens, Diagram.maxV, Config.sending, Config.receiving, Config.maxDen);
    sink := new Sink();
    nodes := BuildNodes(source, cells, sink);
    assert State(source, cells, sink) == Initial();
    HistoriesAre(source, cells, sink, Start(Initial()));
    Simulate(Config, source, cells, sink, nodes, Steps);
    Outcome();
    RecordedFollows(Config, Initial(), Steps);
  }
}
