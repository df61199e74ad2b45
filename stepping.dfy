/**
 * What the three example scripts share: the minimum-rule node policy, the
 * construction of the cells, the wiring of source -> cells -> sink, and the
 * stepping loop. One step has three phases over the whole network: every
 * entity evaluates its flows from its start-of-step density, then every node
 * resolves and writes back, then every entity integrates speed and density.
 * The step on objects is proved to compute `Chain.Step` on their densities.
 */
module Stepping {
  import opened Wrappers
  import opened ExtReal
  import DyFlowNet
  import Chain
  import opened Network

  /**
   * The scripts' `nodeFlowFunc`, the 1-in-1-out minimum rule: one outflow and
   * one inflow, both the minimum of the first sending and receiving flows.
   * An empty list or a `None` flow is rejected.
   */
  function NodeFlowFunc(sendingFlows: seq<Option<real>>, receivingFlows: seq<Option<Ext>>): (r: (seq<real>, seq<real>))
    requires |sendingFlows| >= 1 && |receivingFlows| >= 1
    requires sendingFlows[0].Some? && receivingFlows[0].Some?
    ensures |r.0| == 1 && r.0 == r.1
    ensures r.0[0] <= sendingFlows[0].value && AtMost(r.0[0], receivingFlows[0].value)
    ensures r.0[0] == sendingFlows[0].value || receivingFlows[0].value == Fin(r.0[0])
  {
    ([Min(sendingFlows[0].value, receivingFlows[0].value)], [Min(sendingFlows[0].value, receivingFlows[0].value)])
  }

  ghost predicate Distinct(cells: seq<Link>) {
    forall i, j :: 0 <= i < j < |cells| ==> cells[i] != cells[j]
  }

  /** The entity feeding node `k`: the source, or cell `k - 1`. */
  function Up(source: Source, cells: seq<Link>, k: nat): Upstream
    requires k <= |cells|
  {
    if k == 0 then FromSource(source) else FromLink(cells[k - 1])
  }

  /** The entity node `k` feeds: cell `k`, or the sink past the last cell. */
  function Down(cells: seq<Link>, sink: Sink, k: nat): Downstream
    requires k <= |cells|
  {
    if k < |cells| then ToLink(cells[k]) else ToSink(sink)
  }

  /** Node `k` joins `Up(k)` to `Down(k)` with the minimum rule, for every `k`. */
  ghost predicate Wired(source: Source, cells: seq<Link>, sink: Sink, nodes: seq<Node>) {
    && |nodes| == |cells| + 1
    && forall k :: 0 <= k < |nodes| ==>
      && nodes[k].incomingLinks == [Up(source, cells, k)]
      && nodes[k].outgoingLinks == [Down(cells, sink, k)]
      && nodes[k].nodeFlowFunc == NodeFlowFunc
  }

  /** Every entity carries the flow functions of `cfg`. */
  ghost predicate FlowFunctions(cfg: Chain.Config, source: Source, cells: seq<Link>, sink: Sink) {
    && source.sendingFlowFunc == cfg.sending && source.demandFunc() == cfg.demand
    && sink.receivingFlowFunc() == cfg.sinkReceiving
    && forall i :: 0 <= i < |cells| ==>
      cells[i].sendingFlowFunc == cfg.sending && cells[i].receivingFlowFunc == cfg.receiving
  }

  /** Every entity has unit length and time step, and every cell the maximum density of `cfg`. */
  ghost predicate UnitGeometry(cfg: Chain.Config, source: Source, cells: seq<Link>, sink: Sink) {
    && source.len == 1.0 && source.timeStep == 1.0 && sink.len == 1.0 && sink.timeStep == 1.0
    && forall i :: 0 <= i < |cells| ==> cells[i].maxDen == cfg.maxDen && cells[i].len == 1.0 && cells[i].timeStep == 1.0
  }

  /** The entities are those of the chain `cfg`. */
  ghost predicate Configured(cfg: Chain.Config, source: Source, cells: seq<Link>, sink: Sink) {
    FlowFunctions(cfg, source, cells, sink) && UnitGeometry(cfg, source, cells, sink)
  }

  function CellDensities(cells: seq<Link>): (r: seq<real>)
    reads cells`den
    ensures |r| == |cells| && forall i :: 0 <= i < |cells| ==> r[i] == cells[i].den
  {
    if cells == [] then [] else CellDensities(cells[..|cells| - 1]) + [cells[|cells| - 1].den]
  }

  /** The densities of the network's entities. */
  function State(source: Source, cells: seq<Link>, sink: Sink): Chain.Densities
    reads source`den, cells`den, sink`den
  {
    Chain.Densities(source.den, CellDensities(cells), sink.den)
  }

  lemma StateIs(source: Source, cells: seq<Link>, sink: Sink, d: Chain.Densities)
    requires source.den == d.source && sink.den == d.sink && |d.cells| == |cells|
    requires forall i :: 0 <= i < |cells| ==> cells[i].den == d.cells[i]
    ensures State(source, cells, sink) == d
  {
    assert CellDensities(cells) == d.cells;
  }

  /** The sending flow node `k` reads. */
  function UpSending(source: Source, cells: seq<Link>, k: nat): (r: Option<real>)
    requires k <= |cells|
    reads source`sendingFlow, cells`sendingFlow
    ensures r == Up(source, cells, k).SendingFlow()
  {
    if k == 0 then source.sendingFlow else cells[k - 1].sendingFlow
  }

  /** The receiving flow node `k` reads. */
  function DownReceiving(cells: seq<Link>, sink: Sink, k: nat): (r: Option<Ext>)
    requires k <= |cells|
    reads cells`receivingFlow, sink`receivingFlow
    ensures r == Down(cells, sink, k).ReceivingFlow()
  {
    if k < |cells| then cells[k].receivingFlow else sink.receivingFlow
  }

  /** The flow the minimum rule gives node `k` from the flows its two entities evaluated. */
  function NodeFlow(source: Source, cells: seq<Link>, sink: Sink, k: nat): real
    requires k <= |cells|
    requires UpSending(source, cells, k).Some? && DownReceiving(cells, sink, k).Some?
    reads source`sendingFlow, cells`sendingFlow, cells`receivingFlow, sink`receivingFlow
  {
    Min(UpSending(source, cells, k).value, DownReceiving(cells, sink, k).value)
  }

  /** Every sending and receiving flow a node will read has been evaluated. */
  ghost predicate FlowsEvaluated(source: Source, cells: seq<Link>, sink: Sink)
    reads source`sendingFlow, cells`sendingFlow, cells`receivingFlow, sink`receivingFlow
  {
    && source.sendingFlow.Some? && sink.receivingFlow.Some?
    && forall i :: 0 <= i < |cells| ==> cells[i].sendingFlow.Some? && cells[i].receivingFlow.Some?
  }

  /** The flows of nodes `0` up to `m - 1`, in order. */
  function NodeFlows(source: Source, cells: seq<Link>, sink: Sink, m: nat): (f: seq<real>)
    requires m <= |cells| + 1 && FlowsEvaluated(source, cells, sink)
    reads source`sendingFlow, cells`sendingFlow, cells`receivingFlow, sink`receivingFlow
    ensures |f| == m
    ensures forall k {:trigger NodeFlow(source, cells, sink, k)} :: 0 <= k < m ==> f[k] == NodeFlow(source, cells, sink, k)
  {
    if m == 0 then [] else NodeFlows(source, cells, sink, m - 1) + [NodeFlow(source, cells, sink, m - 1)]
  }

  /**
   * Phase 1: the source evaluates its demand and then its sending flow, every
   * cell its sending and receiving flow, the sink its receiving flow, all at
   * the current densities; each evaluation is appended to its history.
   */
  method EvaluateFlows(source: Source, cells: seq<Link>, sink: Sink)
    requires Distinct(cells)
    modifies source`demand, source`sendingFlow, source`output
    modifies cells`sendingFlow, cells`receivingFlow, cells`output
    modifies sink`receivingFlow, sink`output
    ensures source.demand == Some(source.demandFunc())
    ensures source.sendingFlow == Some(source.sendingFlowFunc(source.den))
    ensures source.output == old(source.output).(
      demand := old(source.output.demand) + [source.demandFunc()],
      sendingFlow := old(source.output.sendingFlow) + [source.sendingFlowFunc(source.den)])
    ensures forall i :: 0 <= i < |cells| ==>
      && cells[i].sendingFlow == Some(cells[i].sendingFlowFunc(cells[i].den))
      && cells[i].receivingFlow == Some(cells[i].receivingFlowFunc(cells[i].den))
      && cells[i].output == old(cells[i].output).(
           sendingFlow := old(cells[i].output.sendingFlow) + [cells[i].sendingFlowFunc(cells[i].den)],
           receivingFlow := old(cells[i].output.receivingFlow) + [cells[i].receivingFlowFunc(cells[i].den)])
    ensures sink.receivingFlow == Some(sink.receivingFlowFunc())
    ensures sink.output == old(sink.output).(receivingFlow := old(sink.output.receivingFlow) + [sink.receivingFlowFunc()])
  {
    source.UpdateDemand();
    source.UpdateSendingFlow(source.den);
    EvaluateCellFlows(cells);
    sink.UpdateReceivingFlow();
  }

  /** The cell loop of phase 1. */
  method EvaluateCellFlows(cells: seq<Link>)
    requires Distinct(cells)
    modifies cells`sendingFlow, cells`receivingFlow, cells`output
    ensures forall i :: 0 <= i < |cells| ==>
      && cells[i].sendingFlow == Some(cells[i].sendingFlowFunc(cells[i].den))
      && cells[i].receivingFlow == Some(cells[i].receivingFlowFunc(cells[i].den))
      && cells[i].output == old(cells[i].output).(
           sendingFlow := old(cells[i].output.sendingFlow) + [cells[i].sendingFlowFunc(cells[i].den)],
           receivingFlow := old(cells[i].output.receivingFlow) + [cells[i].receivingFlowFunc(cells[i].den)])
  {
    var i := 0;
    while i < |cells|
      invariant 0 <= i <= |cells|
      invariant forall j :: 0 <= j < |cells| ==>
        && cells[j].sendingFlow == (if j < i then Some(cells[j].sendingFlowFunc(cells[j].den)) else old(cells[j].sendingFlow))
        && cells[j].receivingFlow == (if j < i then Some(cells[j].receivingFlowFunc(cells[j].den)) else old(cells[j].receivingFlow))
        && cells[j].output == if j < i then old(cells[j].output).(
             sendingFlow := old(cells[j].output.sendingFlow) + [cells[j].sendingFlowFunc(cells[j].den)],
             receivingFlow := old(cells[j].output.receivingFlow) + [cells[j].receivingFlowFunc(cells[j].den)])
           else old(cells[j].output)
    {
      var c := cells[i];
      c.UpdateSendingFlow(c.den);
      c.UpdateReceivingFlow(c.den);
      i := i + 1;
    }
  }

  /** Every field the node write-back may change: outflows, inflows and their histories. */
  datatype WriteBack = WriteBack(
    sourceOutflow: Option<real>, sourceOutput: SourceOutput,
    inflows: seq<Option<real>>, outflows: seq<Option<real>>, outputs: seq<LinkOutput>,
    sinkInflow: Option<real>, sinkOutput: SinkOutput)
  {
    ghost predicate Valid(f: seq<real>) {
      |inflows| == |outflows| == |outputs| && |f| == |inflows| + 1
    }
  }

  function WriteBackOf(source: Source, cells: seq<Link>, sink: Sink): (w: WriteBack)
    reads source, sink, cells
    ensures |w.inflows| == |w.outflows| == |w.outputs| == |cells|
  {
    WriteBack(source.outflow, source.output,
      seq(|cells|, i requires 0 <= i < |cells| reads cells => cells[i].inflow),
      seq(|cells|, i requires 0 <= i < |cells| reads cells => cells[i].outflow),
      seq(|cells|, i requires 0 <= i < |cells| reads cells => cells[i].output),
      sink.inflow, sink.output)
  }

  function AddInflow(o: LinkOutput, v: real): LinkOutput {
    o.(inflow := o.inflow + [v])
  }

  function AddOutflow(o: LinkOutput, v: real): LinkOutput {
    o.(outflow := o.outflow + [v])
  }

  /** Node `k` writes `v` as the outflow of the entity feeding it, the source or cell `k - 1`, and appends it to its history. */
  function OutflowWrite(w: WriteBack, k: nat, v: real): WriteBack
    requires |w.inflows| == |w.outflows| == |w.outputs| && k <= |w.inflows|
  {
    if k == 0 then w.(sourceOutflow := Some(v), sourceOutput := w.sourceOutput.(outflow := w.sourceOutput.outflow + [v]))
    else w.(outflows := w.outflows[k - 1 := Some(v)], outputs := w.outputs[k - 1 := AddOutflow(w.outputs[k - 1], v)])
  }

  /** Node `k` writes `v` as the inflow of the entity it feeds, cell `k` or the sink, and appends it to its history. */
  function InflowWrite(w: WriteBack, k: nat, v: real): WriteBack
    requires |w.inflows| == |w.outflows| == |w.outputs| && k <= |w.inflows|
  {
    if k < |w.inflows| then w.(inflows := w.inflows[k := Some(v)], outputs := w.outputs[k := AddInflow(w.outputs[k], v)])
    else w.(sinkInflow := Some(v), sinkOutput := w.sinkOutput.(inflow := w.sinkOutput.inflow + [v]))
  }

  function NodeWrite(w: WriteBack, k: nat, v: real): WriteBack
    requires |w.inflows| == |w.outflows| == |w.outputs| && k <= |w.inflows|
  {
    InflowWrite(OutflowWrite(w, k, v), k, v)
  }

  /** Cell `i` has heard its inflow from node `i` once `i < k`. */
  function InflowsAfter(xs: seq<Option<real>>, f: seq<real>, k: nat): (r: seq<Option<real>>)
    requires |f| == |xs| + 1
    ensures |r| == |xs|
    ensures forall i :: 0 <= i < |xs| ==> r[i] == if i < k then Some(f[i]) else xs[i]
  {
    seq(|xs|, i requires 0 <= i < |xs| => if i < k then Some(f[i]) else xs[i])
  }

  /** Cell `i` has heard its outflow from node `i + 1` once `i + 1 < k`. */
  function OutflowsAfter(xs: seq<Option<real>>, f: seq<real>, k: nat): (r: seq<Option<real>>)
    requires |f| == |xs| + 1
    ensures |r| == |xs|
    ensures forall i :: 0 <= i < |xs| ==> r[i] == if i + 1 < k then Some(f[i + 1]) else xs[i]
  {
    seq(|xs|, i requires 0 <= i < |xs| => if i + 1 < k then Some(f[i + 1]) else xs[i])
  }

  /** A cell's history after nodes `0 .. k - 1` have written. */
  function OutputAfter(o: LinkOutput, f: seq<real>, i: nat, k: nat): LinkOutput
    requires i + 1 < |f|
  {
    o.(inflow := if i < k then o.inflow + [f[i]] else o.inflow,
       outflow := if i + 1 < k then o.outflow + [f[i + 1]] else o.outflow)
  }

  function OutputsAfter(os: seq<LinkOutput>, f: seq<real>, k: nat): (r: seq<LinkOutput>)
    requires |f| == |os| + 1
    ensures |r| == |os|
    ensures forall i :: 0 <= i < |os| ==> r[i] == OutputAfter(os[i], f, i, k)
  {
    seq(|os|, i requires 0 <= i < |os| => OutputAfter(os[i], f, i, k))
  }

  /**
   * The write-back state once nodes `0 .. k - 1`, in order, have each
   * written their flow from `f`, starting from `w`: the source and the cells
   * `i` with `i < k` or `i + 1 < k` have heard from the node downstream or
   * upstream of them.
   */
  function WrittenForm(w: WriteBack, f: seq<real>, k: nat): (r: WriteBack)
    requires w.Valid(f)
    ensures r.Valid(f)
  {
    var n := |w.inflows|;
    WriteBack(
      if 0 < k then Some(f[0]) else w.sourceOutflow,
      if 0 < k then w.sourceOutput.(outflow := w.sourceOutput.outflow + [f[0]]) else w.sourceOutput,
      InflowsAfter(w.inflows, f, k), OutflowsAfter(w.outflows, f, k), OutputsAfter(w.outputs, f, k),
      if n < k then Some(f[n]) else w.sinkInflow,
      if n < k then w.sinkOutput.(inflow := w.sinkOutput.inflow + [f[n]]) else w.sinkOutput)
  }

  lemma InflowsAdvance(xs: seq<Option<real>>, f: seq<real>, k: nat)
    requires |f| == |xs| + 1 && k < |xs|
    ensures InflowsAfter(xs, f, k)[k := Some(f[k])] == InflowsAfter(xs, f, k + 1)
  {
  }

  lemma OutflowsAdvance(xs: seq<Option<real>>, f: seq<real>, k: nat)
    requires |f| == |xs| + 1 && 0 < k < |f|
    ensures OutflowsAfter(xs, f, k)[k - 1 := Some(f[k])] == OutflowsAfter(xs, f, k + 1)
  {
  }

  lemma OutputsAdvance(os: seq<LinkOutput>, f: seq<real>, k: nat)
    requires |f| == |os| + 1 && k < |f|
    ensures var h := OutputsAfter(os, f, k);
      var h1 := if 0 < k then h[k - 1 := AddOutflow(h[k - 1], f[k])] else h;
      (if k < |os| then h1[k := AddInflow(h1[k], f[k])] else h1) == OutputsAfter(os, f, k + 1)
  {
  }

  /** Before any node has written, the closed form is the starting state. */
  lemma NothingWritten(w: WriteBack, f: seq<real>)
    requires w.Valid(f)
    ensures WrittenForm(w, f, 0) == w
  {
    assert InflowsAfter(w.inflows, f, 0) == w.inflows;
    assert OutflowsAfter(w.outflows, f, 0) == w.outflows;
    assert OutputsAfter(w.outputs, f, 0) == w.outputs;
  }

  /** Node `k` writing `f[k]` advances the closed form by one node. */
  lemma NodeWriteAdvances(w: WriteBack, f: seq<real>, k: nat)
    requires w.Valid(f) && k < |f|
    ensures NodeWrite(WrittenForm(w, f, k), k, f[k]) == WrittenForm(w, f, k + 1)
  {
    if k < |w.inflows| { InflowsAdvance(w.inflows, f, k); }
    if 0 < k { OutflowsAdvance(w.outflows, f, k); }
    OutputsAdvance(w.outputs, f, k);
  }

  /**
   * Once every node has written, the source's outflow is node 0's flow, cell
   * `i` has inflow `f[i]` and outflow `f[i + 1]`, and the sink's inflow is
   * the last node's flow.
   */
  lemma AllNodesWritten(w: WriteBack, f: seq<real>, source: Source, cells: seq<Link>, sink: Sink)
    requires w.Valid(f) && |f| == |cells| + 1
    requires WriteBackOf(source, cells, sink) == WrittenForm(w, f, |f|)
    ensures FlowsRecorded(f, source, cells, sink)
  {
    var r := WriteBackOf(source, cells, sink);
    forall i | 0 <= i < |cells|
      ensures cells[i].inflow == Some(f[i]) && cells[i].outflow == Some(f[i + 1])
    {
      assert cells[i].inflow == r.inflows[i];
      assert cells[i].outflow == r.outflows[i];
    }
  }

  /**
   * Phase 2: every node in order gathers its flows, applies the minimum rule
   * and writes back. Each cell's inflow is written by the node before it and
   * its outflow by the node after it, so every entity receives exactly one
   * outflow or inflow (or both, for a cell) and one history entry for each.
   */
  method ResolveNodes(source: Source, cells: seq<Link>, sink: Sink, nodes: seq<Node>)
    requires Wired(source, cells, sink, nodes) && Distinct(cells)
    requires FlowsEvaluated(source, cells, sink)
    modifies source`outflow, source`output, sink`inflow, sink`output
    modifies cells`outflow, cells`inflow, cells`output
    modifies nodes
    ensures WriteBackOf(source, cells, sink)
      == WrittenForm(old(WriteBackOf(source, cells, sink)), old(NodeFlows(source, cells, sink, |cells| + 1)), |cells| + 1)
  {
    var n := |cells|;
    ghost var f := NodeFlows(source, cells, sink, n + 1);
    ghost var w := WriteBackOf(source, cells, sink);
    var k := 0;
    NothingWritten(w, f);
    while k < |nodes|
      invariant 0 <= k <= |nodes|
      invariant WriteBackOf(source, cells, sink) == WrittenForm(w, f, k)
    {
      ResolveNode(source, cells, sink, nodes, k, w, f);
      k := k + 1;
    }
  }

  /**
   * The body of the node loop for node `k`, whose flow is `f[k]`: its
   * upstream entity gets the outflow and its downstream entity the inflow,
   * which extends the write-back of nodes `0 .. k - 1` by node `k`.
   */
  method ResolveNode(source: Source, cells: seq<Link>, sink: Sink, nodes: seq<Node>, k: nat,
                     ghost w: WriteBack, ghost f: seq<real>)
    requires Wired(source, cells, sink, nodes) && Distinct(cells) && k < |nodes|
    requires UpSending(source, cells, k).Some? && DownReceiving(cells, sink, k).Some?
    requires w.Valid(f) && |f| == |nodes| && f[k] == NodeFlow(source, cells, sink, k)
    requires WriteBackOf(source, cells, sink) == WrittenForm(w, f, k)
    modifies source`outflow, source`output, sink`inflow, sink`output
    modifies cells`outflow, cells`inflow, cells`output
    modifies nodes[k]
    ensures WriteBackOf(source, cells, sink) == WrittenForm(w, f, k + 1)
  {
    NodeWriteAdvances(w, f, k);
    var node := nodes[k];
    GatherNode(node, Up(source, cells, k), Down(cells, sink, k));
    assert node.outflows == Some([f[k]]) && node.inflows == Some([f[k]]);
    WriteOutflow(node, source, cells, sink, k);
    WriteInflow(node, source, cells, sink, k);
  }

  /** The outflow half of the node's write-back. */
  method WriteOutflow(node: Node, source: Source, cells: seq<Link>, sink: Sink, k: nat)
    requires Distinct(cells) && k <= |cells| && node.incomingLinks == [Up(source, cells, k)]
    requires node.outflows.Some? && |node.outflows.value| == 1
    modifies source`outflow, source`output, cells`outflow, cells`output
    ensures WriteBackOf(source, cells, sink) == OutflowWrite(old(WriteBackOf(source, cells, sink)), k, node.outflows.value[0])
  {
    if k == 0 {
      OutflowToSource(node, source);
    } else {
      OutflowToLink(node, cells[k - 1]);
    }
  }

  /** The inflow half of the node's write-back. */
  method WriteInflow(node: Node, source: Source, cells: seq<Link>, sink: Sink, k: nat)
    requires Distinct(cells) && k <= |cells| && node.outgoingLinks == [Down(cells, sink, k)]
    requires node.inflows.Some? && |node.inflows.value| == 1
    modifies sink`inflow, sink`output, cells`inflow, cells`output
    ensures WriteBackOf(source, cells, sink) == InflowWrite(old(WriteBackOf(source, cells, sink)), k, node.inflows.value[0])
  {
    if k < |cells| {
      InflowToLink(node, cells[k]);
    } else {
      InflowToSink(node, sink);
    }
  }

  /** A 1-in-1-out minimum-rule node reads its two entities' flows and applies the rule. */
  method GatherNode(node: Node, up: Upstream, down: Downstream)
    requires node.incomingLinks == [up] && node.outgoingLinks == [down] && node.nodeFlowFunc == NodeFlowFunc
    requires up.SendingFlow().Some? && down.ReceivingFlow().Some?
    modifies node`sendingFlows, node`receivingFlows, node`outflows, node`inflows
    ensures var v := Min(up.SendingFlow().value, down.ReceivingFlow().value);
      node.outflows == Some([v]) && node.inflows == Some([v])
  {
    node.GetSendingFlows();
    node.GetReceivingFlows();
    node.UpdateNodeFlow();
  }

  /** The node's single outflow goes to the cell feeding it. */
  method OutflowToLink(node: Node, l: Link)
    requires node.incomingLinks == [FromLink(l)] && node.outflows.Some? && |node.outflows.value| == 1
    modifies l`outflow, l`output
    ensures l.outflow == Some(node.outflows.value[0])
    ensures l.output == old(l.output).(outflow := old(l.output.outflow) + [node.outflows.value[0]])
  {
    assert node.InLinks() == {l} && node.InSources() == {};
    node.SetOutflows();
    assert node.incomingLinks[0].Outflow() == l.outflow;
  }

  /** The node's single outflow goes to the source feeding it. */
  method OutflowToSource(node: Node, s: Source)
    requires node.incomingLinks == [FromSource(s)] && node.outflows.Some? && |node.outflows.value| == 1
    modifies s`outflow, s`output
    ensures s.outflow == Some(node.outflows.value[0])
    ensures s.output == old(s.output).(outflow := old(s.output.outflow) + [node.outflows.value[0]])
  {
    assert node.InLinks() == {} && node.InSources() == {s};
    node.SetOutflows();
    assert node.incomingLinks[0].Outflow() == s.outflow;
  }

  /** The node's single inflow goes to the cell it feeds. */
  method InflowToLink(node: Node, l: Link)
    requires node.outgoingLinks == [ToLink(l)] && node.inflows.Some? && |node.inflows.value| == 1
    modifies l`inflow, l`output
    ensures l.inflow == Some(node.inflows.value[0])
    ensures l.output == old(l.output).(inflow := old(l.output.inflow) + [node.inflows.value[0]])
  {
    assert node.OutLinks() == {l} && node.OutSinks() == {};
    node.SetInflows();
    assert node.outgoingLinks[0].Inflow() == l.inflow;
  }

  /** The node's single inflow goes to the sink it feeds. */
  method InflowToSink(node: Node, k: Sink)
    requires node.outgoingLinks == [ToSink(k)] && node.inflows.Some? && |node.inflows.value| == 1
    modifies k`inflow, k`output
    ensures k.inflow == Some(node.inflows.value[0])
    ensures k.output == old(k.output).(inflow := old(k.output.inflow) + [node.inflows.value[0]])
  {
    assert node.OutLinks() == {} && node.OutSinks() == {k};
    node.SetInflows();
    assert node.outgoingLinks[0].Inflow() == k.inflow;
  }

  /**
   * Phase 3: the source and every cell integrate speed (at the density the
   * step started from) and then density; the sink integrates density.
   */
  method Integrate(source: Source, cells: seq<Link>, sink: Sink)
    requires Distinct(cells)
    requires source.demand.Some? && source.outflow.Some? && source.len != 0.0
    requires forall i :: 0 <= i < |cells| ==> cells[i].inflow.Some? && cells[i].outflow.Some? && cells[i].len != 0.0
    requires sink.inflow.Some? && sink.len != 0.0
    modifies source`speed, source`den, source`output
    modifies cells`speed, cells`den, cells`output
    modifies sink`den, sink`output
    ensures source.speed == DyFlowNet.UpdateSpeed(old(source.den), source.outflow.value, source.maxSpeed)
    ensures source.den == DyFlowNet.UpdateDensity(old(source.den), source.demand.value, source.outflow.value, source.timeStep, source.len, Inf)
    ensures source.output == old(source.output).(
      speed := old(source.output.speed) + [source.speed], den := old(source.output.den) + [source.den])
    ensures forall i :: 0 <= i < |cells| ==>
      && cells[i].speed == DyFlowNet.UpdateSpeed(old(cells[i].den), cells[i].outflow.value, cells[i].maxSpeed)
      && cells[i].den == DyFlowNet.UpdateDensity(old(cells[i].den), cells[i].inflow.value, cells[i].outflow.value,
                                                 cells[i].timeStep, cells[i].len, cells[i].maxDen)
      && cells[i].output == old(cells[i].output).(
           speed := old(cells[i].output.speed) + [cells[i].speed], den := old(cells[i].output.den) + [cells[i].den])
    ensures sink.den == DyFlowNet.UpdateDensity(old(sink.den), sink.inflow.value, 0.0, sink.timeStep, sink.len, Inf)
    ensures sink.output == old(sink.output).(den := old(sink.output.den) + [sink.den])
  {
    source.UpdateSpeed();
    source.UpdateDensity();
    IntegrateCells(cells);
    sink.UpdateDensity();
  }

  /** The cell loop of phase 3. */
  method IntegrateCells(cells: seq<Link>)
    requires Distinct(cells)
    requires forall i :: 0 <= i < |cells| ==> cells[i].inflow.Some? && cells[i].outflow.Some? && cells[i].len != 0.0
    modifies cells`speed, cells`den, cells`output
    ensures forall i :: 0 <= i < |cells| ==>
      && cells[i].speed == DyFlowNet.UpdateSpeed(old(cells[i].den), cells[i].outflow.value, cells[i].maxSpeed)
      && cells[i].den == DyFlowNet.UpdateDensity(old(cells[i].den), cells[i].inflow.value, cells[i].outflow.value,
                                                 cells[i].timeStep, cells[i].len, cells[i].maxDen)
      && cells[i].output == old(cells[i].output).(
           speed := old(cells[i].output.speed) + [cells[i].speed], den := old(cells[i].output.den) + [cells[i].den])
  {
    var i := 0;
    while i < |cells|
      invariant 0 <= i <= |cells|
      invariant forall j :: 0 <= j < |cells| ==>
        && cells[j].speed == (if j < i then DyFlowNet.UpdateSpeed(old(cells[j].den), cells[j].outflow.value, cells[j].maxSpeed) else old(cells[j].speed))
        && cells[j].den == (if j < i then DyFlowNet.UpdateDensity(old(cells[j].den), cells[j].inflow.value, cells[j].outflow.value,
                                                                  cells[j].timeStep, cells[j].len, cells[j].maxDen)
                            else old(cells[j].den))
        && cells[j].output == if j < i then old(cells[j].output).(
             speed := old(cells[j].output.speed) + [cells[j].speed], den := old(cells[j].output.den) + [cells[j].den])
           else old(cells[j].output)
    {
      var c := cells[i];
      c.UpdateSpeed();
      c.UpdateDensity();
      i := i + 1;
    }
  }

  /** Phase 1 has evaluated every flow at the entities' current densities. */
  ghost predicate EvaluatedAtDensities(source: Source, cells: seq<Link>, sink: Sink)
    reads source, sink, cells
  {
    && source.sendingFlow == Some(source.sendingFlowFunc(source.den))
    && source.demand == Some(source.demandFunc())
    && sink.receivingFlow == Some(sink.receivingFlowFunc())
    && forall i :: 0 <= i < |cells| ==>
      && cells[i].sendingFlow == Some(cells[i].sendingFlowFunc(cells[i].den))
      && cells[i].receivingFlow == Some(cells[i].receivingFlowFunc(cells[i].den))
  }

  /**
   * Once phase 1 has run, the minimum rule at each node of the objects gives
   * the chain's flow at that node on the entities' densities.
   */
  lemma FlowsMatchChain(cfg: Chain.Config, source: Source, cells: seq<Link>, sink: Sink)
    requires FlowFunctions(cfg, source, cells, sink) && EvaluatedAtDensities(source, cells, sink)
    ensures FlowsEvaluated(source, cells, sink)
    ensures NodeFlows(source, cells, sink, |cells| + 1) == Chain.Flows(cfg, State(source, cells, sink), |cells| + 1)
  {
    var st := State(source, cells, sink);
    var f, g := NodeFlows(source, cells, sink, |cells| + 1), Chain.Flows(cfg, st, |cells| + 1);
    forall k | 0 <= k <= |cells|
      ensures f[k] == g[k]
    {
      if 0 < k {
        assert cells[k - 1].den == st.cells[k - 1];
      }
      if k < |cells| {
        assert cells[k].den == st.cells[k];
      }
      assert NodeFlow(source, cells, sink, k) == Chain.Flow(cfg, st, k);
    }
  }

  /** Every entity recorded, as its outflow and inflow, the flows `f` of the nodes on either side of it. */
  ghost predicate FlowsRecorded(f: seq<real>, source: Source, cells: seq<Link>, sink: Sink)
    reads source`outflow, cells`inflow, cells`outflow, sink`inflow
  {
    && |f| == |cells| + 1
    && source.outflow == Some(f[0])
    && (forall i :: 0 <= i < |cells| ==> cells[i].inflow == Some(f[i]))
    && (forall i :: 0 <= i < |cells| ==> cells[i].outflow == Some(f[i + 1]))
    && sink.inflow == Some(f[|cells|])
  }

  /** The `output["den"]` histories of the source, of each cell in order, and of the sink. */
  datatype Histories = Histories(source: seq<real>, cells: seq<seq<real>>, sink: seq<real>)

  ghost function CellHistories(cells: seq<Link>): (r: seq<seq<real>>)
    reads cells`output
    ensures |r| == |cells| && forall i :: 0 <= i < |cells| ==> r[i] == cells[i].output.den
  {
    if cells == [] then [] else CellHistories(cells[..|cells| - 1]) + [cells[|cells| - 1].output.den]
  }

  ghost function DenHistories(source: Source, cells: seq<Link>, sink: Sink): (h: Histories)
    reads source`output, cells`output, sink`output
  {
    Histories(source.output.den, CellHistories(cells), sink.output.den)
  }

  lemma HistoriesAre(source: Source, cells: seq<Link>, sink: Sink, h: Histories)
    requires source.output.den == h.source && sink.output.den == h.sink && |h.cells| == |cells|
    requires forall i :: 0 <= i < |cells| ==> cells[i].output.den == h.cells[i]
    ensures DenHistories(source, cells, sink) == h
  {
  }

  /** The density histories held in a write-back state; the node write-back never touches them. */
  function DenOf(w: WriteBack): (h: Histories)
    ensures |h.cells| == |w.outputs|
    ensures forall i :: 0 <= i < |w.outputs| ==> h.cells[i] == w.outputs[i].den
  {
    Histories(w.sourceOutput.den, seq(|w.outputs|, i requires 0 <= i < |w.outputs| => w.outputs[i].den), w.sinkOutput.den)
  }

  lemma DenOfWriteBack(source: Source, cells: seq<Link>, sink: Sink)
    ensures DenOf(WriteBackOf(source, cells, sink)) == DenHistories(source, cells, sink)
  {
    var h, g := DenOf(WriteBackOf(source, cells, sink)), DenHistories(source, cells, sink);
    assert h.cells == g.cells;
  }

  lemma DenOfWritten(w: WriteBack, f: seq<real>, k: nat)
    requires w.Valid(f)
    ensures DenOf(WrittenForm(w, f, k)) == DenOf(w)
  {
    var h, g := DenOf(WrittenForm(w, f, k)), DenOf(w);
    assert h.cells == g.cells;
  }

  /** The histories after each entity appended its current density to `h`. */
  lemma HistoriesGrown(source: Source, cells: seq<Link>, sink: Sink, h: Histories, d: Chain.Densities)
    requires State(source, cells, sink) == d
    requires source.output.den == h.source + [source.den] && sink.output.den == h.sink + [sink.den]
    requires |h.cells| == |cells| && forall i :: 0 <= i < |cells| ==> cells[i].output.den == h.cells[i] + [cells[i].den]
    ensures DenHistories(source, cells, sink) == Appended(h, d)
  {
    var g, a := DenHistories(source, cells, sink), Appended(h, d);
    assert g.cells == a.cells;
  }

  /** Every history extended by the entity's density in `d`. */
  function Appended(h: Histories, d: Chain.Densities): (r: Histories)
    requires |h.cells| == |d.cells|
    ensures |r.cells| == |h.cells|
    ensures forall i :: 0 <= i < |h.cells| ==> r.cells[i] == h.cells[i] + [d.cells[i]]
  {
    Histories(h.source + [d.source], seq(|h.cells|, i requires 0 <= i < |h.cells| => h.cells[i] + [d.cells[i]]), h.sink + [d.sink])
  }

  /** Phase 1 of a step: every flow the nodes will read is evaluated at the densities `st`. */
  method EvaluateStep(ghost cfg: Chain.Config, ghost st: Chain.Densities, source: Source, cells: seq<Link>, sink: Sink)
    requires Distinct(cells) && FlowFunctions(cfg, source, cells, sink) && State(source, cells, sink) == st
    modifies source`demand, source`sendingFlow, source`output
    modifies cells`sendingFlow, cells`receivingFlow, cells`output
    modifies sink`receivingFlow, sink`output
    ensures State(source, cells, sink) == st
    ensures source.demand == Some(cfg.demand) && FlowsEvaluated(source, cells, sink)
    ensures NodeFlows(source, cells, sink, |cells| + 1) == Chain.Flows(cfg, st, |cells| + 1)
    ensures DenHistories(source, cells, sink) == old(DenHistories(source, cells, sink))
  {
    ghost var h := DenHistories(source, cells, sink);
    EvaluateFlows(source, cells, sink);
    FlowsMatchChain(cfg, source, cells, sink);
    HistoriesAre(source, cells, sink, h);
  }

  /** Phase 2 of a step: every entity records the flows `f` the nodes resolve. */
  method ResolveStep(ghost st: Chain.Densities, ghost f: seq<real>,
                     source: Source, cells: seq<Link>, sink: Sink, nodes: seq<Node>)
    requires Wired(source, cells, sink, nodes) && Distinct(cells) && State(source, cells, sink) == st
    requires FlowsEvaluated(source, cells, sink) && NodeFlows(source, cells, sink, |cells| + 1) == f
    modifies source`outflow, source`output, sink`inflow, sink`output
    modifies cells`outflow, cells`inflow, cells`output
    modifies nodes
    ensures State(source, cells, sink) == st && FlowsRecorded(f, source, cells, sink)
    ensures DenHistories(source, cells, sink) == old(DenHistories(source, cells, sink))
  {
    ghost var w := WriteBackOf(source, cells, sink);
    DenOfWriteBack(source, cells, sink);
    ResolveNodes(source, cells, sink, nodes);
    AllNodesWritten(w, f, source, cells, sink);
    DenOfWritten(w, f, |f|);
    DenOfWriteBack(source, cells, sink);
  }

  /** Phase 3 of a step: every entity integrates the flows `f` it recorded with the conservation law. */
  method IntegrateStep(ghost cfg: Chain.Config, ghost st: Chain.Densities, ghost f: seq<real>,
                       source: Source, cells: seq<Link>, sink: Sink)
    requires Distinct(cells) && UnitGeometry(cfg, source, cells, sink)
    requires State(source, cells, sink) == st && source.demand == Some(cfg.demand)
    requires FlowsRecorded(f, source, cells, sink)
    modifies source`speed, source`den, source`output
    modifies cells`speed, cells`den, cells`output
    modifies sink`den, sink`output
    ensures State(source, cells, sink) == Chain.Conserve(cfg, st, f)
    ensures DenHistories(source, cells, sink) == Appended(old(DenHistories(source, cells, sink)), Chain.Conserve(cfg, st, f))
  {
    ghost var h := DenHistories(source, cells, sink);
    assert forall i :: 0 <= i < |cells| ==> cells[i].den == st.cells[i];
    Integrate(source, cells, sink);
    ghost var r := Chain.Conserve(cfg, st, f);
    forall i | 0 <= i < |cells|
      ensures cells[i].den == r.cells[i]
    {
      assert cells[i].inflow == Some(f[i]) && cells[i].outflow == Some(f[i + 1]);
      assert cells[i].den == DyFlowNet.UpdateDensity(st.cells[i], f[i], f[i + 1], 1.0, 1.0, cfg.maxDen);
    }
    StateIs(source, cells, sink, r);
    HistoriesGrown(source, cells, sink, h, r);
  }

  /**
   * One step of the example scripts' loop on the objects: every entity
   * evaluates its flows, every node in order resolves and writes back, and
   * every entity integrates. The densities after it are the chain's step of
   * the densities before it.
   */
  method Advance(ghost cfg: Chain.Config, source: Source, cells: seq<Link>, sink: Sink, nodes: seq<Node>)
    requires Wired(source, cells, sink, nodes) && Distinct(cells) && Configured(cfg, source, cells, sink)
    modifies source, sink, cells, nodes
    ensures State(source, cells, sink) == Chain.Step(cfg, old(State(source, cells, sink)))
    ensures DenHistories(source, cells, sink) == Appended(old(DenHistories(source, cells, sink)), State(source, cells, sink))
  {
    ghost var st := State(source, cells, sink);
    ghost var f := Chain.Flows(cfg, st, |cells| + 1);
    EvaluateStep(cfg, st, source, cells, sink);
    ResolveStep(st, f, source, cells, sink, nodes);
    IntegrateStep(cfg, st, f, source, cells, sink);
    Chain.StepIsConserve(cfg, st);
  }

  /**
   * The scripts' run loop: `steps` times, one step of all three phases. The
   * densities follow `steps` chain steps from where they started.
   */
  method Simulate(ghost cfg: Chain.Config, source: Source, cells: seq<Link>, sink: Sink, nodes: seq<Node>, steps: nat)
    requires Wired(source, cells, sink, nodes) && Distinct(cells) && Configured(cfg, source, cells, sink)
    modifies source, sink, cells, nodes
    ensures State(source, cells, sink) == Chain.Run(cfg, old(State(source, cells, sink)), steps)
    ensures DenHistories(source, cells, sink) == Recorded(old(DenHistories(source, cells, sink)), cfg, old(State(source, cells, sink)), steps)
  {
    ghost var st := State(source, cells, sink);
    ghost var h := DenHistories(source, cells, sink);
    var t := 0;
    while t < steps
      invariant 0 <= t <= steps
      invariant State(source, cells, sink) == Chain.Run(cfg, st, t)
      invariant DenHistories(source, cells, sink) == Recorded(h, cfg, st, t)
    {
      Advance(cfg, source, cells, sink, nodes);
      Chain.RunSucc(cfg, st, t);
      t := t + 1;
    }
  }

  /** The density histories of a run of `steps` chain steps from `st`, each appended to `h`. */
  function Recorded(h: Histories, cfg: Chain.Config, st: Chain.Densities, steps: nat): (r: Histories)
    requires |h.cells| == |st.cells|
    ensures |r.cells| == |h.cells|
    decreases steps
  {
    if steps == 0 then h else Appended(Recorded(h, cfg, st, steps - 1), Chain.Run(cfg, st, steps))
  }

  /** The histories of freshly built entities: each holds its initial density only. */
  function Start(st: Chain.Densities): (h: Histories)
    ensures |h.cells| == |st.cells| && forall i :: 0 <= i < |st.cells| ==> h.cells[i] == [st.cells[i]]
  {
    Histories([st.source], seq(|st.cells|, i requires 0 <= i < |st.cells| => [st.cells[i]]), [st.sink])
  }

  /** Entry `j` of every history is the entity's density after `j` steps of the run from `st`. */
  ghost predicate Follows(h: Histories, cfg: Chain.Config, st: Chain.Densities, steps: nat)
  {
    && |h.source| == steps + 1 && |h.sink| == steps + 1 && |h.cells| == |st.cells|
    && (forall j :: 0 <= j <= steps ==> h.source[j] == Chain.Run(cfg, st, j).source && h.sink[j] == Chain.Run(cfg, st, j).sink)
    && forall i :: 0 <= i < |st.cells| ==>
      |h.cells[i]| == steps + 1 && forall j :: 0 <= j <= steps ==> h.cells[i][j] == Chain.Run(cfg, st, j).cells[i]
  }

  /**
   * A run's recorded histories, started from fresh entities, hold one
   * density per step taken plus the initial one, in the order of the run.
   */
  lemma {:induction false} RecordedFollows(cfg: Chain.Config, st: Chain.Densities, steps: nat)
    ensures Follows(Recorded(Start(st), cfg, st, steps), cfg, st, steps)
  {
    if steps == 0 {
      StartFollows(cfg, st);
    } else {
      RecordedFollows(cfg, st, steps - 1);
      AppendedFollows(Recorded(Start(st), cfg, st, steps - 1), cfg, st, steps - 1);
    }
  }

  lemma StartFollows(cfg: Chain.Config, st: Chain.Densities)
    ensures Follows(Start(st), cfg, st, 0)
  {
    assert Chain.Run(cfg, st, 0) == st;
  }

  /** Appending the next densities of the run keeps the histories following it. */
  lemma AppendedFollows(h: Histories, cfg: Chain.Config, st: Chain.Densities, steps: nat)
    requires Follows(h, cfg, st, steps)
    ensures Follows(Appended(h, Chain.Run(cfg, st, steps + 1)), cfg, st, steps + 1)
  {
    var r, d := Appended(h, Chain.Run(cfg, st, steps + 1)), Chain.Run(cfg, st, steps + 1);
    forall i | 0 <= i < |st.cells|
      ensures |r.cells[i]| == steps + 2 && forall j :: 0 <= j <= steps + 1 ==> r.cells[i][j] == Chain.Run(cfg, st, j).cells[i]
    {
      assert r.cells[i] == h.cells[i] + [d.cells[i]];
    }
  }

  /**
   * The scripts' cell list: cell `i` is a new link at density `dens[i]`
   * with the given diagram and maximum density and the default unit length
   * and time step; its history holds its initial density and speed.
   */
  method MakeCells(dens: seq<real>, maxSpeed: real, sending: real -> real, receiving: real -> Ext, maxDen: Ext)
    returns (cells: seq<Link>)
    ensures |cells| == |dens| && Distinct(cells)
    ensures forall i :: 0 <= i < |cells| ==>
      && fresh(cells[i])
      && cells[i].den == dens[i] && cells[i].speed == maxSpeed && cells[i].maxSpeed == maxSpeed
      && cells[i].sendingFlowFunc == sending && cells[i].receivingFlowFunc == receiving && cells[i].maxDen == maxDen
      && cells[i].len == 1.0 && cells[i].timeStep == 1.0
      && cells[i].output == LinkOutput([dens[i]], [maxSpeed], [], [], [], [])
  {
    cells := [];
    var i := 0;
    while i < |dens|
      invariant 0 <= i <= |dens| && |cells| == i && Distinct(cells)
      invariant forall j :: 0 <= j < i ==>
        && fresh(cells[j])
        && cells[j].den == dens[j] && cells[j].speed == maxSpeed && cells[j].maxSpeed == maxSpeed
        && cells[j].sendingFlowFunc == sending && cells[j].receivingFlowFunc == receiving && cells[j].maxDen == maxDen
        && cells[j].len == 1.0 && cells[j].timeStep == 1.0
        && cells[j].output == LinkOutput([dens[j]], [maxSpeed], [], [], [], [])
    {
      var c := new Link(dens[i], maxSpeed, sending, receiving, maxDen := maxDen);
      cells := cells + [c];
      i := i + 1;
    }
  }

  /**
   * The scripts' node list: node 0 joins the source to the first cell, node
   * `i + 1` joins cell `i` to cell `i + 1`, and the last node joins the last
   * cell to the sink, all with the minimum rule. There must be a first cell.
   */
  method BuildNodes(source: Source, cells: seq<Link>, sink: Sink) returns (nodes: seq<Node>)
    requires |cells| >= 1
    ensures Wired(source, cells, sink, nodes)
    ensures forall k :: 0 <= k < |nodes| ==> fresh(nodes[k])
  {
    var first := new Node([FromSource(source)], [ToLink(cells[0])], NodeFlowFunc);
    nodes := [first];
    var i := 0;
    while i < |cells| - 1
      invariant 0 <= i <= |cells| - 1 && |nodes| == i + 1
      invariant forall k :: 0 <= k < |nodes| ==>
        && fresh(nodes[k])
        && nodes[k].incomingLinks == [Up(source, cells, k)]
        && nodes[k].outgoingLinks == [Down(cells, sink, k)]
        && nodes[k].nodeFlowFunc == NodeFlowFunc
    {
      var node := new Node([FromLink(cells[i])], [ToLink(cells[i + 1])], NodeFlowFunc);
      nodes := nodes + [node];
      i := i + 1;
    }
    var last := new Node([FromLink(cells[|cells| - 1])], [ToSink(sink)], NodeFlowFunc);
    nodes := nodes + [last];
  }
}
