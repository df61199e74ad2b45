/**
 * The stateful entities of the engine. A link (cell), a source and a sink each
 * hold a density and their flow fields and record every update in an
 * append-only `output` history. A node gathers the sending and receiving flows
 * of its incoming and outgoing entities, hands them to an injected distribution
 * function and writes the resulting outflows and inflows back.
 *
 * A field the engine initialises to `None` is an `Option`; an update that
 * would compute with `None` (a `TypeError` in the engine) requires `Some`.
 * Every `update` method changes exactly the field it names and appends exactly
 * one entry to the matching history list; the field-level `modifies` clauses
 * say that nothing else changes.
 */
module Network {
  import opened Wrappers
  import opened ExtReal
  import DyFlowNet

  /** The `output` dictionary of a link: one history list per recorded quantity. */
  datatype LinkOutput = LinkOutput(den: seq<real>, speed: seq<real>, sendingFlow: seq<real>,
                                   receivingFlow: seq<Ext>, outflow: seq<real>, inflow: seq<real>)

  /** The `output` dictionary of a source. */
  datatype SourceOutput = SourceOutput(den: seq<real>, speed: seq<real>, sendingFlow: seq<real>,
                                       outflow: seq<real>, demand: seq<real>)

  /** The `output` dictionary of a sink. */
  datatype SinkOutput = SinkOutput(den: seq<real>, receivingFlow: seq<Ext>, inflow: seq<real>)

  /** A cell of road with an optional upper density bound. */
  class Link {
    const len: real
    const timeStep: real
    const maxDen: Ext
    const maxSpeed: real
    const sendingFlowFunc: real -> real
    const receivingFlowFunc: real -> Ext

    var den: real
    var speed: real
    var sendingFlow: Option<real>
    var receivingFlow: Option<Ext>
    var outflow: Option<real>
    var inflow: Option<real>
    var output: LinkOutput

    /** The history starts with the initial density and speed; every other list starts empty. */
    constructor (initialDen: real, maxSpeed: real, sendingFlowFunc: real -> real,
                 receivingFlowFunc: real -> Ext, length: real := 1.0, timeStep: real := 1.0,
                 maxDen: Ext := Inf, initialSpeed: Option<real> := None)
      ensures len == length && this.timeStep == timeStep && this.maxDen == maxDen
      ensures this.maxSpeed == maxSpeed
      ensures this.sendingFlowFunc == sendingFlowFunc && this.receivingFlowFunc == receivingFlowFunc
      ensures den == initialDen
      ensures speed == if initialSpeed.Some? then initialSpeed.value else maxSpeed
      ensures sendingFlow == None && receivingFlow == None && outflow == None && inflow == None
      ensures output == LinkOutput([initialDen], [speed], [], [], [], [])
    {
      len := length;
      this.timeStep := timeStep;
      den := initialDen;
      this.maxDen := maxDen;
      speed := if initialSpeed.Some? then initialSpeed.value else maxSpeed;
      this.maxSpeed := maxSpeed;
      this.sendingFlowFunc := sendingFlowFunc;
      this.receivingFlowFunc := receivingFlowFunc;
      sendingFlow, receivingFlow := None, None;
      outflow, inflow := None, None;
      new;
      output := LinkOutput([den], [speed], [], [], [], []);
    }

    method UpdateDensity()
      requires inflow.Some? && outflow.Some? && len != 0.0
      modifies `den, `output
      ensures den == DyFlowNet.UpdateDensity(old(den), inflow.value, outflow.value, timeStep, len, maxDen)
      ensures output == old(output).(den := old(output.den) + [den])
    {
      den := DyFlowNet.UpdateDensity(den, inflow.value, outflow.value, timeStep, len, maxDen);
      output := output.(den := output.den + [den]);
    }

    method UpdateSpeed()
      requires outflow.Some?
      modifies `speed, `output
      ensures speed == DyFlowNet.UpdateSpeed(den, outflow.value, maxSpeed)
      ensures output == old(output).(speed := old(output.speed) + [speed])
    {
      speed := DyFlowNet.UpdateSpeed(den, outflow.value, maxSpeed);
      output := output.(speed := output.speed + [speed]);
    }

    /** The driver passes the density to evaluate the injected function at. */
    method UpdateSendingFlow(density: real)
      modifies `sendingFlow, `output
      ensures sendingFlow == Some(sendingFlowFunc(density))
      ensures output == old(output).(sendingFlow := old(output.sendingFlow) + [sendingFlowFunc(density)])
    {
      sendingFlow := Some(sendingFlowFunc(density));
      output := output.(sendingFlow := output.sendingFlow + [sendingFlow.value]);
    }

    method UpdateReceivingFlow(density: real)
      modifies `receivingFlow, `output
      ensures receivingFlow == Some(receivingFlowFunc(density))
      ensures output == old(output).(receivingFlow := old(output.receivingFlow) + [receivingFlowFunc(density)])
    {
      receivingFlow := Some(receivingFlowFunc(density));
      output := output.(receivingFlow := output.receivingFlow + [receivingFlow.value]);
    }

    method UpdateOutflow(v: real)
      modifies `outflow, `output
      ensures outflow == Some(v)
      ensures output == old(output).(outflow := old(output.outflow) + [v])
    {
      outflow := Some(v);
      output := output.(outflow := output.outflow + [v]);
    }

    method UpdateInflow(v: real)
      modifies `inflow, `output
      ensures inflow == Some(v)
      ensures output == old(output).(inflow := old(output.inflow) + [v])
    {
      inflow := Some(v);
      output := output.(inflow := output.inflow + [v]);
    }
  }

  /** A network entry: a queue without upper bound, fed by an exogenous demand. */
  class Source {
    const len: real
    const timeStep: real
    const maxSpeed: real
    const sendingFlowFunc: real -> real
    const demandFunc: () -> real

    var den: real
    var speed: real
    var sendingFlow: Option<real>
    var demand: Option<real>
    var outflow: Option<real>
    var output: SourceOutput

    constructor (maxSpeed: real, sendingFlowFunc: real -> real, demandFunc: () -> real,
                 length: real := 1.0, timeStep: real := 1.0, initialDen: real := 0.0,
                 initialSpeed: Option<real> := None)
      ensures len == length && this.timeStep == timeStep && this.maxSpeed == maxSpeed
      ensures this.sendingFlowFunc == sendingFlowFunc && this.demandFunc == demandFunc
      ensures den == initialDen
      ensures speed == if initialSpeed.Some? then initialSpeed.value else maxSpeed
      ensures sendingFlow == None && demand == None && outflow == None
      ensures output == SourceOutput([initialDen], [speed], [], [], [])
    {
      len := length;
      this.timeStep := timeStep;
      den := initialDen;
      speed := if initialSpeed.Some? then initialSpeed.value else maxSpeed;
      this.maxSpeed := maxSpeed;
      this.sendingFlowFunc := sendingFlowFunc;
      this.demandFunc := demandFunc;
      sendingFlow, demand, outflow := None, None, None;
      new;
      output := SourceOutput([den], [speed], [], [], []);
    }

    /** The demand is the inflow and there is no upper density bound. */
    method UpdateDensity()
      requires demand.Some? && outflow.Some? && len != 0.0
      modifies `den, `output
      ensures den == DyFlowNet.UpdateDensity(old(den), demand.value, outflow.value, timeStep, len, Inf)
      ensures output == old(output).(den := old(output.den) + [den])
    {
      den := DyFlowNet.UpdateDensity(den, demand.value, outflow.value, timeStep, len, Inf);
      output := output.(den := output.den + [den]);
    }

    method UpdateSpeed()
      requires outflow.Some?
      modifies `speed, `output
      ensures speed == DyFlowNet.UpdateSpeed(den, outflow.value, maxSpeed)
      ensures output == old(output).(speed := old(output.speed) + [speed])
    {
      speed := DyFlowNet.UpdateSpeed(den, outflow.value, maxSpeed);
      output := output.(speed := output.speed + [speed]);
    }

    method UpdateSendingFlow(density: real)
      modifies `sendingFlow, `output
      ensures sendingFlow == Some(sendingFlowFunc(density))
      ensures output == old(output).(sendingFlow := old(output.sendingFlow) + [sendingFlowFunc(density)])
    {
      sendingFlow := Some(sendingFlowFunc(density));
      output := output.(sendingFlow := output.sendingFlow + [sendingFlow.value]);
    }

    method UpdateDemand()
      modifies `demand, `output
      ensures demand == Some(demandFunc())
      ensures output == old(output).(demand := old(output.demand) + [demandFunc()])
    {
      demand := Some(demandFunc());
      output := output.(demand := output.demand + [demand.value]);
    }

    method UpdateOutflow(v: real)
      modifies `outflow, `output
      ensures outflow == Some(v)
      ensures output == old(output).(outflow := old(output.outflow) + [v])
    {
      outflow := Some(v);
      output := output.(outflow := output.outflow + [v]);
    }
  }

  /** A network exit: it counts arrivals; its outflow is always zero and it has no speed. */
  class Sink {
    const len: real
    const timeStep: real
    const receivingFlowFunc: () -> Ext

    var den: real
    var receivingFlow: Option<Ext>
    var inflow: Option<real>
    var output: SinkOutput

    /** By default the sink accepts any flow: its receiving flow is infinite. */
    constructor (initialDen: real := 0.0, length: real := 1.0, timeStep: real := 1.0,
                 receivingFlowFunc: () -> Ext := () => Inf)
      ensures len == length && this.timeStep == timeStep && this.receivingFlowFunc == receivingFlowFunc
      ensures den == initialDen && receivingFlow == None && inflow == None
      ensures output == SinkOutput([initialDen], [], [])
    {
      len := length;
      this.timeStep := timeStep;
      den := initialDen;
      this.receivingFlowFunc := receivingFlowFunc;
      receivingFlow, inflow := None, None;
      new;
      output := SinkOutput([den], [], []);
    }

    /** Outflow 0 and no upper bound. */
    method UpdateDensity()
      requires inflow.Some? && len != 0.0
      modifies `den, `output
      ensures den == DyFlowNet.UpdateDensity(old(den), inflow.value, 0.0, timeStep, len, Inf)
      ensures output == old(output).(den := old(output.den) + [den])
    {
      den := DyFlowNet.UpdateDensity(den, inflow.value, 0.0, timeStep, len, Inf);
      output := output.(den := output.den + [den]);
    }

    method UpdateReceivingFlow()
      modifies `receivingFlow, `output
      ensures receivingFlow == Some(receivingFlowFunc())
      ensures output == old(output).(receivingFlow := old(output.receivingFlow) + [receivingFlowFunc()])
    {
      receivingFlow := Some(receivingFlowFunc());
      output := output.(receivingFlow := output.receivingFlow + [receivingFlow.value]);
    }

    method UpdateInflow(v: real)
      modifies `inflow, `output
      ensures inflow == Some(v)
      ensures output == old(output).(inflow := old(output.inflow) + [v])
    {
      inflow := Some(v);
      output := output.(inflow := output.inflow + [v]);
    }
  }

  /** An entity a node can take flow from: a source or a link. */
  datatype Upstream = FromSource(source: Source) | FromLink(link: Link) {
    function Entity(): object {
      if FromSource? then source else link
    }

    function SendingFlow(): Option<real>
      reads Entity()
    {
      if FromSource? then source.sendingFlow else link.sendingFlow
    }

    function Outflow(): Option<real>
      reads Entity()
    {
      if FromSource? then source.outflow else link.outflow
    }
  }

  /** An entity a node can pass flow to: a link or a sink. */
  datatype Downstream = ToLink(link: Link) | ToSink(sink: Sink) {
    function Entity(): object {
      if ToLink? then link else sink
    }

    function ReceivingFlow(): Option<Ext>
      reads Entity()
    {
      if ToLink? then link.receivingFlow else sink.receivingFlow
    }

    function Inflow(): Option<real>
      reads Entity()
    {
      if ToLink? then link.inflow else sink.inflow
    }
  }

  /** No entity occurs twice in the list. */
  ghost predicate DistinctUpstream(us: seq<Upstream>) {
    forall i, j :: 0 <= i < j < |us| ==> us[i].Entity() != us[j].Entity()
  }

  ghost predicate DistinctDownstream(ds: seq<Downstream>) {
    forall i, j :: 0 <= i < j < |ds| ==> ds[i].Entity() != ds[j].Entity()
  }

  /**
   * The distribution function receives the gathered sending and receiving
   * flows (each possibly still `None`) and returns the outflows for the
   * incoming entities and the inflows for the outgoing ones; it may reject
   * its arguments, which is its precondition.
   */
  type DistributionFunc = (seq<Option<real>>, seq<Option<Ext>>) --> (seq<real>, seq<real>)

  class Node {
    const incomingLinks: seq<Upstream>
    const outgoingLinks: seq<Downstream>
    const nodeFlowFunc: DistributionFunc

    var sendingFlows: Option<seq<Option<real>>>
    var receivingFlows: Option<seq<Option<Ext>>>
    var outflows: Option<seq<real>>
    var inflows: Option<seq<real>>

    constructor (incomingLinks: seq<Upstream>, outgoingLinks: seq<Downstream>, nodeFlowFunc: DistributionFunc)
      ensures this.incomingLinks == incomingLinks && this.outgoingLinks == outgoingLinks
      ensures this.nodeFlowFunc == nodeFlowFunc
      ensures sendingFlows == None && receivingFlows == None && outflows == None && inflows == None
    {
      this.incomingLinks := incomingLinks;
      this.outgoingLinks := outgoingLinks;
      this.nodeFlowFunc := nodeFlowFunc;
      sendingFlows, receivingFlows := None, None;
      outflows, inflows := None, None;
    }

    /** The incoming links and sources, and the outgoing links and sinks, as sets. */
    function InLinks(): set<Link> {
      set u | u in incomingLinks && u.FromLink? :: u.link
    }

    function InSources(): set<Source> {
      set u | u in incomingLinks && u.FromSource? :: u.source
    }

    function OutLinks(): set<Link> {
      set d | d in outgoingLinks && d.ToLink? :: d.link
    }

    function OutSinks(): set<Sink> {
      set d | d in outgoingLinks && d.ToSink? :: d.sink
    }

    /** Position `i` of the list is the `i`-th incoming entity's current sending flow. */
    method GetSendingFlows()
      modifies `sendingFlows
      ensures sendingFlows.Some? && |sendingFlows.value| == |incomingLinks|
      ensures forall i :: 0 <= i < |incomingLinks| ==> sendingFlows.value[i] == incomingLinks[i].SendingFlow()
    {
      var flows := [];
      var i := 0;
      while i < |incomingLinks|
        invariant 0 <= i <= |incomingLinks| && |flows| == i
        invariant forall j :: 0 <= j < i ==> flows[j] == incomingLinks[j].SendingFlow()
      {
        flows := flows + [incomingLinks[i].SendingFlow()];
        i := i + 1;
      }
      sendingFlows := Some(flows);
    }

    /** Position `j` of the list is the `j`-th outgoing entity's current receiving flow. */
    method GetReceivingFlows()
      modifies `receivingFlows
      ensures receivingFlows.Some? && |receivingFlows.value| == |outgoingLinks|
      ensures forall j :: 0 <= j < |outgoingLinks| ==> receivingFlows.value[j] == outgoingLinks[j].ReceivingFlow()
    {
      var flows := [];
      var i := 0;
      while i < |outgoingLinks|
        invariant 0 <= i <= |outgoingLinks| && |flows| == i
        invariant forall j :: 0 <= j < i ==> flows[j] == outgoingLinks[j].ReceivingFlow()
      {
        flows := flows + [outgoingLinks[i].ReceivingFlow()];
        i := i + 1;
      }
      receivingFlows := Some(flows);
    }

    method UpdateNodeFlow()
      requires sendingFlows.Some? && receivingFlows.Some?
      requires nodeFlowFunc.requires(sendingFlows.value, receivingFlows.value)
      modifies `outflows, `inflows
      ensures outflows == Some(nodeFlowFunc(sendingFlows.value, receivingFlows.value).0)
      ensures inflows == Some(nodeFlowFunc(sendingFlows.value, receivingFlows.value).1)
    {
      var result := nodeFlowFunc(sendingFlows.value, receivingFlows.value);
      outflows, inflows := Some(result.0), Some(result.1);
    }

    /**
     * Writes `outflows[i]` to the `i`-th incoming entity for every position of
     * `outflows`; a longer list would run past the entity list. Entities past
     * the end of `outflows` and all other fields are untouched.
     */
    method SetOutflows()
      requires outflows.Some? && |outflows.value| <= |incomingLinks|
      requires DistinctUpstream(incomingLinks)
      modifies InLinks()`outflow, InLinks()`output, InSources()`outflow, InSources()`output
      ensures forall i :: 0 <= i < |incomingLinks| ==>
        incomingLinks[i].Outflow() == if i < |outflows.value| then Some(outflows.value[i]) else old(incomingLinks[i].Outflow())
      ensures forall i :: 0 <= i < |incomingLinks| && incomingLinks[i].FromLink? ==>
        var l := incomingLinks[i].link;
        l.output == old(l.output).(outflow := old(l.output.outflow) + if i < |outflows.value| then [outflows.value[i]] else [])
      ensures forall i :: 0 <= i < |incomingLinks| && incomingLinks[i].FromSource? ==>
        var s := incomingLinks[i].source;
        s.output == old(s.output).(outflow := old(s.output.outflow) + if i < |outflows.value| then [outflows.value[i]] else [])
    {
      var values := outflows.value;
      var i := 0;
      while i < |values|
        invariant 0 <= i <= |values|
        invariant forall j :: 0 <= j < |incomingLinks| ==>
          && incomingLinks[j].Outflow() == (if j < i then Some(values[j]) else old(incomingLinks[j].Outflow()))
          && (incomingLinks[j].FromLink? ==>
                var l := incomingLinks[j].link;
                l.output == old(l.output).(outflow := old(l.output.outflow) + if j < i then [values[j]] else []))
          && (incomingLinks[j].FromSource? ==>
                var s := incomingLinks[j].source;
                s.output == old(s.output).(outflow := old(s.output.outflow) + if j < i then [values[j]] else []))
      {
        match incomingLinks[i] {
          case FromLink(l) => l.UpdateOutflow(values[i]);
          case FromSource(s) => s.UpdateOutflow(values[i]);
        }
        i := i + 1;
      }
    }

    /** Writes `inflows[j]` to the `j`-th outgoing entity, as `SetOutflows` does upstream. */
    method SetInflows()
      requires inflows.Some? && |inflows.value| <= |outgoingLinks|
      requires DistinctDownstream(outgoingLinks)
      modifies OutLinks()`inflow, OutLinks()`output, OutSinks()`inflow, OutSinks()`output
      ensures forall j :: 0 <= j < |outgoingLinks| ==>
        outgoingLinks[j].Inflow() == if j < |inflows.value| then Some(inflows.value[j]) else old(outgoingLinks[j].Inflow())
      ensures forall j :: 0 <= j < |outgoingLinks| && outgoingLinks[j].ToLink? ==>
        var l := outgoingLinks[j].link;
        l.output == old(l.output).(inflow := old(l.output.inflow) + if j < |inflows.value| then [inflows.value[j]] else [])
      ensures forall j :: 0 <= j < |outgoingLinks| && outgoingLinks[j].ToSink? ==>
        var k := outgoingLinks[j].sink;
        k.output == old(k.output).(inflow := old(k.output.inflow) + if j < |inflows.value| then [inflows.value[j]] else [])
    {
      var values := inflows.value;
      var i := 0;
      while i < |values|
        invariant 0 <= i <= |values|
        invariant forall j :: 0 <= j < |outgoingLinks| ==>
          && outgoingLinks[j].Inflow() == (if j < i then Some(values[j]) else old(outgoingLinks[j].Inflow()))
          && (outgoingLinks[j].ToLink? ==>
                var l := outgoingLinks[j].link;
                l.output == old(l.output).(inflow := old(l.output.inflow) + if j < i then [values[j]] else []))
          && (outgoingLinks[j].ToSink? ==>
                var k := outgoingLinks[j].sink;
                k.output == old(k.output).(inflow := old(k.output.inflow) + if j < i then [values[j]] else []))
      {
        match outgoingLinks[i] {
          case ToLink(l) => l.UpdateInflow(values[i]);
          case ToSink(k) => k.UpdateInflow(values[i]);
        }
        i := i + 1;
      }
    }
  }
}
