# Cell Transmission Model engine in Dafny

This project models pyDyFlowNet, a small cell-transmission-model (CTM) traffic
engine, together with the three example scripts that drive it. A road is cut
into cells (`Link`). Traffic enters at a `Source` and leaves at a `Sink`.
Nodes join neighbouring entities with an injected distribution function. Each
step of a script runs three phases over the whole network:

1. every entity evaluates its sending and receiving flows at its
   start-of-step density;
2. every node gathers those flows, applies the minimum rule and writes the
   resulting outflow and inflow back to its two entities;
3. every entity integrates its speed and then its density with the
   discretised conservation law.

The model has three layers:

- **The engine** (`dyflownet.dfy`, `network.dfy`). The scalar update rules are
  functions. `Link`, `Source`, `Sink` and `Node` are classes whose methods
  update their fields and append to the `output` histories.
- **A chain of cells as values** (`chain.dfy`). One step of a
  source → cells → sink chain is a function `Chain.Step` on densities. The
  conservation results are proved about it.
- **The scripts' stepping loop on objects** (`stepping.dfy`). `Advance` runs
  the three phases over the real objects and is proved to compute exactly
  `Chain.Step` on their densities. `Simulate` runs `steps` of them and is
  proved to compute `Chain.Run`.

The three scripts are `example6.dfy`, `example7.dfy` and `example8.dfy`. They
share the triangular fundamental diagram in `triangular.dfy`. For each
script, the model proves what its run ends with: every density stays in range,
the total number of vehicles is conserved and the source stays empty. Each
script's density histories hold one entry per step plus the initial one, in
the order of the run. For any admissible chain that starts in range, which
includes all three scripts, the clamp in the density update never fires on any
step of the run (`Chain.RunUnclamped`). The model also proves the exact flows
and densities of each script's first step. `np.inf` is the `Inf` case of `ExtReal.Ext`, and Python's `None` is
`Wrappers.Option.None`.

## Model

| member | source | states |
|---|---|---|
| ExtReal.Min | pyDyFlowNet.py:5 | `np.minimum` of a finite value and a possibly infinite bound is at most both and equals one of them |
| DyFlowNet.Integrated | pyDyFlowNet.py:4 | the vehicles on the entity (density × length) change by exactly the net flow × the time step |
| DyFlowNet.UpdateDensity | pyDyFlowNet.py:3-5 | the updated density is at most `maxDen` and, for a non-negative bound, at least 0 |
| DyFlowNet.DensityClamped | pyDyFlowNet.py:3-5 | the updated density is at most `maxDen` and, for a non-negative bound, at least 0; it equals the conservation law exactly when that lies in `[0, maxDen]`, 0 below and `maxDen` above |
| DyFlowNet.UpdateSpeed | pyDyFlowNet.py:8-19 | for a non-zero density speed × density equals the outflow; for density 0 the speed is `maxSpeed` |
| DyFlowNet.UnboundedDensity | pyDyFlowNet.py:121-123 | with `maxDen = Inf` (the source's rule) the update is `max(0, den + (inflow - outflow) * timeStep / length)` |
| DyFlowNet.SinkDensityNeverDecreases | pyDyFlowNet.py:164-167 | with outflow 0, no upper bound and a non-negative inflow, the sink density never decreases |
| Network.Link.constructor | pyDyFlowNet.py:23-59 | fields take their arguments or defaults; speed is `maxSpeed` unless an initial speed is given; the four flows are `None`; the history holds the initial density and speed and four empty lists |
| Network.Link.UpdateDensity | pyDyFlowNet.py:61-63 | density becomes the clamped conservation law of the recorded inflow and outflow; only `den` and `output["den"]` change, by exactly one entry |
| Network.Link.UpdateSpeed | pyDyFlowNet.py:65-67 | speed becomes the speed rule of the current density and recorded outflow; one entry is appended to `output["speed"]`, nothing else changes |
| Network.Link.UpdateSendingFlow | pyDyFlowNet.py:69-71 | the sending flow is the injected function at the given density, appended to its history and nothing else |
| Network.Link.UpdateReceivingFlow | pyDyFlowNet.py:73-75 | the receiving flow is the injected function at the given density, appended to its history and nothing else |
| Network.Link.UpdateOutflow | pyDyFlowNet.py:77-79 | the outflow is set and appended to its history; nothing else changes |
| Network.Link.UpdateInflow | pyDyFlowNet.py:81-83 | the inflow is set and appended to its history; nothing else changes |
| Network.Source.constructor | pyDyFlowNet.py:87-119 | the initial density defaults to 0; speed defaults to `maxSpeed`; the history holds the initial density and speed |
| Network.Source.UpdateDensity | pyDyFlowNet.py:121-123 | the demand is the inflow and the upper bound is `Inf`; exactly one density entry is appended |
| Network.Source.UpdateSpeed | pyDyFlowNet.py:125-127 | the same speed rule as a link; one speed entry is appended |
| Network.Source.UpdateSendingFlow | pyDyFlowNet.py:129-131 | the sending flow is the injected function at the given density, recorded once |
| Network.Source.UpdateDemand | pyDyFlowNet.py:133-135 | the demand is the injected demand function's value, recorded once |
| Network.Source.UpdateOutflow | pyDyFlowNet.py:137-139 | the outflow is set and recorded once |
| Network.Sink.constructor | pyDyFlowNet.py:142-162 | the default receiving flow function returns `Inf`; the history holds the initial density and two empty lists |
| Network.Sink.UpdateDensity | pyDyFlowNet.py:164-167 | outflow 0 and no upper bound; one density entry is appended |
| Network.Sink.UpdateReceivingFlow | pyDyFlowNet.py:169-171 | the receiving flow is the injected function's value, recorded once |
| Network.Sink.UpdateInflow | pyDyFlowNet.py:173-175 | the inflow is set and recorded once |
| Network.Node.constructor | pyDyFlowNet.py:179-191 | the entity lists and the distribution function are kept; the four per-step lists start as `None` |
| Network.Node.GetSendingFlows | pyDyFlowNet.py:193-194 | the list has one entry per incoming entity; entry `i` is that entity's current sending flow |
| Network.Node.GetReceivingFlows | pyDyFlowNet.py:196-197 | the list has one entry per outgoing entity; entry `j` is that entity's current receiving flow |
| Network.Node.SetOutflows | pyDyFlowNet.py:199-201 | incoming entity `i` gets `outflows[i]` and one history entry for each `i < len(outflows)`; later entities and every other field are untouched |
| Network.Node.SetInflows | pyDyFlowNet.py:203-205 | outgoing entity `j` gets `inflows[j]` and one history entry for each `j < len(inflows)`; the rest is untouched |
| Network.Node.UpdateNodeFlow | pyDyFlowNet.py:207-208 | the outflows and inflows are the two halves of the distribution function's result on the gathered flows |
| Stepping.NodeFlowFunc | CTM_example6.py:17-18 | one outflow and one inflow, equal to each other; the flow is at most the sending flow, within the receiving flow, and equal to one of them |
| Stepping.MakeCells | CTM_example6.py:26-27 | one fresh, distinct cell per initial density, carrying the scripts' flow functions, maximum density, unit geometry and a history that starts with that density |
| Stepping.BuildNodes | CTM_example6.py:33-36 | node 0 joins the source to cell 0, node `i + 1` joins cell `i` to cell `i + 1`, and the last node joins the last cell to the sink, all with the minimum rule |
| Stepping.EvaluateFlows | CTM_example6.py:40-49 | phase 1: the source records its demand and its sending flow at its density, every cell its two flows at its density, the sink its receiving flow |
| Stepping.EvaluateCellFlows | CTM_example6.py:44-46 | the cell loop of phase 1: every cell's flows are its injected functions at its own current density |
| Stepping.GatherNode | CTM_example6.py:52-55 | a wired node's outflow and inflow are the minimum of its upstream sending flow and downstream receiving flow |
| Stepping.OutflowToLink | pyDyFlowNet.py:199-201 | a 1-in node writes its outflow into its one upstream cell and appends it to that cell's history |
| Stepping.OutflowToSource | pyDyFlowNet.py:199-201 | a 1-in node writes its outflow into the source and appends it to the source's history |
| Stepping.InflowToLink | pyDyFlowNet.py:203-205 | a 1-out node writes its inflow into its one downstream cell |
| Stepping.InflowToSink | pyDyFlowNet.py:203-205 | a 1-out node writes its inflow into the sink |
| Stepping.WriteOutflow | CTM_example6.py:57 | node `k`'s outflow reaches the source (`k = 0`) or cell `k - 1` and nothing else |
| Stepping.WriteInflow | CTM_example6.py:58 | node `k`'s inflow reaches cell `k` or, past the last cell, the sink, and nothing else |
| Stepping.ResolveNode | CTM_example6.py:52-58 | one pass of the node loop extends the written state of nodes `0 .. k - 1` by node `k` |
| Stepping.ResolveNodes | CTM_example6.py:51-58 | phase 2: after the node loop every cell has inflow `f[i]` and outflow `f[i + 1]`, the source outflow `f[0]` and the sink inflow `f[n]`, with one history entry each, and no other field of the source, the cells or the sink changed |
| Stepping.FlowsMatchChain | CTM_example6.py:44-56 | after phase 1 the minimum rule at each node gives the chain's flow at that node on the entities' densities |
| Stepping.EvaluateStep | CTM_example6.py:40-49 | phase 1 leaves the densities unchanged and makes the node flows the chain's flows |
| Stepping.ResolveStep | CTM_example6.py:51-58 | phase 2 leaves the densities unchanged and records the chain's flows on every entity |
| Stepping.Integrate | CTM_example6.py:60-69 | phase 3: speeds from the start-of-step densities, then densities by the conservation law; the sink with outflow 0 |
| Stepping.IntegrateCells | CTM_example6.py:64-66 | the cell loop of phase 3: each cell integrates its speed before its density |
| Stepping.IntegrateStep | CTM_example6.py:60-69 | phase 3 turns the recorded flows into the chain's conservation law on every entity |
| Stepping.Advance | CTM_example6.py:40-69 | one step of the script's loop on the objects computes exactly `Chain.Step` on their densities, and each entity's `output["den"]` gains exactly its new density |
| Stepping.Simulate | CTM_example6.py:39-69 | `steps` iterations of the loop compute exactly `Chain.Run` from the starting densities, and each `output["den"]` gains the densities of the run, one per step, in order |
| Stepping.AppendedFollows | pyDyFlowNet.py:61-63 | histories whose entry `j` is the density after `j` steps still have that property once the next step's densities are appended |
| Stepping.RecordedFollows | CTM_example6.py:39-69 | started from freshly built entities, after `steps` iterations every `output["den"]` has `steps + 1` entries and entry `j` is the entity's density after `j` steps |
| Chain.Flow | CTM_example6.py:17-18 | a node's flow is at most the upstream sending flow and within the downstream receiving flow, and equals one of them |
| Chain.Step | CTM_example6.py:40-69 | one step keeps the number of cells, and each cell's new density is its clamped conservation update with the flows of its two nodes |
| Chain.Run | CTM_example6.py:39 | any number of steps keeps the number of cells |
| Chain.StepIsConserve | CTM_example6.py:40-69 | a step is the conservation law applied with the minimum-rule node flows |
| Chain.FlowBounds | CTM_example6.py:17-18 | under the capacity contract a node flow is non-negative, at most the upstream sending flow and density, within the downstream receiving flow, and fits the room left downstream |
| Chain.CellUnclamped | pyDyFlowNet.py:3-5 | under the capacity contract a cell's update is exactly density + inflow - outflow and stays in `[0, maxDen]`, so the clamp never fires |
| Chain.StepUnclamped | pyDyFlowNet.py:61-63 | no cell's clamp fires in a step |
| Chain.StepConserves | CTM_example6.py:40-69 | one step keeps every density in range, and the total of source, cells and sink grows by exactly the demand |
| Chain.RunSucc | CTM_example6.py:39 | one more iteration of the loop is one more step at the end of the run |
| Chain.RunInRange | CTM_example6.py:39-69 | any number of steps keeps every density in range |
| Chain.RunUnclamped | CTM_example6.py:39-69 | at every step of a run of an admissible chain from in-range densities with non-negative demand, each cell's new density is exactly the conservation law on its two node flows, so the clamp never fires |
| Chain.RunConserves | CTM_example6.py:39-69 | without demand, any number of steps keeps every density in range and the total unchanged |
| Chain.EmptySourceStaysEmpty | CTM_example6.py:21 | a source with demand 0 and density 0 sends nothing and stays at 0 for a step |
| Chain.EmptySourceStaysEmptyForever | CTM_example6.py:21 | such a source stays at density 0 for any number of steps |
| Chain.InfiniteSinkNeverConstrains | pyDyFlowNet.py:142 | with the default infinite receiving flow, the last node passes the last cell's full sending flow |
| Triangular.ChainConfig | CTM_example7.py:12-22 | the scripts' chain: infinite sink receiving flow, demand 0, maximum density `maxDen` |
| Triangular.Sending | CTM_example7.py:12-13 | the sending flow is at most the free-flow demand `maxV * den` and the capacity `maxQ`, and equals one of them |
| Triangular.Receiving | CTM_example7.py:15-16 | the receiving flow is at most `maxW * (maxDen - den)` and the capacity `maxQ`, and equals one of them |
| Triangular.SendingBranches | CTM_example7.py:12-13 | up to the critical density `maxQ / maxV` the sending flow is `maxV * den`; from there on it is `maxQ` |
| Triangular.ReceivingBranches | CTM_example7.py:15-16 | up to `maxDen - maxQ / maxW` the receiving flow is `maxQ` (50 for `den <= 50` in the second script); from there on it is `maxW * (maxDen - den)` |
| Triangular.SendingBounds | CTM_example7.py:12-13 | for `den >= 0` the sending flow lies in `[0, den]` and is at most `maxQ`, and it is 0 at density 0 |
| Triangular.SendingMonotone | CTM_example7.py:12-13 | the sending flow is non-decreasing in density |
| Triangular.ReceivingBounds | CTM_example7.py:15-16 | within `[0, maxDen]` the receiving flow lies in `[0, maxQ]`, never exceeds the room left (`den + receiving <= maxDen`), and is 0 at `maxDen` |
| Triangular.ReceivingAntitone | CTM_example7.py:15-16 | the receiving flow is non-increasing in density |
| Triangular.DiagramAdmissible | CTM_example7.py:12-16 | a triangular diagram with wave speeds in `(0, 1]` meets the chain's capacity contract |
| Example6.InitialDensities | CTM_example6.py:24-25 | 151 densities from 150 down to 0, evenly spaced by 1 |
| Example6.InitialInRange | CTM_example6.py:24-27 | the initial profile lies in `[0, 150]` |
| Example6.FirstStepFlows | CTM_example6.py:51-58 | first step: the source node and the sink node pass 0, node `k` passes `k` up to node 50, nodes 50-101 pass the capacity 50, and node `k` passes `151 - k` from node 101 on |
| Example6.FirstStep | CTM_example6.py:39-69 | after one step cells 0-49 each lose one vehicle, cells 50-100 keep their density, cells 101-150 each gain one, and source and sink stay at 0 |
| Example6.Outcome | CTM_example6.py:39-69 | after 20 steps every density is in range, the total is unchanged and the source is empty |
| Example6.RunScript | CTM_example6.py:20-69 | the script's densities after its loop are the chain's 20-step run, in range, with the total unchanged and the source empty; every `output["den"]` holds 21 entries, entry `j` being the density after `j` steps |
| Example7.InitialDensities | CTM_example7.py:25-27 | cells 0-49 hold 70 and cells 50-100 hold the jam density 250 |
| Example7.InitialInRange | CTM_example7.py:25-29 | the initial profile lies in `[0, 250]` |
| Example7.FirstStepFlows | CTM_example7.py:53-60 | first step: the source node passes 0, nodes 1-49 pass 45, nothing enters the jam (node 50 onward passes 0), and the sink takes 50 |
| Example7.FirstStep | CTM_example7.py:41-71 | after one step cell 0 holds 25, cells 1-48 hold 70, cell 49 holds 115, cells 50-99 stay jammed, cell 100 holds 200 and the sink 50 |
| Example7.Outcome | CTM_example7.py:41-71 | after 32 steps every density is in range, the total is unchanged and the source is empty |
| Example7.RunScript | CTM_example7.py:21-71 | the script's densities after its loop are the chain's 32-step run, with the outcome above; every `output["den"]` holds 33 entries, entry `j` being the density after `j` steps |
| Example8.BuildInitialDensities | CTM_example8.py:25-28 | after overwriting indices 49, 50 and 51, those cells hold 250 and every other cell holds 25 |
| Example8.InitialInRange | CTM_example8.py:25-30 | the initial profile lies in `[0, 250]` |
| Example8.FirstStepFlows | CTM_example8.py:54-61 | first step: nothing enters the jam (nodes 49-51 pass 0), cell 48's sending flow of 25 is held back, the jam's last cell passes 50, other nodes pass 25 and the source node 0 |
| Example8.FirstStep | CTM_example8.py:42-72 | after one step cell 0 empties, cell 48 holds 50, the jam holds 250, 250, 200, cell 52 holds 50, the rest 25, and the sink 25 |
| Example8.Outcome | CTM_example8.py:42-72 | after 32 steps every density is in range, the total is unchanged and the source is empty |
| Example8.RunScript | CTM_example8.py:21-72 | the script's densities after its loop are the chain's 32-step run, with the outcome above; every `output["den"]` holds 33 entries, entry `j` being the density after `j` steps |

## Left out

- Plotting and figure output in the scripts (CTM_example6.py:71-89, CTM_example7.py:73-93, CTM_example8.py:74-93): visualisation and I/O.
- IEEE floating point: every quantity is an exact `real`. `np.inf` is `ExtReal.Inf`. `np.linspace(150, 0, 151)` is `150 - i`, which is exact for these integers.
- numpy arrays and broadcasting: densities are scalars, so `np.sum(den == 0) == 0` is the scalar test `den != 0`. The in-place `den +=` on a caller's array (pyDyFlowNet.py:4, 18) is a numpy aliasing effect and is not modelled.
- String identifiers (`linkID`, `sourceID`, `sinkID`, `nodeID`): they take no part in the computation.
- `**kwargs` dispatch of the injected functions. A sending or receiving function takes the density as its single argument, a demand function and a sink's receiving function take none.
- The `Link` default `receivingFlowFunc=lambda: np.inf` (pyDyFlowNet.py:23) takes no argument. Called with `den=` as at pyDyFlowNet.py:74, it raises a `TypeError`. In the model a link's receiving function is `real -> Ext` and must be supplied; every script supplies one.
- Fields the engine initialises to `None` are `Option`s. An update that would compute with `None` (a `TypeError` in the engine) has the field being `Some` as its precondition.
- Network.Node.SetOutflows, Network.Node.SetInflows: a result list longer than the entity list makes the engine raise `IndexError` part-way through its writes. The model requires the list to be no longer instead of modelling the partial write.
- Network.Node.UpdateNodeFlow: the distribution function is a partial function. A function that rejects its arguments (an exception in the engine) is excluded by the precondition.
- The chain model (`Chain`) covers what the scripts build: one source, one linear chain of distinct cells and one sink, joined by minimum-rule 1-in-1-out nodes, with every entity of length 1 and time step 1. General lengths, time steps and topologies are modelled only at the level of the `Network` classes.
- Stepping.Advance, Stepping.Simulate: state the densities and the density histories after a step or a run. The speeds and the other histories are stated per phase, by `Integrate`, `EvaluateFlows` and `ResolveNodes`, but not across the whole run.
- Network.Node.SetOutflows, Network.Node.SetInflows: require the node's entities to be distinct. The engine accepts a node that lists one entity twice; the last write wins and that entity gets two history entries. No script builds such a node.
- Network.Link.UpdateDensity, Network.Source.UpdateDensity, Network.Sink.UpdateDensity: require a non-zero length. The engine divides by the length (pyDyFlowNet.py:4); a length of 0 raises `ZeroDivisionError` on Python numbers and gives an infinite or undefined density on numpy values.
- Network.Source.UpdateDemand: the demand function is a pure `() -> real`. A Python demand function that keeps state between calls, and so returns a different value each step, is not modelled; every script's demand is the constant 0.
- Chain.RunConserves, Example6.Outcome, Example7.Outcome, Example8.Outcome: the scripts' sources have demand 0, so conservation over a run is stated for zero demand. For one step, `Chain.StepConserves` states growth by exactly the demand.

Facts about the engine the model follows:

- Phase 3 integrates speed before density, so the speed rule sees the start-of-step density (CTM_example6.py:60-69).
- The speed rule masks the outflow to 0 only inside the computation (pyDyFlowNet.py:8-19). The entity's recorded outflow is not changed.
- The engine checks no configuration: capacity violations are not detected, and the clamp silently applies. Its only failures are Python's own errors, such as `TypeError` on a `None` field, `IndexError` on a too-long result list and division by a zero length; the model excludes these by preconditions, as listed above.
- The sink's update clamps at 0 like every other entity (pyDyFlowNet.py:164-167). For a non-negative inflow it never decreases (`DyFlowNet.SinkDensityNeverDecreases`).
