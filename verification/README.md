# Points-to solving and the call graph, verified

This project models the core of the `trace-analysis` crate: an Andersen-style
points-to solver that propagates differences over a constraint graph, and the
algorithms that read its result. It proves what they compute.

**The solver.** `Rules` states the inference rules as conditions on a pair of
relations, without a worklist, and defines the least solution as what every
solution holds. `Meaning` states them a second time from the tables alone, with
none of the functions the solver computes with, and proves the two equal
(`SolutionIff`). `Kernel`, `Propagation`, `Indices`, `Steps`, `Convergence` and
`Solver` hold the worklist machine: `SolverState` is a class with the fields of
the solver state, and its methods update them as the solver's functions do.
`Analysis.Analyze` is a whole run. Its contract says that

- every fact and call edge a run ever holds lies in every solution of the rules,
  whether it converged or was cut by its budget of pops;
- a run without a budget ends with a drained worklist;
- a drained run satisfies every core rule, although each pop looks only at the
  locations its node gained, as long as no field summary is full;
- on convergence a pointer variable whose address was taken, before the first
  pop or between pops by a callee found to return it, agrees with its memory
  cell, and no address the facts take is missing;
- the constraints added while solving are satisfied too: the addresses and
  stores, and through the core rules the copies that were seeded;
- of the model effects on one pair of arguments the first one, in the order of
  the call edges, decides what was added, a store or a copy;
- nothing was added that no call asks for, and of the arguments only those
  passed for good;
- on convergence, in whatever order nodes were popped, a field access whose base
  points at nothing with a cell for it points at its fallback summary, and the
  formals of every call found hold the addresses assigned to their actuals.

`Analysis.Exact` concludes that, where nothing depends on processing order, a
converged run is the least solution, whatever order nodes and sets came in.

Two rule sets are needed for this. The *core* rules hold in every drained state.
The *full* rules add what the solver does only at the moment a node is popped: a
field access takes over the contents of the cells it designates, falls back to
the summary of its declared type, a parameter that cannot carry callbacks is
wired by a one-time snapshot, and a copy that a return or an alias model adds
passes on what its source gains from then on. Results lie between the least
solutions of the two, and the two coincide for a problem without those parts
(`OrderFree`).

What a resolved call adds is tabulated per call site and callee as a list of
*wires*: argument copies, functions and arrays passed by name, addresses and
variables returned, the effects of a function model on the arguments, namely
aliases, content stores and event objects registered or waited for, and
callback variables to watch. The arguments a model forwards to a callback are
tabulated per handover and function; a watched variable has them wired for the
functions it holds and, at its pops, for those it gains. A returned address is
seeded at whatever time its call is resolved, which is why registering a
variable's cell is proved from any state of the solver.

Two properties one might expect fail; `Limits` has an input for each, as a method
that takes the solver through it and whose contract says what comes out.

- *A copy added without being seeded need not hold in the end.* It owes what its
  source had already propagated when it joined and its destination lacked
  (`JoinUnseeded`). Everything else its source holds in the end arrives
  (`DrainedDelivers`), so in a drained state the copy holds if and only if what
  it owed has reached its destination otherwise (`DrainedSatisfies`).
  In `LateCopyRun`, constructor, seeding and pops lead to a drained state in
  which `x = fp()` lacks what the variable returned by `fp` holds.
- *A content store of a model need not be made.* Aliases and content stores share
  one record of argument pairs done. The store joins if and only if it is the
  first effect on its pair (`FirstDecides` in the contract of `Analyze`);
  `StoreRun` has a model with the same two effects in either order. The core
  rules ask for a content store only where no model aliases the same pair
  (`Rules.Clash`).

The proof has three parts. Soundness is an invariant against one fixed solution
of the full rules. Completeness attaches an obligation to each pair of a
constraint and a location; a step may leave a location unsettled but never
settles one, so obligations about settled locations survive every step, and a
pop discharges exactly those of the locations it takes. Termination uses a
lexicographic measure: missing points-to facts, missing memory facts, callees
not resolved yet, argument pairs not wired yet, length of the worklist.

**Speed-ups kept beside the solver.** `Mirrors` proves that the block-compressed
bit mirrors are exact in every reachable state and that mirrored writes do what
plain ones do. `Holders` proves that the cached view of a location's loading
holders is right although it is keyed on a count only.

**Readers of the result.** `Tarjan` is the iterative strongly-connected-component
search over mutable order, low-link, stack and frame arrays. `CallGraphs`,
`Contexts` and `Callbacks` are the execution-context pass, `CallChains` the
backtracking enumeration of call chains, `ReturnFlows` the recursive expansion
of return flows, `FieldLocs` the synthesis of field locations, `MemoryAccess`
the folding of memory cells, `TemplateArgs` the template-argument scanner and
`CivilDate` the calendar arithmetic.

Types, names and overload resolution enter as tables of the problem: which
cells a field access designates at a location, which functions a location
stands for at a call site, which arguments reach which parameters. Hash sets
are sets; where their iteration order matters, the methods take any order.
Node, location and function numbers are natural numbers; the 64-bit words of
the bit sets are sequences of 64 bits.

One place where the code and its comments differ: a return-flow call is said to
fall back to its function model when the callee has no body, but the code does
so whenever the call's candidates add nothing, for instance because they were
visited before. `ReturnFlows.SecondCallIsModelled` is an input where a callee
with a body that has supplied its fact is modelled as well.
`ReturnFlows.FallbackIff` says exactly when a call gets its model: its name is
modelled and no function its candidates reach, around those visited before, has
a fact of its own or a modelled call. `ReturnFlows.ExpandReturnFlows` adds that, where every modelled
call of a reachable function is one whose candidates have no body, the models
applied are those and no others. The condition is not necessary, and no
condition on which calls there are can be: `ReturnFlows.FlowOrderDecides` has
two functions that return the same two calls in a different order, and only one
of them gets a model.

## Model

| member | source | states |
|---|---|---|
| Analysis.Analyze | crates/trace-analysis/src/solver.rs:909-1575 | every fact, taken address and call edge of a run is in every solution of the full rules, and every constraint added was asked for by a call of these, arguments only where persistent; direct edges come first and each edge found through a pointer once; without a budget the run converges; converged with no full summary, its facts satisfy every core rule and every constraint of the final list that is not a copy, and hold all the core rules derive; converged, every variable whose address was taken at any time agrees with its cell, and every own cell the facts take is among them; converged, a field access points at its fallback unless its base points at something with a cell; converged, formals hold the addresses assigned to their actuals and returned variables are copied from; a store was added for a pair of arguments exactly if the first model effect on it, by order of the edges, is a content store, and a copy if it is an alias; a cut run made exactly as many pops as its budget |
| Analysis.Exact | crates/trace-analysis/src/solver.rs:1102-1575 | for a problem without order-dependent parts a converged run equals the least solution in points-to facts, memory facts and call edges, direct and indirect |
| Analysis.CutIsContained | crates/trace-analysis/src/solver.rs:1102-1119 | a run cut by its budget holds nothing a converged run does not |
| Rules.LeastIsSolution | crates/trace-analysis/src/solver.rs:1159-1297 | the facts common to all solutions are a solution, call effects, event copies, forwarded arguments and cells taken by returned addresses included, so a least one exists |
| Rules.FullIsCore | crates/trace-analysis/src/solver.rs:1299-1437 | full solutions are core solutions, and the same ones when nothing depends on order |
| Meaning.SolutionIff | crates/trace-analysis/src/solver.rs:1159-1575 | the rules, core and full, are what the tables say constraint by constraint, call by call, handover by handover and cell by cell |
| Meaning.SatisfiesIff | crates/trace-analysis/src/solver.rs:1219-1437 | each kind of constraint means its reading on the tables: what it takes from its source and what cells let in or out |
| Meaning.FunctionEnters | crates/trace-analysis/src/solver.rs:573-602 | which functions a cell admits: any without a declared type, none if it is no function pointer, else those of the same arity and those of unknown arity; what is no function always |
| Convergence.DrainedIsSolution | crates/trace-analysis/src/solver.rs:1102-1575 | when the worklist is empty, the facts held satisfy every constraint, seed, resolved call, forwarded argument, event pair and sync rule of the core |
| Convergence.DrainedSatisfies | crates/trace-analysis/src/solver.rs:1802-1869 | in a drained state every constraint of the list is satisfied, given or added while solving, except for copies: one is satisfied if and only if all it owed when it joined is at its destination |
| Convergence.DrainedDelivers | crates/trace-analysis/src/solver.rs:2150-2155 | in a drained state a copy has delivered all its source holds but what it owed when it joined |
| Convergence.DrainedForwards | crates/trace-analysis/src/solver.rs:1558-1574 | in a drained state every function a watched callback variable holds has the arguments forwarded to it |
| Limits.LateCopyRun | crates/trace-analysis/src/solver.rs:1510-1531 | a run from the constructor through seeding and pops: it converges with every invariant, and a returned copy in its list is not satisfied because its source was popped before the call was resolved |
| Limits.StoreRun | crates/trace-analysis/src/solver.rs:1731-1829 | a run on a call whose model aliases its arguments and stores one through the other: the store is in the list, and its effect in memory, if it is the first of the two effects; otherwise it is not in the list |
| Steps.EffectFirst | crates/trace-analysis/src/solver.rs:1738-1804 | the first effect on a pair joins its constraint and decides what later ones on it do; the record of pairs stays exact |
| Steps.EffectAgain | crates/trace-analysis/src/solver.rs:1738-1804 | an effect on a pair that is on record joins nothing, and the record stays exact |
| Steps.FallsKept | crates/trace-analysis/src/solver.rs:1166-1216 | a pop keeps the fallback invariant: each field access has its fallback or a cell, or its base is queued with all it holds pending, untouched if that is nothing |
| Convergence.DrainedTaken | crates/trace-analysis/src/solver.rs:1518-1527 | in a drained state every own cell whose address is taken, also by a callee the facts resolve, is kept in step |
| Convergence.DrainedEvents | crates/trace-analysis/src/solver.rs:1758-1800 | in a drained state all a registered event object holds is in each object waited for |
| Convergence.DrainedActive | crates/trace-analysis/src/solver.rs:1482-1555 | in a drained state every effect of a call the facts resolve is in place, returned copies included |
| Convergence.DrainedSync | crates/trace-analysis/src/solver.rs:2272-2355 | in a drained state a variable whose cell was registered at any time and that cell hold the same admitted values |
| Convergence.DrainedCalled | crates/trace-analysis/src/solver.rs:1465-1500 | in a drained state every function held by a call target is a resolved callee |
| Convergence.DrainedWired | crates/trace-analysis/src/solver.rs:1482-1544 | in a drained state every effect of a call that was wired holds of the facts |
| Convergence.PopProgress | crates/trace-analysis/src/solver.rs:1102-1166 | each pop learns a fact, finds a callee, wires an argument or shortens the worklist, a lexicographic descent |
| Kernel.ClosedAgain | crates/trace-analysis/src/solver.rs:1159-1166 | after a pop has propagated its difference nothing is owed on settled locations |
| Kernel.TakenClosed | crates/trace-analysis/src/solver.rs:1162-1165 | taking a delta opens only the popped node's own obligations |
| Propagation.LoadBatchIsEach | crates/trace-analysis/src/solver.rs:773-803 | a batched load leaves the same points-to sets, delta order, holders, worklist and watermarks as one step per location |
| Propagation.ResumedLift | crates/trace-analysis/src/solver.rs:442-480 | reading a cell on from its recorded length gives the destination all it holds |
| Propagation.CommitOk | crates/trace-analysis/src/solver.rs:860-872 | committing an addition keeps the state well-formed and is a monotone step |
| Propagation.LoadLocsOk | crates/trace-analysis/src/solver.rs:779-803 | a load over held locations stays sound and leaves the destination all they yield |
| Propagation.CellWriteOk | crates/trace-analysis/src/solver.rs:490-520 | writing admitted values keeps the state well-formed and dirties that cell only |
| Indices.BuildIndices | crates/trace-analysis/src/pag.rs:252-316 | each constraint is filed under its key nodes, in order, once, and nothing else is |
| Indices.AddConstraintOk | crates/trace-analysis/src/pag.rs:320-359 | filing one more constraint keeps all indices exact |
| Indices.LoadSrcListed | crates/trace-analysis/src/pag.rs:57-64 | a node has a load filed under it exactly when it is some load's pointer |
| Steps.ViewOf | crates/trace-analysis/src/solver.rs:625-655 | the view for a filter is the source's admitted part, cached or built |
| Steps.GainFrom | crates/trace-analysis/src/solver.rs:457-479 | collects exactly what is past the watermark, admitted and not held, in order |
| Solver.SolverState.constructor | crates/trace-analysis/src/solver.rs:909-943 | the empty state satisfies the invariants against the least solution |
| Solver.SolverState.Push | crates/trace-analysis/src/solver.rs:671-675 | a node is queued once |
| Solver.SolverState.RecordDelta | crates/trace-analysis/src/solver.rs:702-728 | new locations join the delta in order, each once per pending cycle |
| Solver.SolverState.CommitFresh | crates/trace-analysis/src/solver.rs:860-872 | holders, delta, pending guard and worklist all follow an addition |
| Solver.SolverState.PropagateLocs | crates/trace-analysis/src/solver.rs:1918-1943 | the destination gains exactly the locations given, in one quiet sound step |
| Solver.SolverState.AddPts | crates/trace-analysis/src/solver.rs:2464-2475 | one location is added and recorded; when it is held already the state does not change |
| Solver.SolverState.MergeMemory | crates/trace-analysis/src/solver.rs:730-748 | afterwards the destination holds all admitted contents of the cell, and nothing else was gained |
| Solver.SolverState.LoadInto | crates/trace-analysis/src/solver.rs:773-803 | equals the batched load, which equals one step per location; every location's contribution has arrived |
| Solver.SolverState.Loading | crates/trace-analysis/src/solver.rs:202-218 | exactly the holders that are load sources |
| Solver.SolverState.TouchLocHolders | crates/trace-analysis/src/solver.rs:677-700 | every loader that holds the location has it pending again, and no fact changes |
| Solver.SolverState.WriteMemory | crates/trace-analysis/src/solver.rs:490-520 | the cell is extended in order by what it lacks, and reports growth exactly |
| Solver.SolverState.WriteToCell | crates/trace-analysis/src/solver.rs:2302-2333 | the cell gains exactly the admitted locations; if it grew its loaders look again |
| Solver.SolverState.SyncVarToCell | crates/trace-analysis/src/solver.rs:2335-2347 | what a synced variable gained and its cell admits is in the cell |
| Solver.SolverState.SyncCellToVar | crates/trace-analysis/src/solver.rs:2349-2355 | the owner holds all its cell's admitted contents |
| Solver.SolverState.WriteSummary | crates/trace-analysis/src/solver.rs:2075-2106 | a summary takes the values once per store; one that holds 1024 locations, or was written in this store, stays as it is |
| Solver.SolverState.WriteTarget | crates/trace-analysis/src/solver.rs:2046-2115 | one target takes every admitted value and the stored object's own address, itself and through its summary |
| Solver.SolverState.RequeueGrown | crates/trace-analysis/src/solver.rs:2117-2127 | after it no grown cell is missed by a loader or its own variable |
| Solver.SolverState.StoreThrough | crates/trace-analysis/src/solver.rs:2028-2128 | all targets hold all values, and everyone who must know is queued |
| Solver.SolverState.ApplyStoreToTargets | crates/trace-analysis/src/solver.rs:1975-2128 | a store over chosen targets and values settles exactly those pairs |
| Solver.SolverState.PointGepAt | crates/trace-analysis/src/solver.rs:750-771 | the destination points at the cells and holds their contents, and gains nothing else |
| Solver.SolverState.GepStep | crates/trace-analysis/src/solver.rs:1299-1437 | each new base location's cells and function values reach the destination with the cells' contents; the fallback summary does exactly if none yields a cell; nothing else is gained |
| Solver.SolverState.DlsymStep | crates/trace-analysis/src/solver.rs:1440-1463 | every new location brings the functions it names as a string literal, and nothing unsound |
| Solver.SolverState.FlowStep | crates/trace-analysis/src/solver.rs:1219-1238 | a flow constraint passes on exactly what it should of the new locations, a field access with the contents of its cells or its fallback |
| Solver.SolverState.FlowAll | crates/trace-analysis/src/solver.rs:1219-1238 | every constraint filed under the node has passed on its new locations, every field access with all it does |
| Solver.SolverState.FieldPhase | crates/trace-analysis/src/solver.rs:1299-1464 | every field access and name lookup through the node is done, contents and fallbacks included |
| Solver.SolverState.LoadAll | crates/trace-analysis/src/solver.rs:1249-1254 | every load through the node has read its new locations |
| Solver.SolverState.StoreDstAll | crates/trace-analysis/src/solver.rs:1256-1273 | every store through the node has written its whole value into the new targets |
| Solver.SolverState.StoreSrcAll | crates/trace-analysis/src/solver.rs:1275-1296 | every store of the node has written the new values into all its targets |
| Solver.SolverState.AddrOfAll | crates/trace-analysis/src/solver.rs:1240-1247 | every address assigned to the node is held, those added while solving included |
| Solver.SolverState.FirstTouch | crates/trace-analysis/src/solver.rs:1166-1216 | once per node: its addresses and the fallback summaries of its field accesses are in place; nothing on a later touch |
| Solver.SolverState.EnsureParamCopy | crates/trace-analysis/src/solver.rs:2130-2156 | one copy joins the constraints, the indices stay exact, and its source is queued if it holds anything |
| Solver.SolverState.AddToList | crates/trace-analysis/src/pag.rs:320-359 | one sound constraint joins the list and the indices, and no fact changes |
| Solver.SolverState.JoinSeeded | crates/trace-analysis/src/solver.rs:1848-1869 | the copy joins and the destination has all its source holds, so it owes nothing |
| Solver.SolverState.JoinUnseeded | crates/trace-analysis/src/pag.rs:917-921 | the copy joins without delivering; what it owes is exactly what its source has settled and its destination lacks |
| Solver.SolverState.WireAlias | crates/trace-analysis/src/solver.rs:1731-1757 | an alias or memory copy joins if it is the first effect on its pair of arguments, and is recorded in any case |
| Solver.SolverState.WireContent | crates/trace-analysis/src/solver.rs:1802-1829 | a content store joins, and has written all both sides hold, if it is the first effect on its pair of arguments; otherwise it adds nothing |
| Solver.SolverState.WireEvent | crates/trace-analysis/src/solver.rs:1758-1800 | an event object is recorded once, in order, and joined by a seeded copy to every object on the other side |
| Solver.SolverState.WireReturned | crates/trace-analysis/src/solver.rs:1518-1527 | an address returned by a callee found while solving joins, is held by its destination, and its cell is kept in step |
| Solver.SolverState.WireQueue | crates/trace-analysis/src/solver.rs:1528-1531 | the node is on the worklist |
| Solver.SolverState.WirePassed | crates/trace-analysis/src/solver.rs:2450-2459 | a function or array passed by name is held by the formal |
| Solver.SolverState.ForwardTo | crates/trace-analysis/src/solver.rs:2826-2868 | all the arguments of a handover are wired into the formals of one function, which hold what the actuals held, in a step that queues nothing unless it learnt something |
| Solver.SolverState.WireWatch | crates/trace-analysis/src/solver.rs:2800-2822 | a callback variable is watched once per handover, and the functions it holds by then have their arguments |
| Solver.SolverState.ForwardGained | crates/trace-analysis/src/solver.rs:1558-1574 | each handover watching the popped node has served the functions it gained |
| Solver.SolverState.WireParam | crates/trace-analysis/src/solver.rs:2422-2449 | all the actual holds now is in the formal, and a persistent pair is copied once, for good and seeded |
| Solver.SolverState.WireCall | crates/trace-analysis/src/solver.rs:1482-1555 | every effect of the call is in place: formals hold what their actuals held, nodes to requeue are queued, each constraint it added is met or recorded as owing, and its model effects are logged in order |
| Solver.SolverState.ResolveOne | crates/trace-analysis/src/solver.rs:1482-1555 | a new callee gets one edge, at the end, and all its effects, at once where they are immediate |
| Solver.SolverState.ResolveSite | crates/trace-analysis/src/solver.rs:1466-1555 | every function among the new locations is a callee of the site |
| Solver.SolverState.ResolveCalls | crates/trace-analysis/src/solver.rs:1465-1555 | the same for every site whose target is the node, with every added constraint met or recorded as owing |
| Solver.SolverState.TakeDelta | crates/trace-analysis/src/solver.rs:1162-1165 | the delta is taken whole and leaves the pending guard exact |
| Solver.SolverState.Process | crates/trace-analysis/src/solver.rs:1217-1575 | after it no obligation on a settled location is open, and every field access through the node has taken over the contents of the cells its new locations yield or, where there is none, fallen back; nothing changes for a node nothing is filed under, that is not watched and has no calls |
| Solver.SolverState.Turn | crates/trace-analysis/src/solver.rs:1159-1575 | one turn restores the loop invariant and queues nothing unless it learnt something; the field accesses through the node are applied to its new locations, or on its first touch without any fall back; a later touch changes nothing |
| Solver.SolverState.Pop | crates/trace-analysis/src/solver.rs:1102-1166 | the last node of the worklist is taken and processed: the loop invariant holds again, the field accesses through the node are applied and the measure has decreased; with nothing pending only the queue changes unless a field access goes through the node |
| Solver.SolverState.Run | crates/trace-analysis/src/solver.rs:1102-1575 | ends drained or after exactly the budgeted pops; facts stay below every solution throughout, every taken address is one the rules take, every constraint added was asked for, and the model effects applied are those of the edges in order |
| Solver.SolverState.QueueAll | crates/trace-analysis/src/solver.rs:945-948 | both ends of every constraint are queued before the first pop, destination first, in order, each once |
| Solver.SolverState.RegisterSyncedCell | crates/trace-analysis/src/solver.rs:2269-2300 | at any time, whatever the variable and its cell hold when the address is taken reaches the other side; the cell is extended by the variable's admitted locations in ascending order, and both maps gain exactly that pair |
| Solver.SolverState.TakeAddress | crates/trace-analysis/src/solver.rs:2230-2237 | at any time, the first taking of an address marks it and keeps a pointer variable's own cell in step |
| Solver.SolverState.SeedAddrOf | crates/trace-analysis/src/solver.rs:2207-2239 | at any time, the destination points at the object, whose address then counts as taken |
| Solver.SolverState.SeedStatics | crates/trace-analysis/src/solver.rs:975-983 | every listed static holds its own location |
| Solver.SolverState.SeedCalls | crates/trace-analysis/src/solver.rs:990-1057 | every direct call's arguments, model effects and forwarded arguments are in place, its model effects logged in order |
| Solver.SolverState.SeedAddresses | crates/trace-analysis/src/solver.rs:950-968 | every address of the program is taken and held by its destination; without variable cells the sets hold just these and the queue is unchanged |
| Solver.SolverState.Seed | crates/trace-analysis/src/solver.rs:945-1057 | the loop invariant holds before the first pop; a program with addresses only starts with exactly its addresses and its nodes queued in order |
| Mirrors.SetOk | crates/trace-analysis/src/solver.rs:371-404 | setting one number's bit sets that bit and no other, through the block directory |
| Mirrors.SetLocOk | crates/trace-analysis/src/solver.rs:330-341 | numbering and setting a location adds it to this mirror and changes no answer of any mirror sharing the numbering |
| Mirrors.MirrorOf | crates/trace-analysis/src/solver.rs:343-350 | a fresh mirror has exactly the bits of its set |
| Mirrors.WriteMirrored | crates/trace-analysis/src/solver.rs:501-509 | the mirrored write path equals plain ordered insertion and keeps the mirror exact |
| Mirrors.Collect | crates/trace-analysis/src/solver.rs:463-479 | testing a mirror from before the step, then the set, collects what the set alone would |
| Mirrors.MirroredSets.constructor | crates/trace-analysis/src/solver.rs:286-291 | empty sets without mirrors are in step |
| Mirrors.MirroredSets.WriteMemory | crates/trace-analysis/src/solver.rs:490-520 | mirrored or not, the cell ends as a plain ordered set; afterwards exactly the sets of 64 or more have mirrors, all exact |
| Mirrors.MirroredSets.Merge | crates/trace-analysis/src/solver.rs:442-480 | a run of merges against a stale mirror adds what plain sets would, and the mirror is exact again |
| Mirrors.MirroredSets.MirrorPts | crates/trace-analysis/src/solver.rs:842-858 | the mirror follows an addition, or is made once the set is large |
| Holders.CountDecides | crates/trace-analysis/src/solver.rs:184-219 | as load sources only grow, an equal count means the cached view is right |
| Holders.SetBitOk | crates/trace-analysis/src/pag.rs:46-55 | setting a node's bit answers yes for it and leaves other nodes alone |
| Holders.HolderIndex.constructor | crates/trace-analysis/src/solver.rs:188-193 | the empty index is valid |
| Holders.HolderIndex.AddLoad | crates/trace-analysis/src/pag.rs:47-55 | the load is filed and its bit set together; cached views stay explainable |
| Holders.HolderIndex.Insert | crates/trace-analysis/src/solver.rs:196-200 | a new holder joins and drops the cached view, whatever order the set then has; a known one changes nothing |
| Holders.HolderIndex.IsLoadSrc | crates/trace-analysis/src/pag.rs:57-64 | the bit answers map membership |
| Holders.HolderIndex.Loading | crates/trace-analysis/src/solver.rs:202-218 | always the holders that are load sources, in set order |
| Tarjan.StronglyConnectedComponents | crates/trace-analysis/src/contexts.rs:340-399 | same component exactly when each reaches the other; every node numbered; ids dense and never larger along an edge |
| Tarjan.PopComponent | crates/trace-analysis/src/contexts.rs:386-395 | pops exactly the stack from the root up, all into one component |
| CallGraphs.CallGraph.constructor | crates/trace-analysis/src/contexts.rs:267-289 | both graphs hold each caller-callee pair once and nothing else; exactly the functions of the edges are numbered |
| CallGraphs.CallGraph.Node | crates/trace-analysis/src/contexts.rs:291-299 | a function gets the next number on first appearance and keeps it |
| CallGraphs.CallGraph.Cyclic | crates/trace-analysis/src/contexts.rs:305-318 | a node is marked exactly when a nonempty walk of ordinary calls leads back to it |
| CallGraphs.CallGraph.ReachableFrom | crates/trace-analysis/src/contexts.rs:320-337 | a node is marked exactly when some numbered root reaches it over call edges |
| CallGraphs.CyclicIff | crates/trace-analysis/src/contexts.rs:307-317 | a component of several nodes or a self call is the same as lying on a cycle |
| CallGraphs.CycleOfCalls | crates/trace-analysis/src/contexts.rs:179-186 | ordinary calls lead from a function back to it exactly if some cycle of edges through it has neither an IPC bridge nor the start of a context |
| CallGraphs.Search | crates/trace-analysis/src/contexts.rs:322-337 | the worklist search marks exactly what the roots reach |
| Contexts.InvocationRowsCorrect | crates/trace-analysis/src/contexts.rs:170-172 | rows are the invocations given, strictly ordered by site, callee, parameter, receiver, entry, spelling of the kind and model |
| Contexts.EntryRowsCorrect | crates/trace-analysis/src/contexts.rs:173-174 | rows are the entries given, strictly ordered by function, spelling of the kind and model |
| Contexts.RowsCanonical | crates/trace-analysis/src/contexts.rs:170-174 | rows depend only on which invocations and entries there are |
| Contexts.RankSpelled | crates/trace-analysis/src/summaries.rs:67-104 | the order of the kinds is that of their spellings |
| Contexts.Classify | crates/trace-analysis/src/contexts.rs:187-228 | one context per row with its fields and own evidence: loop before cycle, cycle exactly when the submitter lies on one of ordinary calls, self-concurrent for request handlers and with either evidence; then one per entry without evidence |
| Contexts.MarkParents | crates/trace-analysis/src/contexts.rs:230-256 | one pass promotes exactly the contexts without evidence whose submitter is reached |
| Contexts.ExecutionContexts | crates/trace-analysis/src/contexts.rs:161-257 | one context per row with the row's fields: Loop exactly if the site is in a loop, Cycle exactly if it is not and the submitter calls itself over edges that are no IPC bridge and start no context, entries without start or evidence; self-concurrent exactly for request handlers and contexts with evidence; with submitter edges present, Parent exactly if there is no other evidence and a self-concurrent context leads to the submitter |
| Contexts.OnePassSettles | crates/trace-analysis/src/contexts.rs:230-255 | with submitter-to-entry edges, a context is Parent exactly when its submitter is reachable from a context that ends up self-concurrent |
| Contexts.OnePassLeast | crates/trace-analysis/src/contexts.rs:230-255 | every settled marking contains the one computed |
| Callbacks.CallbackEdges | crates/trace-analysis/src/solver.rs:2874-2940 | an invocation is recorded exactly if some edge, effect of its callee and target give its site, callee, parameter, receiver, entry, kind and model; an edge is added exactly for the site and callback pairs the call graph lacks, once, by site and callee |
| Callbacks.CallbacksLinked | crates/trace-analysis/src/solver.rs:2921-2933 | the submitter-to-entry edges are then in the call graph |
| Callbacks.ProgramContexts | crates/trace-analysis/src/solver.rs:1577-1640 | from resolved call edges to contexts with the evidence of their rows; one pass settles every parent |
| CallChains.FindCallChains | crates/trace-analysis/src/callgraph.rs:28-118 | every chain of at most `max_depth` edges with distinct interior, once and nothing else, with the empty chain when the ends coincide; shorter ones first, then the one that enters the smaller function where they part, then the one with the earlier edge |
| CallChains.Search.Dfs | crates/trace-analysis/src/callgraph.rs:54-96 | appends exactly the chains beyond the current trail in order and restores path and active set |
| CallChains.Search.constructor | crates/trace-analysis/src/callgraph.rs:36-51 | starts with the empty chain exactly when the ends coincide |
| CallChains.BuildAdjacency | crates/trace-analysis/src/callgraph.rs:44-47 | each function's outgoing edges in list order |
| ReturnFlows.ExpandReturnFlows | crates/trace-analysis/src/pag.rs:886-958 | visits exactly the functions reachable through return calls, once each; addresses of located variables and functions and copies are added exactly as often as these functions return them; a model for each leaf call, exactly those when every modelled call is a leaf; models only from modelled calls, bound to the first candidate with parameters; applied exactly when a fact was added |
| ReturnFlows.Expansion.Expand | crates/trace-analysis/src/pag.rs:886-958 | from any visited set: visits and facts are those of the specified walk, and applied says whether it has any fact |
| ReturnFlows.Expansion.ExpandFlow | crates/trace-analysis/src/pag.rs:900-951 | a call adds its candidates' facts, or when there are none its model if it has one; any other flow its own fact |
| ReturnFlows.Expansion.ExpandCandidates | crates/trace-analysis/src/pag.rs:925-930 | the candidates are walked in order, sharing the visited set |
| ReturnFlows.FindWithParams | crates/trace-analysis/src/pag.rs:937-940 | the first candidate whose parameters are known, none exactly if there is no such |
| ReturnFlows.WalkOk | crates/trace-analysis/src/pag.rs:886-958 | from any visited set a walk's new visits are distinct, closed under return calls and reached from the callee; its facts are their direct facts, their leaf models and no others if all modelled calls are leaves; it has none exactly when none of them has a fact or a modelled call |
| ReturnFlows.NewlyVisited | crates/trace-analysis/src/pag.rs:894-896 | a walk newly visits exactly the functions reached by return calls that keep clear of those visited before |
| ReturnFlows.FallbackIff | crates/trace-analysis/src/pag.rs:931-946 | a modelled call gets its model exactly when every function its candidates reach around those visited before has neither a fact nor a modelled call |
| ReturnFlows.SecondCallIsModelled | crates/trace-analysis/src/pag.rs:931-946 | an input where a callee with a body, visited before, is modelled all the same |
| ReturnFlows.FlowOrderDecides | crates/trace-analysis/src/pag.rs:900-946 | the same two calls in either order: one order applies the model, the other does not |
| FieldLocs.FieldTable.constructor | crates/trace-analysis/src/pag.rs:71-98 | initial locations alone satisfy the invariant |
| FieldLocs.FieldTable.EnsureFieldLoc | crates/trace-analysis/src/pag.rs:428-467 | one location per parent and field, depth one more than the parent's and at most 4, with its summary recorded; a new one has the member's type and the parent's variable, function and link image; beyond the cap the summary of the declared member in the parent's link image; none exactly when the parent has no such field |
| FieldLocs.FieldTable.AllocFieldLoc | crates/trace-analysis/src/pag.rs:397-426 | the new location's kind, depth, storage and link image; a repeated request returns the existing location and changes nothing |
| FieldLocs.FieldTable.EnsureFieldSummaryLoc | crates/trace-analysis/src/pag.rs:469-520 | one summary per declared member and link image |
| FieldLocs.FieldLocsBounded | crates/trace-analysis/src/pag.rs:67-69 | after any requests the locations stay below a bound in the initial locations and the program's types |
| MemoryAccess.CollectCells | crates/trace-analysis/src/memory.rs:86-131 | at most 16 ascending cells; with the early exit the outcome is that of the full computation |
| MemoryAccess.TooWide | crates/trace-analysis/src/memory.rs:94-113 | more than 16 cells that cannot fold means none are kept, whatever else is there |
| MemoryAccess.FoldCells | crates/trace-analysis/src/memory.rs:117-123 | every field cell with a summary is replaced by it, others stay |
| MemoryAccess.LoadMeetsStore | crates/trace-analysis/src/memory.rs:26-41 | a recorded load with its fields' summaries shares a recorded cell with every recorded store that can touch one of its cells |
| MemoryAccess.MemoryAccesses | crates/trace-analysis/src/memory.rs:42-84 | per load the memory its source points at, per store that of its destination with the summaries of field cells, for field pointers what they designate: up to 16 cells are listed, more only if folding leaves at most 16, else one row without a cell; rows by constraint and location, each once, and none for other constraints |
| TemplateArgs.RemoteInterfaceArgument | crates/trace-analysis/src/ipc.rs:746-773 | returns exactly the trimmed first argument, when there is one and the name matches |
| TemplateArgs.TrimCut | crates/trace-analysis/src/ipc.rs:771 | trimming cuts white space off both ends, and all of it |
| TemplateArgs.ScanArgument | crates/trace-analysis/src/ipc.rs:754-770 | finds the one position that ends a well-nested argument, or that there is none |
| TemplateArgs.ArgumentRecovered | crates/trace-analysis/src/ipc.rs:739-747 | any well-nested argument without a top-level comma comes back trimmed, whatever follows |
| TemplateArgs.WrapperRecovered | crates/trace-analysis/src/ipc.rs:739-752 | the same for every plain or qualified wrapper name |
| TemplateArgs.RemoteInterfaceCandidates | crates/trace-analysis/src/ipc.rs:775-803 | distinct candidates, one per prefix of the nonempty scope segments from the innermost outward; the global name alone after a leading separator |
| TemplateArgs.JoinSplit | crates/trace-analysis/src/ipc.rs:787-790 | joining the segments gives the scope back |
| TemplateArgs.SplitPieces | crates/trace-analysis/src/ipc.rs:787-788 | every piece ends at the first separator after its start, the last at none |
| TemplateArgs.Segments | crates/trace-analysis/src/ipc.rs:787-790 | the nonempty segments and nothing else, in their order |
| TemplateArgs.LastSegmentCut | crates/trace-analysis/src/ipc.rs:750 | what stands before the last segment ends in a separator or is nothing, and the segment has none |
| CivilDate.CivilValid | crates/trace-cli/build_support.rs:47-61 | every day number gives a date of the Gregorian calendar |
| CivilDate.CivilEpoch | crates/trace-cli/build_support.rs:47-61 | day 0 is 1970-01-01 |
| CivilDate.CivilNext | crates/trace-cli/build_support.rs:48-61 | the next day number is the calendar's next date |
| CivilDate.CivilBijective | crates/trace-cli/build_support.rs:48-61 | each date of the calendar belongs to exactly one day number |
| CivilDate.OverflowIff | crates/trace-cli/build_support.rs:49-60 | of all values the conversion computes, none leaves 64 bits if and only if the day number is at most 2^63 - 1 - 719468 |
| CivilDate.LastDayOverflows | crates/trace-cli/build_support.rs:49 | the largest 64-bit day number overflows |

## Left out

- Completeness for field accesses, one-time parameter snapshots and unseeded copies: the solver lifts a field cell's contents and takes a snapshot only when the node is popped, and a copy added by a return or an alias passes on later gains only, so no order-independent completeness holds for them; they are in the full rules only.
- Full summaries: stores into a summary of 1024 locations are dropped, so completeness is stated for runs that end with no full summary; soundness and cell agreement need no such condition.
- Which constraints a resolved call or a forwarded argument adds: each call site and callee, and each handover and function, comes with its list; `ReturnFlows` models the expansion of return flows separately.
- Locations created while solving, with their slot guards: the tables list all locations beforehand; `FieldLocs` models the synthesis of field locations separately.
- Bit mirrors and holder caches inside the solver class: they are modelled beside it, on sets and sequences.
- Terminator events and the rows of argument flow, which no rule reads.
- Designated cells of field pointers while solving: `MemoryAccess` takes them as input.
- Time budgets, environment overrides, statistics and messages.
- Solver.SolverState.WireWatch: takes the functions a variable holds in any order, where the source sorts them first.
- TemplateArgs.ScanArgument: nesting depth is unbounded, where the source counts in 32 bits.
- Mirrors.SetOk: block indices are unbounded, where the source stores them in 32 bits.
- Name, type and overload resolution, proxy and stub pairing, model files, the C interface and the database export.
