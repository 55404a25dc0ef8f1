# Model of the engine, the guards, the types and the streams

A Dafny model of the parts of the repository where many things may happen in many orders, or where one form has to mean
what another form means. Each part has a small reference meaning, and what the code does is proved to agree with it over
all inputs, all runs and all interleavings.

- **The kernel** (`KernelSpec`, `Plan`, `Kernel`, `Run`, `MapPool`). A spec is a set of calls, switches and maps. A state
  holds every node's report, the values, what is in flight and how the run ended. A step starts everything ready, lands
  one handler, settles one node, or is an abort. The reference (`Fate`) is a single evaluation of the acyclic spec in
  dependency order: what becomes of a node is a function of what becomes of those it waits for. `Agreement`, `Steps` and
  `RunLaws` prove an invariant between the two for every step; `Confluence` and `Meaning` draw from it that every run
  reports what the spec means; `Endings`, `Verdict`, `Overrun` say how runs end; `Replay` what supplying answers does.
  `Run` is the scheduler itself, a class whose methods update its fields, proved to take exactly these steps. What the
  kernel and the reference share -- what a node waits for, where a switch routes, what an element of a map comes to -- is
  pinned to the fields a node is written with by `ReadLaws`, `NodeLaws` and, over runs, `StartLaws`.
- **Guard lowering** (`Guard*`). The rewriting of a spec that puts a switch, an identity call and refusals at each
  unproved site, in place (`GuardAll`), with the kernel's meaning as its own: preserved exactly when no guard trips.
  Made sites of one value and of a list, the nested spec an element of a list runs through, and taken sites, whose reads
  of `in` are renamed, are each covered, and `GuardMixed` states the law of every guard of a graph together, of both
  kinds and in whatever order they are written.
- **Types against values** (`Types`, `Assign`, `Unify`, `Values`, `TypeLaws`, `Lowering`, `DocLaws`). The static
  judgements -- assignability, trimmed assignability, unification, reading a path through a type, typing an authored
  value -- against what happens at run time: conformance, pruning, reading a path, reading a lowered source. Lowering an
  authored value keeps what it means where it is written.
- **Redaction** (`Redact`). What a report shows, as exact noninterference, and the walk that finds a type's secret paths.
- **Reach** (`Reach`). Two depth-first walks of a call relation that may turn back on itself, equal to a least closure.
- **Streams** (`Multipart`, `Csv`). Readers fed in pieces: cutting is invisible, and what is written is read back.
- **Small protocols** (`Throttle`, `Attempts`, `Atomic`). The pacing gate, the retry loop and the transaction scope.

Handlers, predicates and rules are total functions of what they are given (a handler also of where it runs); clocks,
endings of tries and the order in which things land are arbitrary parameters. JSON values are inductive, with an absent
value as an absent option.

`dafny verify dfyconfig.toml` checks all of it.

## Where the code and what is said of it differ

- `kernel.ts:53-63` says a node that failed after the run had ended is not the one named. A refusal is named whenever it
  came: `LateRefusal.RefusalOverridesFault` is such a run, `Verdicts.FirstIsNamed` the exact condition.
- `run.ts:100-104` draws a batch up once. A switch in it may end the run as it routes, and the rest of the batch, by then
  cancelled, starts all the same: `LateStart.StartsAfterEnding` is such a run, `Overrun.LastStartsLate` the exact
  condition. "No node starts after an ending" therefore holds of steps, not within a batch.
- A switch's value is the id it routed to, which the checker types as text like any other (`graph-reads.ts:141`), so a
  switch that chose a guarded node answers another text than before (`GuardLaws.EveryValueStands`) and a graph that reads
  it or answers with it may answer otherwise although every rule holds: `GuardRead.NameIsRead` is such a graph. That no
  switch that chose the guarded node is read or a candidate (`GuardFates.Clear`) is what the theorems ask instead; one
  that is read but went elsewhere is within them.
- `guard-lowering.ts:67-72` sends a switch's targets after the moved node, but not the keys of its `catch`. A fault of the
  guarded node that was caught is caught no more: `GuardCatch.CatchIsLost` is such a spec, `GuardLaws.GuardPreservesExactly`
  the exact condition. The repository knows it: `checkUnguarded` in `graph-nodes.ts` refuses exactly these graphs (G025),
  so the rewriting meets one only past that refusal.
- `assign.ts:36` says the narrower of two types wins a variable. The wider is kept (`Unification.BindVarBinds`).
- `assign.ts:49-60` reads neither whether a required field is given as required, nor further fields, nor what an open
  object admits, once the pattern has a variable: `Unification.OptionalFeedsRequired`, exactly `Unification.BoundFitsExactly`.
- Assignability reads neither a list's `max` nor, at run time, the mark of a literal `[]`
  (`Assign.AssignableIgnoresBounds`), and answers that the type of a type reference does not feed itself, so the identity
  shortcut is not merely a shortcut (`Assign.ShortcutAgrees`).
- Assignability refuses to let a blob feed an object though each of its handles is one, and an empty enumeration feed what
  it has no value to break (`Assign.RefusedWithoutCause`); of other types it refuses nothing without cause
  (`Assign.AssignableIsExact`).
- The run-time check of a blob's handle does not look at its `filename` (`ValueTypes.FilenameIsUnchecked`, exactly
  `ValueTypes.TypedAtEveryPath`), and a literal list of unlike objects is told a type it is not of
  (`ValueTypes.MixedObjectsAreMistyped`, exactly `ValueTypes.UniformIsExact`).
- After the closing boundary of a multipart body the walk stays among the headers, so a blank line in what follows is read
  as one more part, if it comes in a later chunk (`Multipart.CuttingIsInvisible`).
- An empty CSV row is written as an empty line and read back as a row of one empty cell (`Csv.RoundTrip`).
- A map with a concurrency of 0 answers an empty list whatever it is over (`MapPool.NoWorkersNoSteps`).
- A fractional `perSecond` is rounded up (`Throttling.WholePaceIsKept`), and one of 0 makes the wait no number, after
  which a request asks again for ever (`Throttling.NeverTooFast`).
- A seeded switch stalls its targets (`Replay.SeededSwitchStalls`).

## Model

| member | source | states |
|---|---|---|
| Json.WalkPath | packages/engine/src/sources.ts:40-52 | The loop with one cursor finds the value a path leads to, and nothing from the step where the path leaves the value on |
| Json.ReadPathConcat | packages/engine/src/sources.ts:40-52 | Reading a path in two halves is reading it whole, so a resolver's path and what is read below it may be joined when a value is lowered |
| Sources.ReadEach | packages/engine/src/sources.ts:84-95 | The loop writes down each named source that yields something and leaves out the rest, in whatever order the names come |
| Sources.CollectRefs | packages/engine/src/sources.ts:20-24 | The walk that adds to the set it was handed adds exactly the roots the source reads, and keeps what was there |
| Sources.ReadDependsOnRefs | packages/engine/src/sources.ts:20-24 | The roots `refsOf` lists are all a source can see: any two tables of values that agree on them are read alike |
| ReadLaws.PathsAre | packages/engine/src/sources.ts:97-102 | The paths listed for `needs` are those of the reads written anywhere in a source, none missed and none made up |
| ReadLaws.RefsAre | packages/engine/src/sources.ts:20-24 | So are the roots: a root is listed if and only if some read of it is written in the source |
| ReadLaws.TextReadsInOrder | packages/engine/src/sources.ts:77-81 | Text with sources in it reads front to back: reading two stretches is reading the one and then the other, and literal text is itself |
| ReadLaws.HoleReadsAsText | packages/engine/src/sources.ts:77-81 | A source put into text is its value as text, and nothing where that is missing or null |
| ReadLaws.ListReadsInOrder | packages/engine/src/sources.ts:73-73 | A list reads member by member in order, a member that yields nothing left out |
| ReadLaws.ValueIsText | packages/engine/src/sources.ts:77-81 | A value as text is what `String` writes: a list's members between commas, nulls in it as nothing |
| KernelSpec.RouterIn | packages/engine/src/plan.ts:31-36 | The switch recorded for a node does name it as a target, and none is recorded exactly when no switch does |
| KernelSpec.RouterIsUnique | packages/engine/src/plan.ts:31-36 | Where a node is a target of at most one switch, the last-written-wins table holds that switch |
| KernelSpec.DependentsIn | packages/engine/src/plan.ts:56-66 | A node's dependents are exactly the nodes whose waits hold it |
| KernelSpec.RouteIsTarget | packages/engine/src/run.ts:246-259 | By a caught fault, a rule or the fallback, a switch only ever routes to one of the targets the plan knows |
| KernelSpec.NodeOutcomeDependsOnRefs | packages/engine/src/sources.ts:33-37 | What a call or a whole map comes to depends on nothing but the roots it reads |
| KernelSpec.RouteDependsOnRefs | packages/engine/src/run.ts:246-253 | Where a switch routes depends on nothing but the roots it reads and the faults it caught |
| NodeLaws.RoutesToExactly | packages/engine/src/plan.ts:18-20 | A switch names as a target what a rule sends to, its fallback, and what a caught fault goes to, and nothing else |
| NodeLaws.WaitsForExactly | packages/engine/src/plan.ts:46-53 | Of the fields written: a node waits for what it reads and, a call or a map, for what `after` lists, roots apart; for its router; and a switch for the keys of its `catch`; and for nothing else |
| NodeLaws.CaughtRouteIsFirst | packages/engine/src/run.ts:255-259 | Of the faults a switch caught, the first written in its `catch` is the one routed |
| NodeLaws.RuleRouteIsFirst | packages/engine/src/run.ts:249-249 | Of the rules that hold, the first written is the one taken |
| NodeLaws.RouteIsFirst | packages/engine/src/run.ts:246-259 | A switch routes by the first fault it caught whatever its rules say; catching none, by the first rule that holds; none holding, to its fallback |
| NodeLaws.CallComes | packages/engine/src/run.ts:265-275 | A call hands its handler exactly the inputs whose sources yield something, each what its source reads, at its own path; without a handler it is a fault |
| Plans.RoutersOf | packages/engine/src/plan.ts:32-36 | The map filled in the loop answers, for every id, the switch that routes it |
| Plans.CatchersOf | packages/engine/src/plan.ts:23-28 | The map filled in the loop answers, for every id, the switch whose `catch` names it |
| Plans.Waits | packages/engine/src/plan.ts:46-53 | The set built up holds the existing nodes read or named, the routing switch, and for a switch what it catches |
| Plans.AddTo | packages/engine/src/plan.ts:59-63 | One node added: it is put last among the dependents of each node it waits for, and nobody else's dependents change |
| Plans.Invert | packages/engine/src/plan.ts:56-66 | The reverse table lists every node's dependents in the order the spec writes them |
| Plans.PlanOf | packages/engine/src/plan.ts:31-40 | All four tables together say what the spec says |
| Fates.CutSpreads | packages/engine/src/run.ts:234-243 | In the reference evaluation, whatever waits for a node that was cut off is cut off too, unless its value was supplied |
| Fates.UnselectedIsCut | packages/engine/src/run.ts:252-252 | In the reference evaluation, a target its switch did not select is cut off, unless its value was supplied |
| Kernel.ReadyIn | packages/engine/src/run.ts:100-100 | The batch is exactly the ready nodes, no more and no fewer |
| Kernel.FirstAnswered | packages/engine/src/report.ts:50-51 | The candidate that answers has a value, and none is answered only where no candidate has one |
| Kernel.Cancel | packages/engine/src/run.ts:234-243 | Cancelling, which recurses through dependents and may end the run on the way, leaves no node pending that was not |
| Agreement.InitialInv | packages/engine/src/run.ts:65-68 | Before anything runs, the state agrees with the evaluation |
| Agreement.CancelOnlyCancels | packages/engine/src/run.ts:234-243 | Cancelling touches pending nodes and caught marks alone: no value, no selection, no place and no node in flight changes |
| Agreement.MarkKeeps | packages/engine/src/run.ts:235-236 | Marking a node cancelled that the evaluation cuts off keeps the agreement, its dependents still to be cancelled |
| Agreement.LetGoKeeps | packages/engine/src/run.ts:238-242 | Once its dependents are cancelled, a cancelled switch lets go of its fault: the run ends only where the spec fails, which is why the order of the cancel and the fault is no matter |
| Agreement.CancelKeeps | packages/engine/src/run.ts:234-243 | Cancelling what the evaluation cuts off cancels only what it cuts off, all the way down |
| Agreement.CancelAllKeeps | packages/engine/src/run.ts:252-252 | Cancelling every way not taken keeps the agreement, and leaves none of them pending |
| Agreement.EndedKeeps | packages/engine/src/run.ts:201-205 | A run that has ended keeps what every state keeps as long as it failed only where the spec fails |
| Steps.ReadyFate | packages/engine/src/run.ts:124-149 | A ready node comes, over the values and faults the run holds now, to what it comes to in the evaluation |
| Steps.SelectKeeps | packages/engine/src/run.ts:246-251 | A ready switch selects what it selects in the evaluation |
| Steps.StartCallKeeps | packages/engine/src/run.ts:153-168 | A ready call or map is put in flight towards what it comes to in the evaluation |
| RunLaws.StartKeeps | packages/engine/src/run.ts:153-168 | Starting any node of a batch keeps the agreement, even one an earlier node of the batch cancelled by ending the run |
| RunLaws.StartLeavesStartable | packages/engine/src/run.ts:100-103 | Starting one node of a batch leaves every other node of it fit to start: ready still, or cancelled by an ending |
| RunLaws.BatchKeeps | packages/engine/src/run.ts:100-104 | A whole batch, drawn up once and started in order, keeps the agreement |
| RunLaws.UncaughtFails | packages/engine/src/run.ts:212-216 | A failure no pending switch catches is one that fails the spec, whether its catcher was cancelled before or never there |
| RunLaws.FailKeeps | packages/engine/src/run.ts:188-198 | A fault or refusal that lands, caught or not, keeps the agreement |
| RunLaws.SettleKeeps | packages/engine/src/run.ts:162-167 | A node taking its place in the order keeps the agreement |
| RunLaws.AbortKeeps | packages/engine/src/run.ts:222-228 | An abort between any two steps keeps the agreement |
| RunLaws.StepKeeps | packages/engine/src/run.ts:97-111 | Every step -- a batch, a landing, a settling, an abort -- keeps what every state keeps |
| RunLaws.RunKeeps | packages/engine/src/run.ts:97-253 | Every state of every run, aborted anywhere or not, agrees with the evaluation for as long as the run has not ended |
| StartLaws.StartsOnceAllCame | packages/engine/src/run.ts:119-151 | In no state of a run that has not ended has a node started before every node it reads, lists in `after` or catches answered, was given its answer or is held by it; before a root it reads was supplied; or unless the switch that may route to it chose it |
| StartLaws.StartSelects | packages/engine/src/run.ts:246-259 | A switch that starts while it holds several faults selects where the first written sends it; holding none, by its rules and its fallback; and that name is its value |
| StartLaws.SwitchWentFirst | packages/engine/src/run.ts:246-259 | And in every state of a run not ended, where a switch that routed went is told by the faults its run still marks as caught by it |
| StartLaws.NeedsAre | packages/engine/src/report.ts:55-66 | What a blocked run lists is exactly each path written under a root nobody supplied, in a node still pending |
| Confluence.AtRest | packages/engine/src/run.ts:97-111 | In a run at rest that nothing ended, every node is exactly at its fate: status, value, selected branch and caught fault |
| Confluence.RestDoesNotFail | packages/engine/src/run.ts:188-198 | A run that rests without an ending is of a spec that does not fail |
| Meaning.FirstEndingStands | packages/engine/src/run.ts:200-205 | Once a run has an ending, no later step of any run changes it |
| Meaning.UnabortedIsNotCancelled | packages/engine/src/run.ts:222-228 | Only an abort can end a run cancelled |
| Meaning.FirstAlike | packages/engine/src/report.ts:50-51 | The output candidate the report picks is the one the evaluation picks |
| Meaning.NeedsAlike | packages/engine/src/report.ts:55-66 | A blocked report lists exactly the supplied-by-nobody root paths that nodes left waiting read |
| Meaning.RunMeans | packages/engine/src/run.ts:97-253 | Whatever the interleaving and whenever aborted, a run at rest that was not cancelled reports what one evaluation in dependency order means; without an ending, node by node |
| Meaning.Confluent | packages/engine/src/run.ts:97-253 | Any two runs of a spec that nothing aborts report the same status, output, candidate, needs and, unless failed, every node, however their nodes settled |
| Meaning.StepCosts | packages/engine/src/run.ts:97-111 | Every step but an abort lowers the measure of work left, and an abort never raises it |
| Meaning.RunIsShort | packages/engine/src/run.ts:97-111 | No run that nothing aborts takes more than three steps a node: a start, a landing and a settling |
| Meaning.RunGoesOn | packages/engine/src/run.ts:105-109 | A run not at rest can always take a step other than an abort: the scheduler sleeps only while something is in flight |
| Endings.NothingStartsAfter | packages/engine/src/run.ts:124-132 | From the state after a step that ended the run on, no node starts and none is pending |
| Endings.FailedIsCaught | packages/engine/src/run.ts:188-198 | While a run has not ended, every failed node of it broke rather than refused and is held by a switch that was not cancelled |
| Endings.FailedRunIsNamed | packages/engine/src/run.ts:188-243 | In every state of every failed run there is a failed node that no switch holds |
| Endings.RunOrders | packages/engine/src/run.ts:162-167 | The settled nodes and no others have a place, and no two the same, in every state of every run |
| Verdicts.EndedAt | packages/engine/src/kernel.ts:57-63 | The node found is wanted and settled before every other that is; none is found only where none is wanted |
| Verdicts.FailureIsNamed | packages/engine/src/kernel.ts:76-98 | The verdict on any failed run names a node that did fail, that no switch holds, with its own reason or error |
| Verdicts.VerdictMeans | packages/engine/src/kernel.ts:76-98 | What a reader is told of a run at rest is what its spec means: its answer, what it was never supplied, a node of it that failed; or that it was stopped |
| Verdicts.FirstIsNamed | packages/engine/src/kernel.ts:53-85 | Of a failed run at rest, the first uncaught failure to settle is the one named if and only if it refused or no node refused |
| LateRefusal.RefusalOverridesFault | packages/engine/src/kernel.ts:53-63 | A whole run, step by step: a fault ends it while another node runs, that node then refuses, and the report names the refusal although the comment says such a node is not named |
| Overrun.CancelEnds | packages/engine/src/run.ts:234-243 | Cancelling some nodes ends the run if and only if, along pending dependents, one of them leads to a switch that holds a fault |
| Overrun.StartEnds | packages/engine/src/run.ts:246-253 | Starting one node ends the run if and only if it is a switch whose untaken ways lead to a switch that holds a fault |
| Overrun.LastStartsLate | packages/engine/src/run.ts:100-104 | The last node of a batch starts in a run that has already ended if and only if a switch earlier in the batch gave up a held fault |
| LateStart.StartsAfterEnding | packages/engine/src/run.ts:97-111 | A whole run of seven nodes: a switch ends it as it routes, and the node after it in the batch, cancelled by that, starts and is in flight |
| Running.Run.constructor | packages/engine/src/run.ts:61-68 | A run begins with what was supplied and every node pending or seeded |
| Running.Run.IsReadyNow | packages/engine/src/run.ts:124-149 | The method over the plan's tables decides readiness as the spec defines it |
| Running.Run.ReadyNow | packages/engine/src/run.ts:100-100 | The filter answers the ready nodes in the order they are written |
| Running.Run.EndAs | packages/engine/src/run.ts:201-205 | The loop over every node cancels exactly the pending ones, and an ending already there stands |
| Running.Run.CancelNode | packages/engine/src/run.ts:234-243 | The recursion that mutates reports as it goes does what the transition on states does, and ends on every graph of dependents |
| Running.Run.LetGoOf | packages/engine/src/run.ts:238-242 | Deleting caught marks one by one, each ending the run anew, comes to the same as releasing them at once |
| Running.Run.FinishNode | packages/engine/src/run.ts:177-182 | An answer is recorded in the table of values and the report becomes done, and nothing else moves |
| Running.Run.FailNode | packages/engine/src/run.ts:188-198 | A failure is marked and held by its catcher, or ends the run |
| Running.Run.RunSwitch | packages/engine/src/run.ts:246-253 | Routing and then cancelling each other target in turn is one transition of the run |
| Running.Run.StartNode | packages/engine/src/run.ts:153-174 | A node is counted as running and, a switch, routed at once |
| Running.Run.StartBatch | packages/engine/src/run.ts:100-104 | The loop over a batch that is never looked at again is one batch of the state machine |
| Running.Run.SettleNode | packages/engine/src/run.ts:162-167 | The next place is taken and the node is no longer running |
| Running.Run.Wait | packages/engine/src/run.ts:106-108 | One waking of the scheduler: any node in flight lands or is settled, with anything at all once the run has ended, and the run is that much nearer its end |
| Running.Run.Execute | packages/engine/src/run.ts:80-111 | The scheduler's loop, its signal firing whenever it may and whatever lands or settles next chosen arbitrarily, ends at rest and is a run of the kernel; it reports what the spec means unless it is cancelled, which only the signal does |
| Replay.SeededSite | packages/engine/src/map.ts:180-187 | Supplying some elements of a map with what they answered leaves the map's outcome as it was |
| Replay.SeededElementStands | packages/engine/src/map.ts:242-244 | A seeded element is the value it was seeded with, whatever handlers there are and whatever the map's rule would say of it |
| Replay.SeededFate | packages/engine/src/report.ts:25-32 | Supplied with what they answered, calls, maps and elements leave every other node its fate |
| Replay.ReplayMeansTheSame | packages/engine/src/report.ts:25-53 | Any subset of the answers of a run supplied to the next gives the same status, output, candidate and needs, and leaves every other node's report |
| Replay.SeededNeverRuns | packages/engine/src/run.ts:124-132 | In no state of any run is a supplied node in flight, and the value others read of it stays the one supplied |
| Replay.SeededSwitchStalls | packages/engine/src/run.ts:142-145 | Why switches are not to be supplied: no target of a supplied switch ever runs |
| MapPool.FirstDeciding | packages/engine/src/map.ts:196-196 | The deciding element is the lowest that decides; none is found only where none does |
| KernelSpec.SiteIsValid | packages/engine/src/map.ts:242-244 | However a spec writes a map, a seeded element of it comes to the value it was given |
| KernelSpec.BindElement | packages/engine/src/map.ts:61-72 | The loop over the bindings hands on the shared inputs, overlaid by the fields of the element that are there, or by the element whole |
| NodeLaws.ElementComes | packages/engine/src/map.ts:242-281 | An element is its seed; else dropped if and only if the rule drops it beside the shared inputs; else the fault the rule threw; else itself where the map runs nothing, or what the handler told its index and handed it comes to |
| NodeLaws.MapComes | packages/engine/src/map.ts:194-222 | A map comes to the failure of the first element that failed, where failures end it, a refusal kept and a fault named by its index; else to the list, in order, of what every element not dropped came to |
| NodeLaws.MapFaults | packages/engine/src/map.ts:207-211 | Over what is no list, or a list past the limit, it is a fault |
| NodeLaws.MapPicks | packages/engine/src/map.ts:257-281 | A map with no operation answers exactly the elements its rule keeps, in list order |
| MapPool.NextKeeps | packages/engine/src/map.ts:226-235 | Each taking and each settling keeps every element to its own result or cut short behind one that broke, and never more held than there are workers |
| MapPool.TraceKeeps | packages/engine/src/map.ts:226-235 | So does every interleaving of any length: no more than `concurrency` elements run at once |
| MapPool.HoldsItsConcurrency | packages/engine/src/map.ts:215-219 | However a map runs, no more elements are held at once than the concurrency written on it, and while fewer are, the next that waits may be taken |
| MapPool.PoolRefines | packages/engine/src/map.ts:194-235 | Whatever the number of workers and the interleaving, a map whose run did not end meanwhile comes to what its elements come to in list order, or to the failure of the lowest that fails, never to a mark of one that did not start |
| MapPool.PoolGoesOn | packages/engine/src/map.ts:226-235 | With a worker at all the pool never stalls before every element settled |
| MapPool.StepsRunOut | packages/engine/src/map.ts:226-235 | Every step of the pool brings it nearer its end |
| MapPool.NoWorkersNoSteps | packages/engine/src/map.ts:216-219 | A concurrency of 0 starts no worker: nothing is taken and the map comes to the empty list |
| MapPool.MapSite.TakeNext | packages/engine/src/map.ts:227-230 | A worker takes the cursor's element and learns whether it starts, in one step no other worker can come between |
| MapPool.MapSite.Settle | packages/engine/src/map.ts:231-233 | A result is recorded in its element's place, and a failure under `fail` decides the answer for whoever takes the next |
| MapPool.MapSite.WorkAlone | packages/engine/src/map.ts:226-235 | The loop of a map's only worker comes to what every interleaving is proved to come to |
| MapPool.AnswersAreKept | packages/engine/src/map.ts:105-107 | The n-th answer is that of the n-th element not dropped, and every kept element answers once |
| GuardSites.IdsDiffer | packages/compiler/src/guard.ts:63-91 | The ids a guard occupies never meet: the moved node, the switch, the value and every numbered refusal |
| GuardSites.NodesAre | packages/compiler/src/guard-lowering.ts:79-97 | What a lowered spec holds under every id: what was there with its routes sent on, the node moved aside, or one of the guard's own |
| GuardSites.RoutesAre | packages/compiler/src/guard-lowering.ts:62-72 | Who routes whom afterwards: what routed the guarded node routes the moved one, all other routes stand, and the guard's switch alone routes the value and the refusals |
| GuardWaits.RoutersAre | packages/compiler/src/guard-lowering.ts:62-86 | The kernel's routing table after the rewriting, id by id |
| GuardWaits.CatchersAre | packages/compiler/src/guard-lowering.ts:67-72 | The kernel's catching table is left as it was: a `catch` key is not sent after the moved node |
| GuardWaits.ThereWaits | packages/compiler/src/guard-lowering.ts:79-97 | Everything else waits for what it waited for, the guarded id now being the value let through |
| GuardWaits.MadeWaits | packages/compiler/src/guard-lowering.ts:82-86 | The moved node waits for what its site waited for |
| GuardWaits.OwnWaits | packages/compiler/src/guard.ts:276-286 | The guard's switch waits for the moved node alone, its value for both, its refusals for the switch alone |
| GuardWaits.LoweredIsSound | packages/compiler/src/guard-lowering.ts:79-97 | A guarded spec is well formed still: every id listed once, routed once, every target there, and nothing waits for itself |
| GuardFates.RouteSent | packages/compiler/src/guard-lowering.ts:67-72 | A rerouted switch goes, over any inputs and faults, where it went, with the guarded id read as the moved one |
| GuardFates.ThereFate | packages/compiler/src/guard-lowering.ts:62-97 | Where the guard stands for its node, every other node of the spec comes to what it came to, its branch names sent on |
| GuardOwn.FailedRoute | packages/compiler/src/guard.ts:238-243 | Of the rules that ask what did not hold, the first to hold is that of the first rule broken |
| Guards.BuildCheck | packages/compiler/src/guard.ts:234-244 | The two loops fill an input for each field read and a rule for each that may not hold but the last, whose refusal is the fallback |
| Guards.BuildNodes | packages/compiler/src/guard.ts:276-286 | The record filled in the loop holds the switch, the value and one refusal a rule |
| GuardOwn.CheckRoute | packages/compiler/src/guard.ts:234-244 | The switch routes to the value exactly when every rule holds of it, and else to the refusal of the first rule, in order, that does not |
| GuardOwn.MadeFate | packages/compiler/src/guard-lowering.ts:82-86 | The moved node comes to what it came to where it stood, under its new id |
| GuardOwn.CheckFate | packages/compiler/src/guard.ts:234-244 | What becomes of the guard's switch in every case: made, cut off, broken or stuck |
| GuardOwn.OkFate | packages/compiler/src/guard.ts:253-258 | The value let through is the value made, exactly as it stands, or is cut off where a rule is broken |
| GuardOwn.RefusalFate | packages/compiler/src/guard.ts:261-269 | Of the refusals, the one of the first rule broken refuses with its message and no other ever runs |
| GuardOwn.RefusalIsGiven | packages/compiler/src/guard.ts:261-269 | The refusal of a rule reads nothing: it is handed the reason, the rule's message and the shape |
| GuardOwn.ListOutcome | packages/compiler/src/guard-lowering.ts:30-40 | A list's guard answers the list itself where every element passes, else refuses as the first element that does not |
| GuardOwn.ManyFate | packages/compiler/src/guard-lowering.ts:87-92 | What a list site lets through in every case |
| GuardLaws.GuardStands | packages/compiler/src/guard-lowering.ts:79-97 | Where no rule is broken, the guarded id answers what it answered, and where the node broke the guarded id never answers |
| GuardLaws.GuardRefuses | packages/compiler/src/guard-lowering.ts:79-97 | A value that breaks a rule fails the run, at the refusal of the first rule in order that it breaks; for a list, as the first element that is refused |
| GuardLaws.FaultFails | packages/compiler/src/guard-lowering.ts:67-72 | A fault of a guarded node fails the guarded run even where a switch caught it before |
| GuardLaws.FirstAlikeIn | packages/compiler/src/guard-lowering.ts:105-113 | With the refusals put after the value wherever the graph answers with it, the same candidate answers first |
| GuardLaws.NeedsAreAlike | packages/compiler/src/guard-lowering.ts:79-97 | A guarded made node leaves what a blocked run needs as it was |
| GuardLaws.GuardPreserves | packages/compiler/src/guard-lowering.ts:62-113 | Where every rule holds and no catch is lost, the guarded spec comes to the same status, output, candidate and needs, whatever switches there are, so long as none that chose the guarded node is read |
| GuardLaws.GuardPreservesExactly | packages/compiler/src/guard-lowering.ts:62-113 | And only there: the meaning is kept if and only if the value breaks no rule and no caught fault of the node is lost, or the spec failed as it was |
| GuardLaws.GuardTrips | packages/compiler/src/guard-lowering.ts:62-113 | A guard that trips fails the run, at a node that says why: the verdict of the first rule broken, for a list on its first element refused, or the fault that was caught |
| GuardLaws.StillSame | packages/compiler/src/guard-lowering.ts:62-97 | Whether or not the guard trips, whatever else answers or breaks afterwards answered or broke so before: a guard that trips only keeps nodes from running |
| GuardLaws.EveryValueStands | packages/compiler/src/guard-lowering.ts:62-97 | Every id answers if it did and with its own value, but a switch that chose the guarded node, whose value now names the moved one |
| GuardCatch.CatchIsLost | packages/compiler/src/guard-lowering.ts:67-72 | A spec, one the checker refuses (G025), that is done as written and fails once guarded, though the rule holds of every value: the fault that was caught is caught no more |
| GuardRead.NameIsRead | packages/compiler/src/check/graph-reads.ts:141-141 | A spec done as written and once guarded, its rule holding of every value, whose answer changes: it echoes a switch that chose the guarded node, and a switch answers the id it routed to, which is the moved node's now |
| GuardsTogether.SpecInPlace.RerouteSwitch | packages/compiler/src/guard-lowering.ts:67-72 | Three loops over one switch's rules, fallback and catches send every route to one id to another and change nothing else |
| GuardsTogether.SpecInPlace.Reroute | packages/compiler/src/guard-lowering.ts:62-64 | Every switch of the spec is rerouted, in place, and no other node changes |
| GuardsTogether.SpecInPlace.LowerGuard | packages/compiler/src/guard-lowering.ts:79-97 | One guard written into the nodes in place: the deletion, the move, the rerouting and the new nodes |
| GuardsTogether.SpecInPlace.PutViolated | packages/compiler/src/guard-lowering.ts:105-113 | The loop puts the refusals right after each candidate that is the guarded value |
| GuardsTogether.SpecInPlace.LowerGuards | packages/compiler/src/guard-lowering.ts:119-124 | Every guard written in turn with the output kept aside until the end comes to guarding spec after spec |
| GuardsTogether.StillClear | packages/compiler/src/guard-lowering.ts:119-124 | What chose another guarded node afterwards chose it before, so what was unread stays so |
| GuardTaken.TakenCheck | packages/compiler/src/guard.ts:74-77 | A guard over `in` routes by the value taken, and waits where none was supplied |
| GuardTaken.TakenOk | packages/compiler/src/guard.ts:276-286 | The judged `in:ok` is the caller's own value where every rule holds of it, and is cut off else |
| GuardTaken.TakenRefusalFate | packages/compiler/src/guard.ts:261-269 | Over a value taken, the refusal of the first rule broken refuses and no other runs |
| GuardNested.NestedMeans | packages/compiler/src/guard.ts:293-299 | The nested spec one element runs through is done with that element where every rule holds of it, and else fails by the refusal of the first rule broken and nothing else |
| GuardNested.VerdictIsHandedBack | packages/compiler/src/compiled.ts:35-43 | A node that runs one element through the nested spec is handed back the element's verdict and nothing else: its output, or what the node that ended it failed with |
| GuardNested.RunningNestedNests | packages/compiler/src/compiler.ts:191-207 | The handler a guarded list's elements run through comes to each element's verdict, as the laws of guards ask of it, if and only if it runs the nested spec |
| GuardAliases.RenamedReads | packages/compiler/src/lower.ts:40-53 | A source with `in` renamed to the judged value reads what it read, whenever the judged value is the one taken |
| GuardAliases.TakenRoutesAre | packages/compiler/src/guard-lowering.ts:79-97 | A taken site leaves who routes whom as it was and adds the guard's own routes |
| GuardAliases.TakenIsSound | packages/compiler/src/guard-lowering.ts:79-97 | A spec guarded at its `in`, with every read renamed, is well formed still |
| GuardAliases.TakenListFate | packages/compiler/src/guard-lowering.ts:87-92 | A list taken is let through whole where every element passes, and else fails as its first refused element |
| GuardAliases.TakenFate | packages/compiler/src/guard-lowering.ts:79-97 | Where the value taken breaks no rule, or none was supplied, every node comes to what it came to |
| GuardAliases.TakenFails | packages/compiler/src/guard-lowering.ts:79-97 | A value taken that breaks a rule fails the run, with the verdict of the first rule it breaks or, for a list, on its first element refused |
| GuardAliases.TakenSame | packages/compiler/src/guard-lowering.ts:79-97 | Whether or not the value taken breaks a rule, what answers or breaks afterwards answered or broke so before |
| GuardAliases.TakenNeedsAre | packages/compiler/src/lower.ts:40-53 | Of `in`, a run that waits needs what the guard itself reads in place of what the renamed readers did, and of every other root what it needed |
| GuardOrder.Swapped | packages/compiler/src/guard-lowering.ts:119-124 | A guard over a made site and one over `in` write the same nodes and the same candidates whichever is written first |
| GuardOrder.TakenFirstWritten | packages/compiler/src/guard-lowering.ts:119-124 | Wherever among the others the guard over `in` is written, it may as well be written first |
| GuardOrder.WrittenInOrder | packages/compiler/src/guard-lowering.ts:119-124 | However many guards of either kind are written, every node is listed once and every fault is caught by the switch that caught it |
| GuardsMixed.MeansAlike | packages/engine/src/run.ts:97-111 | The order a spec's nodes are written in changes nothing of what it means or of what becomes of any node |
| GuardsMixed.StillGuardableThere | packages/compiler/src/guard-lowering.ts:119-124 | A made site's guard that can be lowered can be lowered once `in` is guarded and its readers renamed, whether or not the value taken breaks a rule |
| GuardsMixed.TripsThere | packages/compiler/src/guard-lowering.ts:119-124 | Where the value taken breaks no rule, a made site's guard trips if and only if it did |
| GuardsMixed.GuardedAlike | packages/compiler/src/guard-lowering.ts:119-124 | Every guard of a graph, of both kinds and in any order, as the in-place rewriting writes them: the spec is well formed, and but for the order of its nodes is the one with `in` guarded first |
| GuardsMixed.TrippedIsTold | packages/compiler/src/guard-lowering.ts:119-124 | Where some guard of either kind trips, a node ends the run with what a guard that trips has to say |
| GuardsMixed.GuardedMeans | packages/compiler/src/guard-lowering.ts:119-124 | Every guard of a graph, of both kinds and in any order: where none trips the same status, output and candidate, and the needs told exactly; where one trips the run fails, and a node of it says so for a guard that trips |
| GuardsMixed.GuardedMeansExactly | packages/compiler/src/guard-lowering.ts:119-124 | All of them together preserve what the graph answers if and only if none trips or the spec failed as it was |
| GuardsMixed.EveryAnswerIsKept | packages/compiler/src/guard-lowering.ts:119-124 | Where none trips, every authored call and map answers if it did, and with its own value, under its own id, under guards of both kinds |
| Types.ConformingInhabits | packages/core/src/values.ts:75-150 | What passes the run-time check of a type without a literal `[]` in it is one of the type's values |
| Types.InhabitantConforms | packages/core/src/values.ts:75-150 | A value of a type passes its run-time check if and only if its lists are within the type's bounds |
| TypeLaws.TypeRefsAre | packages/core/src/types.ts:80-81 | What the grammar of a type reference takes: words, variables, paths of names between slashes of which only the first may be empty, and each as a list |
| Assign.PartFits | packages/core/src/assign.ts:131-170 | Object assignability, key by key: whatever the one may carry under a key feeds what the other says of it |
| Assign.AssignableIsSound | packages/core/src/assign.ts:90-170 | Every value of a type is a value of every type that type is assignable to |
| Assign.AssignableIsExact | packages/core/src/assign.ts:86-170 | Of types with no blob and no empty enumeration one feeds another if and only if every value of the one is a value of the other: what is refused has a value that shows why |
| Assign.RefusedWithoutCause | packages/core/src/assign.ts:90-170 | Why those are out: every handle of a blob is a value of the object open to anything, which a blob does not feed, and an empty enumeration has no value at all |
| Assign.AssignableAtRunTime | packages/core/src/assign.ts:90-170 | What conforms to a type conforms to a type it feeds if and only if its lists are within that type's bounds, which assignability never reads |
| Assign.AssignableIgnoresBounds | packages/core/src/assign.ts:116-120 | Two values that conform to a type and not to one it is assignable to: one over a list's `max`, one a non-empty list of the type of `[]` |
| Assign.ShortcutAgrees | packages/core/src/assign.ts:131-132 | The `from === to` shortcut agrees with the structural judgement exactly for types in which the judgement meets no type of a type reference, which does not feed itself |
| TypeLaws.OutsideTheJudgement | packages/core/src/assign.ts:81-108 | A variable feeds and takes anything; a type reference takes exactly the types all of whose values are text, and feeds nothing that is known |
| Assign.AssignableIsTransitive | packages/core/src/assign.ts:90-170 | What feeds a type feeds everything that type feeds |
| ValueTypes.TrimmedIsSound | packages/core/src/assign.ts:99-170 | Where a trim is accepted, the pruned value is a value of the type it was pruned to |
| TypeLaws.TrimmedIsExact | packages/core/src/assign.ts:99-170 | And only there: one type feeds another trimmed if and only if every value of it, pruned, is a value of the other |
| ValueTypes.PruneValue | packages/core/src/values.ts:156-166 | The recursion that writes a new object key by key keeps what a closed type declares and all of an open one, at every depth |
| ValueTypes.PruneKeepsBounds | packages/core/src/values.ts:156-166 | Pruning neither breaks nor mends a list's bound |
| ValueTypes.TrimmedAtRunTime | packages/core/src/values.ts:156-166 | What conforms, pruned to a type it feeds once trimmed, conforms to it if and only if the value's own lists are within its bounds |
| ValueTypes.PruneKeepsConforming | packages/core/src/values.ts:156-166 | Pruning takes nothing from a value that conforms already |
| ValueTypes.PruneIsIdempotent | packages/core/src/values.ts:156-166 | Pruning twice is pruning once, of any value by any type |
| ValueTypes.FollowType | packages/core/src/values.ts:26-34 | The loop with one mutable read follows a path through a type, and stops where the first step is refused |
| ValueTypes.ReadPathIsTyped | packages/core/src/values.ts:26-49 | What a path reads inside a value of a type is a value of the type `typeAt` finds there, and is missing only where that read may be missing |
| ValueTypes.TypedAtEveryPath | packages/core/src/values.ts:26-49 | A value is typed at every path `typeAt` follows, as present or missing where it may be, if and only if it is one of the type with every handle's file name text, which the run-time check does not ask |
| TypeLaws.TypeAtIsExact | packages/core/src/values.ts:26-49 | The type found at a path is that of what values hold there and of nothing else; it is optional if and only if some value has nothing there; and a read is refused only where no value has anything |
| ValueTypes.FilenameIsUnchecked | packages/core/src/types.ts:72-78 | A handle that passes the run-time check of a blob and whose `filename` reads as a number, though it is typed as text |
| ValueTypes.LiteralIsTyped | packages/core/src/values.ts:52-72 | A literal whose lists are uniform is a value of the type it is told to have |
| ValueTypes.LiteralIsPrincipal | packages/core/src/values.ts:52-72 | Such a literal is a value of a type if and only if the type it is told to have is assignable to that type |
| TypeLaws.FirstTellingIsFirst | packages/core/src/value-reads.ts:51-60 | The member a list is typed by is the first that is no literal empty list, or the first of all |
| ValueTypes.UniformIsExact | packages/core/src/values.ts:68-72 | A list of uniform members is a value of the type it is told to have if and only if its members all fit the item type picked |
| ValueTypes.MixedObjectsAreMistyped | packages/core/src/values.ts:68-72 | Two unlike objects in one list: the type told of the list is not one the list conforms to |
| Unification.Bindings.UnifyVar | packages/core/src/assign.ts:37-47 | The binding stored in place: the first type met, kept where the later one feeds it, widened where it feeds the later one, refused where neither feeds the other |
| Unification.Bindings.Unify | packages/core/src/assign.ts:25-34 | The in-place unification, and the bindings it leaves even where it fails half way |
| Unification.Bindings.UnifyObject | packages/core/src/assign.ts:49-60 | The loop over the pattern's fields stops at the first that is missing or does not unify |
| Unification.BindVarBinds | packages/core/src/assign.ts:37-47 | After a success the type met feeds the variable's binding, and every binding there was feeds its successor |
| Unification.BoundStays | packages/core/src/assign.ts:25-60 | What was met stays met under every wider set of bindings |
| Unification.UnifyBinds | packages/core/src/assign.ts:25-60 | A successful unification only widens bindings and leaves every actual type met at a variable's position feeding its binding |
| Unification.UnifyEachBinds | packages/core/src/assign.ts:25-60 | Over any number of successful calls, every type met anywhere feeds the final binding of its variable |
| Unification.SubstituteNothing | packages/core/src/assign.ts:63-79 | Writing bindings into a type that has no variable changes nothing |
| Unification.VariablesAreGone | packages/core/src/assign.ts:8-17 | A type is found to have variables exactly where it has one, and with judged bindings written in none is left |
| Unification.BoundFitsExactly | packages/core/src/assign.ts:49-60 | A type that unified fits the pattern with its bindings written in if and only if it also covers what unification leaves unread: required fields, further fields, and what an open object admits |
| Unification.OptionalFeedsRequired | packages/core/src/assign.ts:49-60 | A pattern and an object that unify, though the object's optional field does not feed the required field of the pattern once written in |
| Lowering.CutIsWhole | packages/compiler/src/lower.ts:62-73 | The pieces a text is cut into spell the text again: nothing lost, nothing doubled |
| Lowering.CutKeepsTemplates | packages/compiler/src/lower.ts:62-73 | The reads among the pieces are the templates found, in order |
| Lowering.LowerText | packages/compiler/src/lower.ts:62-73 | The loop with its mutable `last` lowers a text to its pieces in order, or fails where one template cannot be lowered |
| Lowering.TypeText | packages/core/src/value-reads.ts:30-45 | The loop over a text's templates stops at the first that is no scalar, and gathers whether any may be missing |
| Lowering.TypeList | packages/core/src/value-reads.ts:51-60 | A list types by the first member that is not an empty list, once every member types |
| Lowering.TypeObject | packages/core/src/value-reads.ts:63-72 | The loop over an object's members makes each that may be missing an optional field, and fails with the first that does not type |
| Lowering.TypeValue | packages/core/src/value-reads.ts:22-27 | The recursion over an authored value types it or fails as its parts do |
| Lowering.TypedTextLowers | packages/core/src/value-reads.ts:30-45 | Text whose templates all type lowers, and reads as text |
| Lowering.TypingSurvivesLowering | packages/core/src/value-reads.ts:22-72 | An authored value typed as T lowers, and the source it lowers to yields a value of T, and nothing only where the read may be missing |
| Lowering.ListIsTyped | packages/core/src/value-reads.ts:51-60 | A list read with its missing members left out holds only values of the member type picked, where every member's type fits that type |
| Lowering.RootReadHolds | packages/compiler/src/lower.ts:50-59 | Constants, resolvers, nodes and `in` each lower to a source that yields a value of the type they are read at |
| Lowering.GraphValuesAreTyped | packages/compiler/src/lower.ts:50-92 | Where a graph's roots hold values of their types, whatever its checker types as T is, at run time, a value of T |
| DocLaws.TemplateLowers | packages/compiler/src/lower.ts:50-59 | A template lowers if and only if its root may be read where it is written, and the source yields what the template reads |
| DocLaws.LoweringPreserves | packages/compiler/src/lower.ts:50-92 | Lowering preserves meaning: over any values, the source an authored value lowers to yields what the value means read where it is written, and it lowers if and only if each template may be read there |
| DocLaws.TextIsFilled | packages/compiler/src/lower.ts:62-73 | A text cut at its templates, lowered and read is the text with each template's span replaced by what it reads as, everything between left where it stood |
| DocLaws.LiteralReadsBack | packages/compiler/src/lower.ts:82-87 | A value written with no template, lowered and read, is the value |
| DocLaws.ScalarsAreText | packages/core/src/value-reads.ts:30-45 | What may be put into text is exactly what is, of every value of its type, neither a list nor an object; and the unknown |
| DocLaws.RefusedReadsNothing | packages/core/src/values.ts:26-49 | Where a graph's checker refuses to read below a root of a plain type, the template reads nothing at run time |
| DocLaws.ReadBelowIsExact | packages/core/src/values.ts:26-49 | Below a root that may be missing itself, a read may be missing exactly where some value of that root has nothing there |
| Redaction.RedactValue | packages/engine/src/redact.ts:91-99 | The loop over the paths, left at once by an empty path, redacts path after path |
| Redaction.RedactOne | packages/engine/src/redact.ts:173-181 | One path redacts what the set of that path alone means: through fields by name, through lists in every element |
| Redaction.RedactUnion | packages/engine/src/redact.ts:91-99 | Redacting by one set of paths and then another is redacting by their union |
| Redaction.RedactEachIsRedact | packages/engine/src/redact.ts:91-99 | A list of paths means the set of them: neither order nor repeats change what a report shows |
| Redaction.RedactTwice | packages/engine/src/redact.ts:91-99 | Redacting again by the same paths, in any order, changes nothing; by more, shows what one redaction by all would |
| Redaction.RedactIsExact | packages/engine/src/redact.ts:173-181 | Two values are shown alike if and only if they differ at most where a path leads: what is there cannot be told, and nothing else is hidden |
| Redaction.SecretPaths | packages/core/src/secret.ts:12-26 | The walk that pushes onto a shared list adds exactly the paths to secret fields, under its prefix and down to the bound, and keeps what was there |
| Redaction.SecretsDifferAtMost | packages/core/src/secret.ts:12-26 | Values that differ only in fields a type marks secret differ only where those paths lead |
| Redaction.RedactionIsNoninterfering | packages/engine/src/redact.ts:91-99 | Two values that differ only in fields a type marks secret are one and the same once redacted by that type's paths; of two values of the type, only such are |
| Redaction.SecretsAreMarked | packages/engine/src/redact.ts:173-181 | Every secret field of an object is the marker once redacted |
| Reach.OperationCloses | packages/compiler/src/refusals.ts:167-181 | A walk from an operation leaves what it has found closed but for what is still being walked above it |
| Reach.GraphCloses | packages/compiler/src/refusals.ts:187-198 | So does a walk of a graph, entered or not before |
| Reach.WalkIsLeast | packages/compiler/src/refusals.ts:140-222 | From any calls, over graphs with any cycles, what a walk records is the least set closed under binding, graph call and delegation |
| Reach.OperationIsLeast | packages/compiler/src/refusals.ts:152-155 | And so it is from an operation, as the reasons of a trigger are read |
| Reach.BeyondIsDifference | packages/compiler/src/reach.ts:219-224 | A walk that goes on from further roots over the graphs already entered finds what one walk from all of them would, so `beyond` is what only the further roots reach |
| Reach.CallsEnterOnce | packages/compiler/src/reach.ts:108-118 | A walk enters no graph twice |
| Reach.CallLeadsTo | packages/compiler/src/refusals.ts:206-221 | What a call adds, by the tree: nothing for a name unknown, a refusing operation's literal reason where one is written, a native site itself, and else the operation |
| Reach.WalksAgree | packages/compiler/src/refusals.ts:206-221 | Where only native operations refuse, both walks follow the same domain operations and enter the same graphs |
| Reach.Walk.FollowOperation | packages/compiler/src/refusals.ts:167-181 | The method that pushes what it finds and recurses through binding or delegation ends, and finds what the specification of the walk does |
| Reach.Walk.FollowCall | packages/compiler/src/refusals.ts:206-221 | One call followed in place: a reason, a native site, or on through an operation |
| Reach.Walk.EnterGraph | packages/compiler/src/refusals.ts:187-198 | A graph entered in place, once, and every call of it followed in order |
| Multipart.MultipartParts.Feed | packages/plugin-http/src/multipart.ts:36-43 | The loop over three modes takes every step the held bytes allow and stops where more of the stream is needed |
| Multipart.MultipartParts.TakePreamble | packages/plugin-http/src/multipart.ts:63-72 | Up to the first boundary, holding only what might be the start of it |
| Multipart.MultipartParts.TakeHeaders | packages/plugin-http/src/multipart.ts:75-86 | A part's head up to the blank line, or the closing boundary, where the window is dropped |
| Multipart.MultipartParts.TakeBody | packages/plugin-http/src/multipart.ts:89-104 | Everything up to the next delimiter goes to the part; what might be the start of one is held |
| Multipart.MultipartParts.End | packages/plugin-http/src/multipart.ts:46-50 | A part still open when the stream ends is ended with it |
| Multipart.WindowIsBounded | packages/plugin-http/src/multipart.ts:88-98 | Between chunks no more of a body is held than a delimiter's length less one |
| Multipart.DrainResumes | packages/plugin-http/src/multipart.ts:36-43 | Up to the closing boundary, reading what came and then what follows is reading both at once |
| Multipart.CuttingIsInvisible | packages/plugin-http/src/multipart.ts:36-104 | The parts read are the same for every cutting of a body into chunks if and only if no blank line follows its closing boundary |
| Multipart.BoundaryDelimits | packages/plugin-http/src/multipart.ts:28-33 | With no carriage return in the boundary, a delimiter written after a body that does not hold it is first found right there, never across the seam |
| Multipart.EncodedIsRead | packages/plugin-http/src/multipart.ts:36-104 | A body written around parts by the grammar of RFC 2046 section 5.1.1 is read back as those parts, heads and bytes |
| Multipart.EncodedIsReadInChunks | packages/plugin-http/src/multipart.ts:36-104 | And so it is however it is cut, where no blank line follows the closing boundary |
| Csv.CsvRows.Feed | packages/plugin-blob/src/csv.ts:10-17 | The loop over the characters answers the rows this piece completes and leaves the reader where the next piece goes on |
| Csv.CsvRows.TakeInside | packages/plugin-blob/src/csv.ts:31-45 | A character inside quotes: taken, or it shows the quote before it closed the field and is to be read again outside |
| Csv.CsvRows.TakeOutside | packages/plugin-blob/src/csv.ts:47-54 | A character outside quotes: an opening quote at the start of a field alone, a separator, a line end, or text |
| Csv.CsvRows.End | packages/plugin-blob/src/csv.ts:20-28 | A last row with no line end is answered, and none where nothing was begun |
| Csv.CuttingIsInvisible | packages/plugin-blob/src/csv.ts:10-17 | However a text is cut, the same rows come of it, and the reader ends in the same state |
| Csv.FeedDoubled | packages/plugin-blob/src/index.ts:156-159 | Text with its quotes doubled is read inside quotes as the text it was |
| Csv.FeedCell | packages/plugin-blob/src/index.ts:156-159 | Any string at all, quoted or not as the writer decides, is read back as itself |
| Csv.FeedWritten | packages/plugin-blob/src/index.ts:168-172 | Lines written one after another are read back one after another, the reader left where it began |
| Csv.RoundTrip | packages/plugin-blob/src/csv.ts:10-28 | Rows written and read back in any pieces are those rows if and only if none of them is empty, and nothing is left for the end |
| Csv.UnfinishedIsRead | packages/plugin-blob/src/csv.ts:19-28 | A text that stops before its last line end is read back with its last row, unless nothing of that row was written |
| Csv.QuotedWhereNeeded | packages/plugin-blob/src/index.ts:156-159 | A cell is quoted if and only if it holds a quote, a separator or a line end |
| Csv.LineEndsOnce | packages/plugin-blob/src/index.ts:168-172 | A line is ended by CRLF, and holds no other line end unless a cell does |
| Throttling.StepKeeps | packages/plugin-http/src/throttle.ts:34-59 | Every ask and every settling keeps the slots held or owed, the remembered starts the latest, and the pace |
| Throttling.TraceKeeps | packages/plugin-http/src/throttle.ts:34-59 | So does every interleaving of any length |
| Throttling.NeverTooMany | packages/plugin-http/src/throttle.ts:34-59 | In no interleaving are more requests in flight than `concurrency` |
| Throttling.NoWakeUpIsLost | packages/plugin-http/src/throttle.ts:44-57 | While a request is parked, those in flight and those woken but not started are at least `concurrency`, so one is always there to go on |
| Throttling.NeverTooFast | packages/plugin-http/src/throttle.ts:34-41 | No second, wherever it begins, holds more starts than `perSecond` rounded up; with one of 0 or less nothing ever starts |
| Throttling.Burst | packages/plugin-http/src/throttle.ts:34-41 | And that many may start at one instant |
| Throttling.WholePaceIsKept | packages/plugin-http/src/throttle.ts:34-41 | Every run keeps within `perSecond` starts a second if and only if it is a whole number |
| Throttling.Throttle.Forget | packages/plugin-http/src/throttle.ts:37-37 | Filtering in place leaves the starts less than a second old, in order |
| Throttling.Throttle.DelayNow | packages/plugin-http/src/throttle.ts:34-41 | How long a request is to wait, and what asking forgets, over the gate's own fields |
| Throttling.Throttle.Turn | packages/plugin-http/src/throttle.ts:45-52 | One turn of a request's loop: let through and counted, parked at the back, or told how long |
| Throttling.Throttle.Free | packages/plugin-http/src/throttle.ts:55-58 | A settling frees its slot and wakes the one that has waited longest, if any |
| Retrying.Tried | packages/compiler/src/attempts.ts:95-106 | At most one call more than the site's tries; every call but the last recorded with its reason and the run it attached; the last ending and its run alone are the node's; each wait as the policy says |
| Retrying.RefusalStands | packages/compiler/src/attempts.ts:146-151 | A refusal is never tried again: wherever one comes it is the last try |
| Retrying.AbortedStands | packages/compiler/src/attempts.ts:100-101 | A try that ended after the run's signal fired is the last |
| Retrying.OneStands | packages/compiler/src/attempts.ts:95-106 | Exactly one try stands, whatever the endings |
| Retrying.WaitsGrow | packages/compiler/src/attempts.ts:113-115 | Waits never shorten and none is longer than a timer can wait |
| Retrying.StandsExactly | packages/compiler/src/attempts.ts:95-151 | A try is followed by another if and only if one remains, the signal had not fired, the wait ran out, and it threw what is no refusal or answered what the condition accepts; the first of the others stands |
| Retrying.WaitsDouble | packages/compiler/src/attempts.ts:113-115 | Each wait is the one before doubled, from the site's own, up to the longest a timer can wait |
| Atomicity.AtomicScope.JoinOn | packages/compiler/src/atomic.ts:31-41 | The first join opens, every later one on its connection shares, and one on another connection fails and changes nothing, settled before or not |
| Atomicity.AtomicScope.Settle | packages/compiler/src/atomic.ts:48-52 | Each call commits or rolls back what was opened, once more; where nothing was opened nothing is settled |
| Atomicity.TraceKeeps | packages/compiler/src/atomic.ts:13-73 | In every interleaving of runs beginning, joining and ending, nested to any depth and side by side: scopes are inherited, transactions numbered apart, joins shared and settlings made by outermost runs alone |
| Atomicity.ScopeIsOpen | packages/compiler/src/atomic.ts:63-73 | While a run is going, so is the outermost run whose scope it carries: a run is over only once all it started is |
| Atomicity.SettledOnce | packages/compiler/src/atomic.ts:63-73 | An outermost run that is over has settled exactly one transaction if any node of it or of a run nested in it joined, and none otherwise, committed if and only if it was done |
| Atomicity.NestedSettlesNothing | packages/compiler/src/atomic.ts:67-68 | A run nested in another settles nothing, whatever became of it |
| Atomicity.NoJoinAfterSettling | packages/compiler/src/atomic.ts:70-72 | Once a scope is settled, no node of any run that carries it can join |
| Atomicity.JoinsShare | packages/compiler/src/atomic.ts:31-41 | In whatever order and from whichever run, every join on the connection of a scope's first gets the one participant that opened, every other is told both connections, and no two scopes share one |
| Atomicity.TransactionStands | packages/compiler/src/atomic.ts:31-41 | A scope's transaction is never replaced: no more transactions are ever opened than scopes hold one |
| Atomicity.JoinEach | packages/compiler/src/atomic.ts:31-41 | Joins made one after another on one scope all share what the first of them opened or are refused for it |
| Atomicity.InScope | packages/compiler/src/atomic.ts:63-73 | With no scope around it a run makes one and settles it once at its end; inside one it leaves the outer one unsettled |

## Left out

Domains the theorems are stated on:

- Meaning.Confluent: of two failed runs it equates that they failed and not which node did, which is a race; the specs are acyclic, each node a target of at most one switch, and every target exists, as a graph is refused without (G007 and G009 in `packages/compiler/src/check`).
- Meaning.RunMeans: the order in which nodes settled is left out of what is compared, being the interleaving's own; a cancelled run is not compared, having stopped where it was.
- MapPool.PoolRefines: in a run that ended meanwhile a map may come to anything an ended run allows, since elements are then held back; the kernel's steps let any node in flight land with anything once the run has ended.
- GuardLaws.GuardPreserves: no switch that chose the guarded node is read or a candidate (`GuardRead.NameIsRead` shows why), a guarded list's node whose fault is caught answers lists where it answers, the guarded node's handler does not heed where it runs (its node path changes), nothing of it is replayed element by element, its rules read at least one field, and no authored id has the form of a guard's.
- GuardsMixed.GuardedMeans: the same of every made site; the guards' ids are apart, as those of a graph's different sites are, so at most one is over `in`. Which of several nodes that failed the report names is the run's to say (`Verdicts.FirstIsNamed`).
- Lowering.GraphValuesAreTyped: no resolver takes the name of another root, which would be read in its place; blobs' handles carry a `filename` as text; every member of an authored list fits the member type picked.
- Assign.AssignableIsSound: types without a variable or the type of a type reference; list bounds are apart, in `Assign.AssignableAtRunTime`.
- Assign.AssignableIsExact: besides, types without a blob and without an empty enumeration (`Assign.RefusedWithoutCause` shows why).
- TypeLaws.TrimmedIsExact: the same types as `Assign.AssignableIsExact`.
- TypeLaws.TypeAtIsExact: besides, types with nothing unknown and no literal empty list in them, below which the checker refuses or types what no value, or any value, may hold.
- Unification.UnifyEachBinds: the actual types hold no variable and no type of a type reference.
- Throttling.NeverTooFast: a clock that never runs back.
- Throttling.WholePaceIsKept: a `perSecond` that is not negative.
- Multipart.MultipartParts.TakeHeaders: a part's head is kept as its raw bytes, and the name, file name and content type the code reads out of it are not modelled.
- Multipart.MultipartParts.End: the parts are answered in order with their heads; filing each under its name, as text or as a blob's handle, is not modelled.
- Atomicity.SettledOnce: opening a transaction succeeds and no try is abandoned by a timeout while it is opening.
- Reach.WalkIsLeast: no chain of delegations alone comes back to where it began, which the code would follow for ever.

Not modelled:

- Files, sockets, streams, timers, tokens, `fetch` and exporters: only the steps they trigger.
- The expression language behind rules and predicates, and the proofs that spare a site its guard: predicates are total functions and guard sites are given.
- Error wording, labels, hints, descriptions and clock stamps; reports without `order`, which are compared by their stamps, are not made by this kernel.
- What a report shows beyond redaction: marks carried from inputs to answers, answers shown in nested runs, `redact` paths of guards, attempts and seeds.
- Item reports of a map in flight: a map lands with one outcome, and its elements are those of the worker pool.
- JavaScript's own: prototype keys, keys held as `undefined`, and indices `Number()` would read out of a segment that is no plain number.
- Parsing of templates and of a part's header lines: templates are given as found in their text, heads as raw bytes.
- An output candidate that names no node of the spec, over which the code would throw: such a candidate answers nothing here.
- A seed for an element is keyed by the pair of node and index rather than by the text that joins them.
- The bound on the walk for secrets is the code's own constant; a secret deeper than it is not found by the code either.
- Attaching a nested run after its try timed out, and the timer of a try: each try's ending, and whether its wait ran out, are given.
- The registry of gates by environment and connection (`throttleFor`), and rebuilding a gate whose settings changed.
- What a reached operation was reached through, and the walk over triggers, policies and profiles that names the roots.
- The plan's sorting and rendering, deployment, repository linting and the command line, which would only add easy members.
