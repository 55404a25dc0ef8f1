/**
 * The kernel's state and its steps: the scheduler starts everything that is ready, a node in flight lands with what
 * it came to and is then settled, and an abort may come between any two of these.
 */
module Kernel {
  import opened Json
  import opened Sources
  import opened Outcomes
  import opened KernelSpec
  import opened Fates

  datatype Status = Pending | Running | Done | Failed | Cancelled | Seeded

  /** `order` is the place a node took as the run's nodes settled. */
  datatype NodeReport = NodeReport(
    status: Status, selected: Option<Id>, caught: Option<Id>, failure: Option<Outcome>, order: Option<nat>)

  /** How a run ended before quiescence could answer for it. */
  datatype Ending = EndFailed | EndCancelled

  /** A node in flight: its handler will come to an outcome, or it has and only its settling is left. */
  datatype Promise = Will(outcome: Outcome) | Landed

  datatype State = State(
    values: Values, reports: map<Id, NodeReport>, ending: Option<Ending>, inFlight: map<Id, Promise>, settles: nat)

  function InitialReport(values: Values, id: Id): NodeReport {
    NodeReport(if id in values then Seeded else Pending, None, None, None, None)
  }

  function Initial(w: World): State {
    State(w.supplied.values, map id | id in w.spec.nodes :: InitialReport(w.supplied.values, id), None, map[], 0)
  }

  predicate Answers(report: NodeReport) {
    report.status.Done? || report.status.Seeded?
  }

  predicate PendingAt(s: State, id: Id) {
    id in s.reports && s.reports[id].status.Pending?
  }

  predicate CancelledAt(s: State, id: Id) {
    id in s.reports && s.reports[id].status.Cancelled?
  }

  function PendingOf(s: State): set<Id> {
    set id | id in s.reports && PendingAt(s, id)
  }

  // ---- readiness --------------------------------------------------------------------------------

  /** A dependency answered, or broke with a fault that the node waiting for it caught. */
  predicate MetAt(s: State, id: Id, d: Id) {
    d in s.reports && (Answers(s.reports[d]) || s.reports[d].caught == Some(id))
  }

  predicate RoutedTo(w: World, s: State, id: Id) {
    var router := RouterOf(w.spec, id);
    router.Some? ==> router.value in s.reports && s.reports[router.value].selected == Some(id)
  }

  predicate IsReady(w: World, s: State, id: Id)
    requires id in w.spec.nodes
  {
    s.ending.None? && PendingAt(s, id) && (forall d :: d in WaitsFor(w.spec, id) ==> MetAt(s, id, d)) &&
    RoutedTo(w, s, id) && RootsSupplied(w.spec.nodes[id], s.values)
  }

  /** Everything ready, in the order it is written in. */
  function ReadyIn(w: World, s: State, order: seq<Id>): (ids: seq<Id>)
    ensures forall id :: id in ids <==> id in order && id in w.spec.nodes && IsReady(w, s, id)
  {
    if order == [] then []
    else
      (if order[0] in w.spec.nodes && IsReady(w, s, order[0]) then [order[0]] else []) + ReadyIn(w, s, order[1..])
  }

  function Ready(w: World, s: State): seq<Id> {
    ReadyIn(w, s, w.spec.order)
  }

  // ---- ending and cancelling --------------------------------------------------------------------

  function Stop(report: NodeReport): NodeReport {
    if report.status.Pending? then report.(status := Cancelled) else report
  }

  /** The run is over: the first ending stands, and nothing still pending starts. */
  function End(s: State, how: Ending): State {
    s.(ending := if s.ending.None? then Some(how) else s.ending,
       reports := map id | id in s.reports :: Stop(s.reports[id]))
  }

  predicate HoldsFault(s: State, id: Id) {
    exists n :: n in s.reports && s.reports[n].caught == Some(id)
  }

  function Release(report: NodeReport, id: Id): NodeReport {
    if report.caught == Some(id) then report.(caught := None) else report
  }

  /** A cancelled switch that held a caught fault ends the run with it. */
  function LetGo(s: State, id: Id): State {
    if HoldsFault(s, id) then
      End(s.(reports := map n | n in s.reports :: Release(s.reports[n], id)), EndFailed)
    else s
  }

  /** All that cancelling may change. */
  ghost predicate OnlyCancels(s: State, s': State) {
    s'.values == s.values && s'.inFlight == s.inFlight && s'.settles == s.settles &&
    s'.reports.Keys == s.reports.Keys &&
    (s'.ending == s.ending || (s.ending.None? && s'.ending == Some(EndFailed))) &&
    (forall id :: id in s.reports ==> OnlyCancelled(s.reports[id], s'.reports[id], s'.ending))
  }

  ghost predicate OnlyCancelled(was: NodeReport, now: NodeReport, ending: Option<Ending>) {
    (now.status == was.status || (was.status.Pending? && now.status.Cancelled?)) &&
    now.selected == was.selected && now.failure == was.failure && now.order == was.order &&
    (now.caught == was.caught || (now.caught.None? && ending.Some?))
  }

  /** Cancel a pending node and, one after another, whatever waits for it. */
  function Cancel(spec: Spec, s: State, id: Id): (s': State)
    ensures PendingOf(s') <= PendingOf(s)
    decreases PendingOf(s), 0
  {
    if !PendingAt(s, id) then s
    else
      var cancelled := s.(reports := s.reports[id := s.reports[id].(status := Cancelled)]);
      assert id in PendingOf(s) && id !in PendingOf(cancelled) && PendingOf(cancelled) <= PendingOf(s);
      var spread := CancelAll(spec, cancelled, Dependents(spec, id));
      assert PendingOf(LetGo(spread, id)) <= PendingOf(spread);
      LetGo(spread, id)
  }

  function CancelAll(spec: Spec, s: State, ids: seq<Id>): (s': State)
    ensures PendingOf(s') <= PendingOf(s)
    decreases PendingOf(s), |ids| + 1
  {
    if ids == [] then s
    else CancelAll(spec, Cancel(spec, s, ids[0]), ids[1..])
  }

  // ---- running a node ---------------------------------------------------------------------------

  /** The faults a switch holds. */
  function CaughtBy(s: State, id: Id): set<Id> {
    set n | n in s.reports && s.reports[n].caught == Some(id)
  }

  function Unselected(targets: seq<Id>, selected: Id): (ids: seq<Id>)
    ensures forall id :: id in ids <==> id in targets && id != selected
  {
    if targets == [] then []
    else (if targets[0] == selected then [] else [targets[0]]) + Unselected(targets[1..], selected)
  }

  function Finish(s: State, id: Id, value: Json, selected: Option<Id>): State
    requires id in s.reports
  {
    s.(values := s.values[id := value],
       reports := s.reports[id := s.reports[id].(status := Done, selected := selected)],
       inFlight := s.inFlight[id := Landed])
  }

  function Select(w: World, s: State, id: Id): State
    requires id in w.spec.nodes && id in s.reports && w.spec.nodes[id].Switch?
  {
    var to := RouteOf(w.spec.nodes[id], s.values, CaughtBy(s, id));
    Finish(s, id, Str(to), Some(to))
  }

  /** Start a node: a call or a map is in flight; a switch routes at once, and cancels the ways it did not take. */
  function Start(w: World, s: State, id: Id): State
    requires id in w.spec.nodes && id in s.reports
  {
    var node := w.spec.nodes[id];
    if node.Switch? then
      var routed := Select(w, s, id);
      CancelAll(w.spec, routed, Unselected(TargetsOf(node), routed.reports[id].selected.value))
    else
      s.(reports := s.reports[id := s.reports[id].(status := Running)],
         inFlight := s.inFlight[id := Will(NodeOutcome(node, w.handlers, id, s.values, w.supplied.elements))])
  }

  function StartAll(w: World, s: State, ids: seq<Id>): State
    requires forall id :: id in ids ==> id in w.spec.nodes
    decreases |ids|
  {
    if ids == [] then s
    else if ids[0] in s.reports then StartAll(w, Start(w, s, ids[0]), ids[1..])
    else StartAll(w, s, ids[1..])
  }

  /** The switch that catches a node's fault: never a refusal's, and only one still to route, or stopped by an abort. */
  function Catching(w: World, s: State, id: Id, failure: Outcome): Option<Id> {
    var catcher := CatcherOf(w.spec, id);
    if catcher.None? || failure.Refused? then None
    else if PendingAt(s, catcher.value) || s.ending == Some(EndCancelled) then catcher
    else None
  }

  function Fail(w: World, s: State, id: Id, failure: Outcome): State
    requires id in s.reports
  {
    var catcher := Catching(w, s, id, failure);
    var failed := s.(
      reports := s.reports[id := s.reports[id].(status := Failed, failure := Some(failure), caught := catcher)],
      inFlight := s.inFlight[id := Landed]);
    if catcher.Some? then failed else End(failed, EndFailed)
  }

  /** A handler came to something: its answer is what others read, its failure is caught or ends the run. */
  function Land(w: World, s: State, id: Id, outcome: Outcome): State
    requires id in s.reports
  {
    match outcome
    case Answer(value) => Finish(s, id, value, None)
    case failure => Fail(w, s, id, failure)
  }

  /** A node that landed is settled: it takes the next place in order, and is no longer in flight. */
  function Settle(s: State, id: Id): State
    requires id in s.reports
  {
    s.(reports := s.reports[id := s.reports[id].(order := Some(s.settles + 1))],
       settles := s.settles + 1, inFlight := s.inFlight - {id})
  }

  // ---- steps ------------------------------------------------------------------------------------

  /** What may happen next: a batch starts, a handler lands, a node settles, or the run's signal fires. */
  datatype Step = Batch | Lands(id: Id, outcome: Outcome) | Settles(id: Id) | Abort

  /**
   * When each may happen. A handler comes to what it was going to while the run goes on; once the run has ended it
   * may come to anything, since a map then holds its elements back and a handler may heed the signal.
   */
  predicate Enabled(w: World, s: State, step: Step) {
    match step
    case Batch => Ready(w, s) != []
    case Lands(id, outcome) =>
      id in s.reports && id in s.inFlight && s.inFlight[id].Will? &&
      (s.ending.None? ==> outcome == s.inFlight[id].outcome)
    case Settles(id) => id in s.reports && id in s.inFlight && s.inFlight[id].Landed?
    case Abort => true
  }

  function After(w: World, s: State, step: Step): State
    requires Enabled(w, s, step)
  {
    match step
    case Batch => StartAll(w, s, Ready(w, s))
    case Lands(id, outcome) => Land(w, s, id, outcome)
    case Settles(id) => Settle(s, id)
    case Abort => End(s, EndCancelled)
  }

  /** A run, from its initial state: the states it passes through, and the step between each and the next. */
  ghost predicate IsRun(w: World, states: seq<State>, steps: seq<Step>) {
    |states| == |steps| + 1 && states[0] == Initial(w) &&
    forall i :: 0 <= i < |steps| ==> Enabled(w, states[i], steps[i]) && states[i + 1] == After(w, states[i], steps[i])
  }

  /** Nothing is ready and nothing is in flight: the scheduler's loop is over. */
  predicate Quiescent(w: World, s: State) {
    Ready(w, s) == [] && s.inFlight == map[]
  }

  // ---- the report -------------------------------------------------------------------------------

  datatype RunStatus = RunDone | RunFailed | RunCancelled | RunBlocked

  /** What a run reports: how it ended, the candidate that answered and its value, or what was never supplied. */
  datatype Report = Report(
    status: RunStatus, nodes: map<Id, NodeReport>, output: Option<Json>, answeredBy: Option<Id>,
    needs: set<(string, Path)>)

  function FirstAnswered(s: State, candidates: seq<Id>): (answer: Option<Id>)
    ensures answer.Some? ==> answer.value in candidates && answer.value in s.reports && Answers(s.reports[answer.value])
    ensures answer.None? ==> forall id :: id in candidates && id in s.reports ==> !Answers(s.reports[id])
  {
    if candidates == [] then None
    else if candidates[0] in s.reports && Answers(s.reports[candidates[0]]) then Some(candidates[0])
    else FirstAnswered(s, candidates[1..])
  }

  /** The root paths pending nodes read that were never supplied. */
  function Needs(w: World, s: State): set<(string, Path)> {
    set id, path | id in w.spec.nodes && PendingAt(s, id) && path in NodePaths(w.spec.nodes[id]) &&
      path.0 in PSEUDO && path.0 !in s.values :: path
  }

  function ReportOf(w: World, s: State): Report {
    if s.ending == Some(EndFailed) then Report(RunFailed, s.reports, None, None, {})
    else if s.ending == Some(EndCancelled) then Report(RunCancelled, s.reports, None, None, {})
    else if w.spec.output.None? then Report(RunDone, s.reports, None, None, {})
    else
      var answer := FirstAnswered(s, w.spec.output.value);
      if answer.Some? then Report(RunDone, s.reports, Lookup(s.values, answer.value), answer, {})
      else Report(RunBlocked, s.reports, None, None, Needs(w, s))
  }
}
