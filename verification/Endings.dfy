/** How runs end: what stands once one has, which node a failed report names, and in what order nodes settled. */
module Endings {
  import opened Json
  import opened Outcomes
  import opened KernelSpec
  import opened Fates
  import opened Kernel
  import opened Agreement
  import opened Steps
  import opened RunLaws
  import opened Meaning

  // ---- after an ending --------------------------------------------------------------------------

  lemma {:induction false} EndedHasNoneReady(w: World, s: State, order: seq<Id>)
    requires s.ending.Some?
    ensures ReadyIn(w, s, order) == []
  {
    if order != [] {
      EndedHasNoneReady(w, s, order[1..]);
    }
  }

  lemma EndedStartsNothing(w: World, s: State, step: Step, id: Id)
    requires w.Sound() && Inv(w, s, {}, {}) && s.ending.Some? && Enabled(w, s, step) && id in s.reports
    ensures Started(After(w, s, step), id) ==> Started(s, id)
    ensures id in After(w, s, step).reports
  {
    hide FateOf, WellFormed, Inv, CatcherOf, ReadyIn, ShapeAt;
    EndedHasNoneReady(w, s, w.spec.order);
    InvShape(w, s);
    if step.Lands? {
      InFlightIsRunning(w, s, step.id);
    }
  }

  /** Once a run has ended no step of it starts a node, and no node of it is pending. */
  lemma {:induction false} NothingStartsAfter(w: World, states: seq<State>, steps: seq<Step>, i: nat, j: nat, id: Id)
    requires w.Sound() && IsRun(w, states, steps) && i <= j < |states| && states[i].ending.Some? && id in w.spec.nodes
    ensures Started(states[j], id) ==> Started(states[i], id)
    ensures !PendingAt(states[j], id)
    decreases j
  {
    hide FateOf, WellFormed, Inv, Enabled, After, Started;
    RunKeeps(w, states, steps, j);
    InvShape(w, states[j]);
    FirstEndingStands(w, states, steps, i, j);
    EndedIsNotPending(w, states[j]);
    assert id !in PendingOf(states[j]);
    if i < j {
      NothingStartsAfter(w, states, steps, i, j - 1, id);
      FirstEndingStands(w, states, steps, i, j - 1);
      RunKeeps(w, states, steps, j - 1);
      InvShape(w, states[j - 1]);
      EndedStartsNothing(w, states[j - 1], steps[j - 1], id);
      assert states[j - 1 + 1] == After(w, states[j - 1], steps[j - 1]);
    }
  }

  /** A node that failed is caught: it broke rather than refused, and its switch was neither given nor cancelled. */
  ghost predicate CaughtIfFailed(w: World, s: State, id: Id) {
    id in s.reports &&
    var r := s.reports[id];
    r.status.Failed? ==>
      r.failure.Some? && r.failure.value.Fault? && r.caught == CatcherOf(w.spec, id) && r.caught.Some? &&
      Lives(s, r.caught.value, {})
  }

  /** While a run has not ended, every node of it that failed is caught. */
  lemma FailedIsCaught(w: World, states: seq<State>, steps: seq<Step>, n: nat, id: Id)
    requires w.Sound() && IsRun(w, states, steps) && n < |states| && states[n].ending.None? && id in w.spec.nodes
    ensures CaughtIfFailed(w, states[n], id)
  {
    hide FateOf, WellFormed, CatcherOf, WaitsFor, Inv, IsRun;
    RunKeeps(w, states, steps, n);
    InvShape(w, states[n]);
    assert ShapeAt(w, states[n], id) && AgreesAt(w, states[n], {}, id);
  }

  // ---- a failed run has a node that failed it ---------------------------------------------------

  predicate Uncaught(s: State, n: Id) {
    n in s.reports && s.reports[n].status.Failed? && s.reports[n].caught.None?
  }

  ghost predicate Named(s: State) {
    s.ending == Some(EndFailed) ==> exists n :: Uncaught(s, n)
  }

  ghost predicate CaughtFailed(s: State) {
    forall n :: n in s.reports && s.reports[n].caught.Some? ==> s.reports[n].status.Failed?
  }

  lemma CancellingKeepsUncaught(s: State, s': State)
    requires OnlyCancels(s, s')
    ensures CaughtFailed(s) ==> CaughtFailed(s')
    ensures forall n :: Uncaught(s, n) ==> Uncaught(s', n)
  {
    forall n | Uncaught(s, n) ensures Uncaught(s', n) {
      assert OnlyCancelled(s.reports[n], s'.reports[n], s'.ending);
    }
    if CaughtFailed(s) {
      forall n | n in s'.reports && s'.reports[n].caught.Some? ensures s'.reports[n].status.Failed? {
        assert OnlyCancelled(s.reports[n], s'.reports[n], s'.ending);
      }
    }
  }

  lemma LetGoNames(s: State, id: Id)
    requires CaughtFailed(s) && Named(s)
    ensures Named(LetGo(s, id))
  {
    LetGoOnlyCancels(s, id);
    CancellingKeepsUncaught(s, LetGo(s, id));
    if HoldsFault(s, id) {
      var n :| n in s.reports && s.reports[n].caught == Some(id);
      assert Uncaught(LetGo(s, id), n);
    }
  }

  lemma {:induction false} CancelNames(spec: Spec, s: State, id: Id)
    requires CaughtFailed(s) && Named(s)
    ensures Named(Cancel(spec, s, id))
    decreases PendingOf(s), 0
  {
    if PendingAt(s, id) {
      hide CaughtFailed, Named, Dependents;
      var cancelled := Mark(s, id);
      assert id in PendingOf(s) && id !in PendingOf(cancelled) && PendingOf(cancelled) <= PendingOf(s);
      assert OnlyCancels(s, Mark(s, id)) && Mark(s, id).ending == s.ending;
      CancellingKeepsUncaught(s, cancelled);
      StaysNamed(s, cancelled);
      CancelAllNames(spec, cancelled, Dependents(spec, id));
      CancelAllOnlyCancels(spec, cancelled, Dependents(spec, id));
      var spread := CancelAll(spec, cancelled, Dependents(spec, id));
      CancellingKeepsUncaught(cancelled, spread);
      LetGoNames(spread, id);
    }
  }

  lemma StaysNamed(s: State, s': State)
    requires Named(s) && s'.ending == s.ending && forall n :: Uncaught(s, n) ==> Uncaught(s', n)
    ensures Named(s')
  {
    hide Uncaught;
    if s.ending == Some(EndFailed) {
      var n :| Uncaught(s, n);
      assert Uncaught(s', n);
    }
  }

  lemma {:induction false} CancelAllNames(spec: Spec, s: State, ids: seq<Id>)
    requires CaughtFailed(s) && Named(s)
    ensures Named(CancelAll(spec, s, ids))
    decreases PendingOf(s), |ids| + 1
  {
    hide CaughtFailed, Named, Cancel;
    if ids != [] {
      CancelNames(spec, s, ids[0]);
      CancelOnlyCancels(spec, s, ids[0]);
      CancellingKeepsUncaught(s, Cancel(spec, s, ids[0]));
      CancelAllNames(spec, Cancel(spec, s, ids[0]), ids[1..]);
    }
  }

  lemma MovedStaysNamed(s: State, s': State, id: Id)
    requires OnlyMoves(s, s', id) && Named(s) && CaughtFailed(s) && s'.reports[id].caught.None?
    requires !s.reports[id].status.Failed?
    ensures Named(s') && CaughtFailed(s')
  {
    forall n | Uncaught(s, n) ensures Uncaught(s', n) {
      assert n != id;
    }
    StaysNamed(s, s');
  }

  lemma ShapeCaughtFailed(w: World, s: State)
    requires Shape(w, s)
    ensures CaughtFailed(s)
  {
    forall n | n in s.reports && s.reports[n].caught.Some? ensures s.reports[n].status.Failed? {
      assert ShapeAt(w, s, n);
    }
  }

  lemma StartNames(w: World, s: State, id: Id)
    requires Shape(w, s) && Named(s) && id in w.spec.nodes && id in s.reports && (PendingAt(s, id) || CancelledAt(s, id))
    ensures Named(Start(w, s, id))
  {
    hide Shape, Named, CaughtFailed, OnlyMoves, CancelAll, NodeOutcome, RouteOf, TargetsOf, Unselected, CaughtBy;
    ShapeCaughtFailed(w, s);
    PendingIsUntouched(w, s, id);
    if w.spec.nodes[id].Switch? {
      SelectMoves(w, s, id);
      var routed := Select(w, s, id);
      MovedStaysNamed(s, routed, id);
      CancelAllNames(w.spec, routed, Unselected(TargetsOf(w.spec.nodes[id]), routed.reports[id].selected.value));
    } else {
      StartCallMoves(w, s, id);
      MovedStaysNamed(s, Start(w, s, id), id);
    }
  }

  lemma {:induction false} StartAllNames(w: World, s: State, ids: seq<Id>)
    requires w.Sound() && Inv(w, s, {}, {}) && Distinct(ids) && forall id :: id in ids ==> Startable(w, s, id)
    requires Named(s)
    ensures (forall id :: id in ids ==> id in w.spec.nodes) && Named(StartAll(w, s, ids))
    decreases |ids|
  {
    hide FateOf, WellFormed, Start, Inv, IsReady, Named;
    if ids != [] {
      InvShape(w, s);
      assert Startable(w, s, ids[0]);
      if s.ending.None? {
        ReadyIsPending(w, s, ids[0]);
      }
      StartNames(w, s, ids[0]);
      StartKeeps(w, s, ids[0]);
      forall id | id in ids[1..] ensures Startable(w, Start(w, s, ids[0]), id) {
        StartLeavesStartable(w, s, ids[0], id);
      }
      StartAllNames(w, Start(w, s, ids[0]), ids[1..]);
    }
  }

  lemma BatchNames(w: World, s: State)
    requires w.Sound() && Inv(w, s, {}, {}) && Named(s)
    ensures Named(StartAll(w, s, Ready(w, s)))
  {
    hide FateOf, StartAll, Inv, WaitsFor, TargetsExist, RoutedOnce, Ranked, Named;
    ListedOnce(w.spec);
    ReadyIsDistinct(w, s, w.spec.order);
    forall id | id in Ready(w, s) ensures Startable(w, s, id) {
      ReadyIsPending(w, s, id);
    }
    StartAllNames(w, s, Ready(w, s));
  }

  lemma LandNames(w: World, s: State, id: Id, outcome: Outcome)
    requires Shape(w, s) && Named(s) && id in w.spec.nodes && id in s.inFlight && s.inFlight[id].Will?
    ensures id in s.reports && Named(Land(w, s, id, outcome))
  {
    hide CatcherOf, ShapeAt;
    ShapeKeys(w, s);
    InFlightIsRunning(w, s, id);
    var s' := Land(w, s, id, outcome);
    forall n | Uncaught(s, n) ensures Uncaught(s', n) {}
    if !outcome.Answer? && Catching(w, s, id, outcome).None? {
      assert Uncaught(s', id);
    } else {
      StaysNamed(s, s');
    }
  }

  lemma StepNames(w: World, s: State, step: Step)
    requires w.Sound() && Inv(w, s, {}, {}) && Named(s) && Enabled(w, s, step)
    ensures Named(After(w, s, step))
  {
    hide FateOf, WellFormed, Inv, StartAll, Land, Ready, Named, ShapeAt;
    InvShape(w, s);
    match step
    case Batch => BatchNames(w, s);
    case Lands(id, outcome) => LandNames(w, s, id, outcome);
    case Settles(id) =>
      forall n | Uncaught(s, n) ensures Uncaught(After(w, s, step), n) {}
      StaysNamed(s, After(w, s, step));
    case Abort => AbortNames(s);
  }

  lemma AbortNames(s: State)
    requires Named(s)
    ensures Named(End(s, EndCancelled))
  {
    var s' := End(s, EndCancelled);
    forall n | Uncaught(s, n) ensures Uncaught(s', n) {}
    if s.ending.Some? {
      StaysNamed(s, s');
    }
  }

  /** In every state of every run that failed, some node failed and no switch holds its fault. */
  lemma {:induction false} FailedRunIsNamed(w: World, states: seq<State>, steps: seq<Step>, n: nat)
    requires w.Sound() && IsRun(w, states, steps) && n < |states|
    ensures Named(states[n])
  {
    hide FateOf, WellFormed, Inv, Enabled, After, Named;
    if n == 0 {
      assert Named(Initial(w)) by { InitialIsNamed(w); }
    } else {
      FailedRunIsNamed(w, states, steps, n - 1);
      RunKeeps(w, states, steps, n - 1);
      StepNames(w, states[n - 1], steps[n - 1]);
      assert states[n - 1 + 1] == After(w, states[n - 1], steps[n - 1]);
    }
  }

  lemma InitialIsNamed(w: World)
    ensures Named(Initial(w))
  {
  }

  // ---- the order nodes settle in ----------------------------------------------------------------

  predicate Over(report: NodeReport) {
    report.status.Done? || report.status.Failed?
  }

  ghost predicate OrderedAt(s: State, id: Id) {
    id in s.reports &&
    (s.reports[id].order.Some? <==> Over(s.reports[id]) && id !in s.inFlight) &&
    (s.reports[id].order.Some? ==> 1 <= s.reports[id].order.value <= s.settles)
  }

  /** A node has a place once it is settled, and no two nodes have the same. */
  ghost predicate Ordered(s: State) {
    (forall id :: id in s.reports ==> OrderedAt(s, id)) &&
    (forall a, b {:trigger s.reports[a], s.reports[b]} ::
      a in s.reports && b in s.reports && a != b && s.reports[a].order.Some? ==>
      s.reports[a].order != s.reports[b].order)
  }

  /** What changes no place: every report keeps its own, and is over or not as it was. */
  ghost predicate PlacesStay(s: State, s': State) {
    s'.reports.Keys == s.reports.Keys && s'.settles == s.settles &&
    forall id :: id in s.reports ==> PlaceStays(s, s', id)
  }

  ghost predicate PlaceStays(s: State, s': State, id: Id) {
    id in s.reports && id in s'.reports && s'.reports[id].order == s.reports[id].order &&
    ((Over(s'.reports[id]) && id !in s'.inFlight) <==> (Over(s.reports[id]) && id !in s.inFlight))
  }

  lemma PlacesStayOrdered(s: State, s': State)
    requires Ordered(s) && PlacesStay(s, s')
    ensures Ordered(s')
  {
    forall id | id in s'.reports ensures OrderedAt(s', id) {
      assert OrderedAt(s, id) && PlaceStays(s, s', id);
    }
    forall a, b | a in s'.reports && b in s'.reports && a != b && s'.reports[a].order.Some?
      ensures s'.reports[a].order != s'.reports[b].order
    {
      assert PlaceStays(s, s', a) && PlaceStays(s, s', b);
    }
  }

  lemma CancellingKeepsPlaces(s: State, s': State)
    requires OnlyCancels(s, s')
    ensures PlacesStay(s, s')
  {
    forall id | id in s.reports ensures PlaceStays(s, s', id) {
      assert OnlyCancelled(s.reports[id], s'.reports[id], s'.ending);
    }
  }

  lemma EndKeepsPlaces(s: State, how: Ending)
    ensures PlacesStay(s, End(s, how))
  {
  }

  lemma PlacesTrans(s: State, s': State, s'': State)
    requires PlacesStay(s, s') && PlacesStay(s', s'')
    ensures PlacesStay(s, s'')
  {
    forall id | id in s.reports ensures PlaceStays(s, s'', id) {
      assert PlaceStays(s, s', id) && PlaceStays(s', s'', id);
    }
  }

  /** A node that starts is in flight, so it has no place yet, and had none. */
  lemma StartKeepsPlaces(w: World, s: State, id: Id)
    requires Shape(w, s) && id in w.spec.nodes && (PendingAt(s, id) || CancelledAt(s, id))
    ensures id in s.reports && PlacesStay(s, Start(w, s, id))
  {
    hide Shape, CancelAll, NodeOutcome, RouteOf, TargetsOf, Unselected, CaughtBy, OnlyCancels, PlacesStay;
    PendingIsUntouched(w, s, id);
    if w.spec.nodes[id].Switch? {
      var routed := Select(w, s, id);
      assert PlacesStay(s, routed) by { SelectKeepsPlaces(w, s, id); }
      var ids := Unselected(TargetsOf(w.spec.nodes[id]), routed.reports[id].selected.value);
      CancelAllOnlyCancels(w.spec, routed, ids);
      CancellingKeepsPlaces(routed, CancelAll(w.spec, routed, ids));
      PlacesTrans(s, routed, CancelAll(w.spec, routed, ids));
    } else {
      StartCallKeepsPlaces(w, s, id);
    }
  }

  lemma SelectKeepsPlaces(w: World, s: State, id: Id)
    requires id in w.spec.nodes && id in s.reports && w.spec.nodes[id].Switch? && !Over(s.reports[id])
    ensures PlacesStay(s, Select(w, s, id))
  {
    hide RouteOf, CaughtBy;
  }

  lemma StartCallKeepsPlaces(w: World, s: State, id: Id)
    requires id in w.spec.nodes && id in s.reports && !w.spec.nodes[id].Switch? && !Over(s.reports[id])
    ensures PlacesStay(s, Start(w, s, id))
  {
    hide NodeOutcome, CancelAll, Select;
  }

  lemma {:induction false} StartAllKeepsPlaces(w: World, s: State, ids: seq<Id>)
    requires w.Sound() && Inv(w, s, {}, {}) && Distinct(ids) && forall id :: id in ids ==> Startable(w, s, id)
    ensures (forall id :: id in ids ==> id in w.spec.nodes) && PlacesStay(s, StartAll(w, s, ids))
    decreases |ids|
  {
    hide FateOf, WellFormed, Start, Inv, IsReady, PlaceStays;
    if ids != [] {
      InvShape(w, s);
      assert Startable(w, s, ids[0]);
      if s.ending.None? {
        ReadyIsPending(w, s, ids[0]);
      }
      StartKeepsPlaces(w, s, ids[0]);
      StartKeeps(w, s, ids[0]);
      forall id | id in ids[1..] ensures Startable(w, Start(w, s, ids[0]), id) {
        StartLeavesStartable(w, s, ids[0], id);
      }
      StartAllKeepsPlaces(w, Start(w, s, ids[0]), ids[1..]);
      PlacesTrans(s, Start(w, s, ids[0]), StartAll(w, s, ids));
    } else {
      assert PlacesStay(s, s) by { CancelsNothing(s); CancellingKeepsPlaces(s, s); }
    }
  }

  lemma BatchKeepsPlaces(w: World, s: State)
    requires w.Sound() && Inv(w, s, {}, {})
    ensures PlacesStay(s, StartAll(w, s, Ready(w, s)))
  {
    hide FateOf, StartAll, Inv, WaitsFor, TargetsExist, RoutedOnce, Ranked, PlacesStay;
    ListedOnce(w.spec);
    ReadyIsDistinct(w, s, w.spec.order);
    forall id | id in Ready(w, s) ensures Startable(w, s, id) {
      ReadyIsPending(w, s, id);
    }
    StartAllKeepsPlaces(w, s, Ready(w, s));
  }

  lemma LandKeepsPlaces(w: World, s: State, id: Id, outcome: Outcome)
    requires id in s.reports && id in s.inFlight
    ensures PlacesStay(s, Land(w, s, id, outcome))
  {
    hide Catching;
  }

  lemma SettleOrders(w: World, s: State, id: Id)
    requires Shape(w, s) && Ordered(s) && id in s.reports && id in s.inFlight && s.inFlight[id].Landed?
    ensures Ordered(Settle(s, id))
  {
    hide CatcherOf;
    ShapeKeys(w, s);
    assert ShapeAt(w, s, id);
    var s' := Settle(s, id);
    forall n | n in s'.reports ensures OrderedAt(s', n) {
      assert OrderedAt(s, n);
    }
    forall a, b | a in s'.reports && b in s'.reports && a != b && s'.reports[a].order.Some?
      ensures s'.reports[a].order != s'.reports[b].order
    {
      assert OrderedAt(s, a) && OrderedAt(s, b);
    }
  }

  lemma StepOrders(w: World, s: State, step: Step)
    requires w.Sound() && Inv(w, s, {}, {}) && Ordered(s) && Enabled(w, s, step)
    ensures Ordered(After(w, s, step))
  {
    hide FateOf, WellFormed, Inv, StartAll, Land, Ready, Ordered, PlacesStay, Settle, End;
    InvShape(w, s);
    match step
    case Batch =>
      BatchKeepsPlaces(w, s);
      PlacesStayOrdered(s, After(w, s, step));
    case Lands(id, outcome) =>
      LandKeepsPlaces(w, s, id, outcome);
      PlacesStayOrdered(s, After(w, s, step));
    case Settles(id) => SettleOrders(w, s, id);
    case Abort =>
      EndKeepsPlaces(s, EndCancelled);
      PlacesStayOrdered(s, After(w, s, step));
  }

  lemma InitialIsOrdered(w: World)
    ensures Ordered(Initial(w))
  {
  }

  /** In every state of every run, the settled nodes and no others have a place, and each its own. */
  lemma {:induction false} RunOrders(w: World, states: seq<State>, steps: seq<Step>, n: nat)
    requires w.Sound() && IsRun(w, states, steps) && n < |states|
    ensures Ordered(states[n])
  {
    hide FateOf, WellFormed, Inv, Enabled, After, Ordered;
    if n == 0 {
      InitialIsOrdered(w);
    } else {
      RunOrders(w, states, steps, n - 1);
      RunKeeps(w, states, steps, n - 1);
      StepOrders(w, states[n - 1], steps[n - 1]);
      assert states[n - 1 + 1] == After(w, states[n - 1], steps[n - 1]);
    }
  }
}
