/**
 * One run of one spec, as the kernel executes it: fields that starting, failing, cancelling and settling update, and
 * the scheduler's loop over them.
 */
module Running {
  import opened Json
  import opened Sources
  import opened Outcomes
  import opened KernelSpec
  import opened Plans
  import opened Fates
  import opened Kernel
  import opened Agreement
  import opened Steps
  import opened RunLaws
  import opened Confluence
  import opened Meaning

  class Run {
    const world: World
    const plan: Plan
    var values: Values
    var reports: map<Id, NodeReport>
    /** How the run ended before quiescence, once it has; the first ending stands. */
    var ending: Option<Ending>
    /** What every node in flight will come to: its handler's promise. */
    var inFlight: map<Id, Promise>
    var running: nat
    /** How many nodes have settled. */
    var settles: nat

    function At(): State
      reads this
    {
      State(values, reports, ending, inFlight, settles)
    }

    ghost predicate Valid()
      reads this
    {
      IsPlanOf(plan, world.spec) && Listed(world.spec) && reports.Keys == world.spec.nodes.Keys &&
      running == |inFlight|
    }

    constructor (world: World, plan: Plan)
      requires Listed(world.spec) && IsPlanOf(plan, world.spec)
      ensures this.world == world && Valid() && At() == Initial(world)
    {
      hide IsPlanOf, Listed;
      this.world, this.plan := world, plan;
      values, ending, inFlight, running, settles := world.supplied.values, None, map[], 0, 0;
      reports := map[];
      new;
      ListedIds(world.spec);
      for i := 0 to |world.spec.order|
        invariant values == world.supplied.values && ending == None && inFlight == map[] && running == 0 && settles == 0
        invariant reports == map id | id in world.spec.order[..i] :: InitialReport(values, id)
      {
        var id := world.spec.order[i];
        reports := reports[id := InitialReport(values, id)];
      }
      assert world.spec.order[..|world.spec.order|] == world.spec.order;
      assert reports == map id | id in world.spec.nodes :: InitialReport(values, id);
    }

    // ---- readiness ------------------------------------------------------------------------------

    predicate DependenciesSettled(id: Id)
      requires Valid() && id in world.spec.nodes
      reads this
    {
      hide IsPlanOf, Listed, WaitsFor;
      PlanSays(plan, world.spec, id);
      forall d :: d in plan.dependencies[id] ==> MetAt(At(), id, d)
    }

    /** A pending node runs once every dependency settled, its router chose it, and every root it reads is supplied. */
    method IsReadyNow(id: Id) returns (ready: bool)
      requires Valid() && id in world.spec.nodes
      ensures ready == IsReady(world, At(), id)
    {
      hide IsPlanOf, Listed, WaitsFor, RouterOf, NodeRefs;
      PlanSays(plan, world.spec, id);
      ready := ending.None? && reports[id].status.Pending? && DependenciesSettled(id) &&
        RootsSupplied(world.spec.nodes[id], values);
      if ready && id in plan.routedBy {
        var router := plan.routedBy[id];
        ready := router in reports && reports[router].selected == Some(id);
      }
    }

    /** Everything ready, in the order it is written in. */
    method ReadyNow() returns (ready: seq<Id>)
      requires Valid()
      ensures ready == Ready(world, At())
    {
      hide IsReady, IsPlanOf, Listed, ReadyIn, Picked;
      ghost var s := At();
      ready := [];
      PickedNone(world, s, world.spec.order);
      for i := 0 to |world.spec.order|
        invariant ready == Picked(world, s, world.spec.order, i)
      {
        var id := world.spec.order[i];
        ListedAt(world.spec, i);
        PickedStep(world, s, world.spec.order, i);
        var isReady := IsReadyNow(id);
        if isReady {
          ready := ready + [id];
        }
      }
      PickedAll(world, s, world.spec.order);
    }

    // ---- ending and cancelling ------------------------------------------------------------------

    /** The run is over: nothing still pending starts. */
    method EndAs(how: Ending)
      requires Valid()
      modifies this
      ensures Valid() && At() == End(old(At()), how)
    {
      hide IsPlanOf, Listed;
      ghost var before := reports;
      if ending.None? {
        ending := Some(how);
      }
      for i := 0 to |world.spec.order|
        invariant Valid() && values == old(values) && inFlight == old(inFlight) && settles == old(settles)
        invariant ending == if old(ending).None? then Some(how) else old(ending)
        invariant reports == StopAll(before, world.spec.order[..i])
      {
        var id := world.spec.order[i];
        ListedAt(world.spec, i);
        StopStep(before, world.spec.order, i);
        if reports[id].status.Pending? {
          reports := reports[id := reports[id].(status := Cancelled)];
        }
      }
      assert world.spec.order[..|world.spec.order|] == world.spec.order;
      AllStopped(world.spec, before);
    }

    /** The run's signal fired. */
    method CancelRun()
      requires Valid()
      modifies this
      ensures Valid() && At() == End(old(At()), EndCancelled)
    {
      EndAs(EndCancelled);
    }

    /** Cancel a pending node and, transitively, whatever waits for it. */
    method CancelNode(id: Id)
      requires Valid()
      modifies this
      ensures Valid() && At() == Cancel(world.spec, old(At()), id)
      decreases PendingOf(At())
    {
      hide IsPlanOf, Listed, Dependents, LetGo, Cancel, CancelAll;
      PlanSays(plan, world.spec, id);
      CancelUnfolds(world.spec, At(), id);
      if id !in reports || !reports[id].status.Pending? {
        return;
      }
      ghost var before := At();
      reports := reports[id := reports[id].(status := Cancelled)];
      ghost var cancelled := At();
      assert cancelled == Mark(before, id);
      MarkIsFewer(before, id);
      var dependents := Waiting(plan.dependents, id);
      for i := 0 to |dependents|
        invariant Valid() && PendingOf(At()) <= PendingOf(cancelled)
        invariant CancelAll(world.spec, At(), dependents[i..]) == CancelAll(world.spec, cancelled, dependents)
      {
        assert dependents[i..] == [dependents[i]] + dependents[i + 1..];
        CancelFirst(world.spec, At(), dependents[i], dependents[i + 1..]);
        CancelNode(dependents[i]);
      }
      CancelNone(world.spec, At());
      LetGoOf(id);
    }

    /** What a cancelled switch held ends the run. */
    method LetGoOf(id: Id)
      requires Valid()
      modifies this
      ensures Valid() && At() == LetGo(old(At()), id)
    {
      hide IsPlanOf, LetGo, ReleasedAmong, HeldAmong, End;
      ListedOnce(world.spec);
      NoneReleased(At(), id);
      ghost var before := At();
      ghost var held := false;
      for i := 0 to |world.spec.order|
        invariant Valid() && held == HeldAmong(before, world.spec.order[..i], id)
        invariant At() == ReleasedAmong(before, world.spec.order[..i], id)
      {
        var n := world.spec.order[i];
        HeldStep(before, world.spec.order, i, id);
        assert n !in world.spec.order[..i];
        if reports[n].caught == Some(id) {
          held := true;
          reports := reports[n := reports[n].(caught := None)];
          EndAs(EndFailed);
        }
        ReleaseStep(before, world.spec.order, i, id);
      }
      assert world.spec.order[..|world.spec.order|] == world.spec.order;
      AllReleased(before, world.spec.order, id);
    }

    // ---- running a node -------------------------------------------------------------------------

    /** The node answered: its value is what others read. */
    method FinishNode(id: Id, value: Json, selected: Option<Id>)
      requires Valid() && id in reports && id in inFlight
      modifies this
      ensures Valid() && At() == Finish(old(At()), id, value, selected)
    {
      hide IsPlanOf, Listed;
      values := values[id := value];
      reports := reports[id := reports[id].(status := Done, selected := selected)];
      SameFlight(inFlight, id, Landed);
      inFlight := inFlight[id := Landed];
    }

    /** Which switch catches a node's fault. */
    function CatcherNow(id: Id, failure: Outcome): Option<Id>
      requires Valid()
      reads this
      ensures CatcherNow(id, failure) == Catching(world, At(), id, failure)
    {
      hide IsPlanOf, Listed, CatcherOf;
      PlanCatches(plan, world.spec, id);
      if id !in plan.catchers || failure.Refused? then None
      else
        var catcher := plan.catchers[id];
        if (catcher in reports && reports[catcher].status.Pending?) || ending == Some(EndCancelled) then Some(catcher)
        else None
    }

    /** A node broke or refused: the run is over, unless a switch catches its fault. */
    method FailNode(id: Id, failure: Outcome)
      requires Valid() && id in reports && id in inFlight
      modifies this
      ensures Valid() && At() == Fail(world, old(At()), id, failure)
    {
      hide IsPlanOf, Listed, End, Catching;
      var catcher := CatcherNow(id, failure);
      SameFlight(inFlight, id, Landed);
      inFlight := inFlight[id := Landed];
      reports := reports[id := reports[id].(status := Failed, failure := Some(failure), caught := catcher)];
      if catcher.None? {
        EndAs(EndFailed);
      }
    }

    /** A switch routes, and cancels the ways it did not take. */
    method RunSwitch(id: Id)
      requires Valid() && id in world.spec.nodes && world.spec.nodes[id].Switch? && id in inFlight
      modifies this
      ensures Valid() && At() == Routing(world, old(At()), id)
    {
      hide IsPlanOf, Listed, RouteOf, CaughtBy, TargetsOf, Cancel, Finish;
      var node := world.spec.nodes[id];
      var selected := RouteOf(node, values, CaughtBy(At(), id));
      FinishNode(id, Str(selected), Some(selected));
      ghost var routed := At();
      var targets := TargetsOf(node);
      for i := 0 to |targets|
        invariant Valid()
        invariant CancelAll(world.spec, At(), Unselected(targets[i..], selected)) ==
          CancelAll(world.spec, routed, Unselected(targets, selected))
      {
        assert targets[i..][1..] == targets[i + 1..];
        if targets[i] != selected {
          CancelFirst(world.spec, At(), targets[i], Unselected(targets[i + 1..], selected));
          CancelNode(targets[i]);
        } else {
          assert [] + Unselected(targets[i + 1..], selected) == Unselected(targets[i + 1..], selected);
        }
      }
      assert targets[|targets|..] == [];
    }

    /** Mark a node as running: its handler's promise is in flight. */
    method Launch(id: Id, promise: Promise)
      requires Valid() && id in reports && id !in inFlight
      modifies this
      ensures Valid() && At() == old(At()).(
        reports := old(reports)[id := old(reports)[id].(status := Kernel.Running)], inFlight := old(inFlight)[id := promise])
    {
      hide IsPlanOf, Listed;
      NewFlight(inFlight, id, promise);
      reports := reports[id := reports[id].(status := Kernel.Running)];
      inFlight := inFlight[id := promise];
      running := running + 1;
    }

    /** Start a node: a switch routes at once, and anything else is in flight. */
    method StartNode(id: Id)
      requires Valid() && id in world.spec.nodes && id !in inFlight
      modifies this
      ensures Valid() && At() == Start(world, old(At()), id)
    {
      hide NodeOutcome, RouteOf, CancelAll, TargetsOf, Unselected, IsPlanOf, Listed;
      var node := world.spec.nodes[id];
      ghost var before := At();
      if node.Switch? {
        Launch(id, Landed);
        SameSwitch(world, before, At(), id);
        RunSwitch(id);
        assert At() == Start(world, before, id);
      } else {
        Launch(id, Will(NodeOutcome(node, world.handlers, id, values, world.supplied.elements)));
      }
    }

    /** A handler came to something. */
    method LandNode(id: Id, outcome: Outcome)
      requires Valid() && id in reports && id in inFlight
      modifies this
      ensures Valid() && At() == Land(world, old(At()), id, outcome)
    {
      hide IsPlanOf, Listed, Fail;
      match outcome
      case Answer(value) => FinishNode(id, value, None);
      case failure => FailNode(id, failure);
    }

    /** A node that landed takes its place in the order, and is no longer in flight. */
    method SettleNode(id: Id)
      requires Valid() && id in reports && id in inFlight
      modifies this
      ensures Valid() && At() == Settle(old(At()), id)
    {
      hide IsPlanOf, Listed;
      settles := settles + 1;
      reports := reports[id := reports[id].(order := Some(settles))];
      assert inFlight.Keys - {id} == (inFlight - {id}).Keys;
      assert |inFlight.Keys| == |inFlight| && |(inFlight - {id}).Keys| == |inFlight - {id}|;
      inFlight := inFlight - {id};
      running := running - 1;
    }

    // ---- the scheduler --------------------------------------------------------------------------

    /** Everything that was ready when the batch was drawn up starts, in order. */
    method StartBatch(ready: seq<Id>)
      requires Valid() && world.Sound() && Inv(world, At(), {}, {}) && ready == Ready(world, At())
      modifies this
      ensures Valid() && At() == StartAll(world, old(At()), ready)
    {
      hide IsPlanOf, Start, Inv, IsReady, FateOf, WellFormed, StartAll, Ready;
      BatchStarts(world, At());
      ghost var before := At();
      StartNone(world, At(), ready);
      for i := 0 to |ready|
        invariant Valid() && Inv(world, At(), {}, {}) && Distinct(ready[i..])
        invariant forall id :: id in ready[i..] ==> Startable(world, At(), id)
        invariant forall id :: id in ready ==> id in world.spec.nodes
        invariant StartAll(world, At(), ready[i..]) == StartAll(world, before, ready)
      {
        assert ready[i..] == [ready[i]] + ready[i + 1..];
        StartFirst(world, At(), ready[i], ready[i + 1..]);
        StartNode(ready[i]);
      }
      assert ready[|ready|..] == [];
      StartNone(world, At(), ready);
    }

    /** The signal fires: a step of the run that takes it no further from its end. */
    method Fire(ghost states: seq<State>, ghost steps: seq<Step>) returns (ghost states': seq<State>, ghost steps': seq<Step>)
      requires Valid() && world.Sound() && RunTo(world, states, steps, At())
      modifies this
      ensures Valid() && RunTo(world, states', steps', At()) && Measure(At()) <= old(Measure(At()))
    {
      hide IsPlanOf, WellFormed, RunTo, End, Measure;
      states', steps' := Extended(world, states, steps, At(), Abort);
      CancelRun();
    }

    /** Asleep until any node in flight lands or is settled: whichever comes first, and once the run is over whatever lands. */
    method Wait(ghost states: seq<State>, ghost steps: seq<Step>) returns (ghost states': seq<State>, ghost steps': seq<Step>)
      requires Valid() && world.Sound() && RunTo(world, states, steps, At()) && running > 0
      modifies this
      ensures Valid() && RunTo(world, states', steps', At()) && Measure(At()) < old(Measure(At()))
      ensures NoAbort(steps) ==> NoAbort(steps')
    {
      hide IsPlanOf, Inv, WellFormed, FateOf, Land, Settle, Measure, RunTo, NoAbort;
      FlightIsSome(inFlight);
      var id :| id in inFlight;
      RunToKeeps(world, states, steps, At());
      InFlightIsReported(world, At(), id);
      match inFlight[id]
      case Will(promised) =>
        var outcome := promised;
        if ending.Some? {
          outcome := *;
        }
        states', steps' := Extended(world, states, steps, At(), Lands(id, outcome));
        LandNode(id, outcome);
      case Landed =>
        states', steps' := Extended(world, states, steps, At(), Settles(id));
        SettleNode(id);
    }

    /**
     * Fire everything ready, wait for any node to land or settle or for the run's signal to fire, and so on until
     * nothing is in flight. Whichever comes first is not the scheduler's to say, and once the run has ended a handler
     * may come to anything. It is a run of the kernel, and what it comes to is what its spec means unless it is cancelled,
     * which only the signal does.
     */
    method Execute() returns (report: Report, fired: bool, ghost states: seq<State>, ghost steps: seq<Step>)
      requires Valid() && world.Sound() && At() == Initial(world)
      modifies this
      ensures IsRun(world, states, steps) && states[|steps|] == At() && Quiescent(world, At())
      ensures report == ReportOf(world, At()) && (!fired ==> NoAbort(steps))
      ensures !fired || !report.status.RunCancelled? ==> Summarize(report) == Means(world)
    {
      hide IsPlanOf, Inv, WellFormed, FateOf, ReportOf, Means, Summarize, Ready, StartAll, Measure, RunTo;
      states, steps := [At()], [];
      NotYetRun(world);
      fired := false;
      while true
        invariant Valid() && RunTo(world, states, steps, At()) && (!fired ==> NoAbort(steps))
        decreases Measure(At()), if fired then 0 else 1
      {
        var signalled := *;
        fired := fired || signalled;
        if fired {
          states, steps := Fire(states, steps);
        }
        var ready := ReadyNow();
        if ready != [] {
          RunToKeeps(world, states, steps, At());
          states, steps := Extended(world, states, steps, At(), Batch);
          StartBatch(ready);
          continue;
        }
        if running == 0 {
          break;
        }
        var woken := *;
        if woken && !fired {
          fired := true;
          states, steps := Fire(states, steps);
          continue;
        }
        states, steps := Wait(states, steps);
      }
      assert inFlight == map[];
      RunToEnd(world, states, steps, At());
      report := ReportOf(world, At());
    }
  }

  // ---- the run the loop is ----------------------------------------------------------------------

  ghost predicate RunTo(w: World, states: seq<State>, steps: seq<Step>, s: State) {
    IsRun(w, states, steps) && states[|steps|] == s
  }

  lemma NotYetRun(w: World)
    ensures RunTo(w, [Initial(w)], [], Initial(w)) && NoAbort([])
  {
  }

  lemma RunToKeeps(w: World, states: seq<State>, steps: seq<Step>, s: State)
    requires w.Sound() && RunTo(w, states, steps, s)
    ensures Inv(w, s, {}, {})
  {
    hide FateOf, WellFormed, Inv, Enabled, After;
    RunKeeps(w, states, steps, |steps|);
  }

  /** One more step of the run, which brings it nearer its end unless it is an abort. */
  lemma Extended(w: World, states: seq<State>, steps: seq<Step>, s: State, step: Step)
      returns (states': seq<State>, steps': seq<Step>)
    requires w.Sound() && RunTo(w, states, steps, s) && Enabled(w, s, step)
    ensures RunTo(w, states', steps', After(w, s, step))
    ensures Measure(After(w, s, step)) <= Measure(s) - if step.Abort? then 0 else 1
    ensures NoAbort(steps) && !step.Abort? ==> NoAbort(steps')
  {
    hide FateOf, WellFormed, Inv, Enabled, After, Measure;
    RunToKeeps(w, states, steps, s);
    StepCosts(w, s, step);
    RunExtends(w, states, steps, step, After(w, s, step));
    states', steps' := states + [After(w, s, step)], steps + [step];
  }

  lemma RunToEnd(w: World, states: seq<State>, steps: seq<Step>, s: State)
    requires w.Sound() && RunTo(w, states, steps, s) && Quiescent(w, s)
    ensures IsRun(w, states, steps) && states[|steps|] == s
    ensures NoAbort(steps) || !ReportOf(w, s).status.RunCancelled? ==> Summarize(ReportOf(w, s)) == Means(w)
  {
    hide FateOf, WellFormed, Quiescent, Means, ReportOf, IsRun;
    RunMeans(w, states, steps);
  }

  // ---- what the loops above keep ----------------------------------------------------------------

  lemma PlanSays(plan: Plan, spec: Spec, id: Id)
    requires IsPlanOf(plan, spec)
    ensures Get(plan.routedBy, id) == RouterOf(spec, id)
    ensures id in spec.nodes ==> id in plan.dependencies && plan.dependencies[id] == WaitsFor(spec, id)
    ensures Waiting(plan.dependents, id) == Dependents(spec, id)
  {
    hide WaitsFor, RouterOf, Dependents, CatcherOf;
  }

  lemma PlanCatches(plan: Plan, spec: Spec, id: Id)
    requires IsPlanOf(plan, spec)
    ensures Get(plan.catchers, id) == CatcherOf(spec, id)
  {
    hide WaitsFor, RouterOf, Dependents, CatcherOf;
  }

  lemma ListedIds(spec: Spec)
    requires Listed(spec)
    ensures forall id :: id in spec.order <==> id in spec.nodes
  {
    ListedOnce(spec);
  }

  lemma ListedAt(spec: Spec, i: nat)
    requires Listed(spec) && i < |spec.order|
    ensures spec.order[i] in spec.nodes && spec.order[i] !in spec.order[..i]
  {
    ListedOnce(spec);
  }

  /** What is ready among the first nodes written. */
  function Picked(w: World, s: State, order: seq<Id>, i: nat): seq<Id>
    requires i <= |order|
  {
    ReadyIn(w, s, order[..i])
  }

  lemma PickedNone(w: World, s: State, order: seq<Id>)
    ensures Picked(w, s, order, 0) == []
  {
  }

  lemma PickedStep(w: World, s: State, order: seq<Id>, i: nat)
    requires i < |order| && order[i] in w.spec.nodes
    ensures Picked(w, s, order, i + 1) == Picked(w, s, order, i) + if IsReady(w, s, order[i]) then [order[i]] else []
  {
    assert order[..i + 1] == order[..i] + [order[i]];
    ReadyLast(w, s, order[..i], order[i]);
  }

  lemma {:induction false} ReadyLast(w: World, s: State, order: seq<Id>, id: Id)
    requires id in w.spec.nodes
    ensures ReadyIn(w, s, order + [id]) == ReadyIn(w, s, order) + if IsReady(w, s, id) then [id] else []
    decreases |order|
  {
    hide IsReady;
    var last := if IsReady(w, s, id) then [id] else [];
    if order == [] {
      assert [] + [id] == [id] && [id][1..] == [];
    } else {
      ReadyLast(w, s, order[1..], id);
      assert (order + [id])[1..] == order[1..] + [id] && (order + [id])[0] == order[0];
      var first := if order[0] in w.spec.nodes && IsReady(w, s, order[0]) then [order[0]] else [];
      assert ReadyIn(w, s, order + [id]) == first + ReadyIn(w, s, order[1..] + [id]);
      assert ReadyIn(w, s, order) == first + ReadyIn(w, s, order[1..]);
      hide ReadyIn;
      Associates(first, ReadyIn(w, s, order[1..]), last);
    }
  }

  lemma PickedAll(w: World, s: State, order: seq<Id>)
    ensures Picked(w, s, order, |order|) == ReadyIn(w, s, order)
  {
    assert order[..|order|] == order;
  }

  function StopAll(reports: map<Id, NodeReport>, ids: seq<Id>): map<Id, NodeReport> {
    map n | n in reports :: if n in ids then Stop(reports[n]) else reports[n]
  }

  lemma StopStep(reports: map<Id, NodeReport>, order: seq<Id>, i: nat)
    requires i < |order| && order[i] in reports
    ensures order[i] in StopAll(reports, order[..i])
    ensures StopAll(reports, order[..i + 1]) ==
      StopAll(reports, order[..i])[order[i] := Stop(StopAll(reports, order[..i])[order[i]])]
  {
    assert order[..i + 1] == order[..i] + [order[i]];
    assert forall n :: n in order[..i + 1] <==> n in order[..i] || n == order[i];
  }

  lemma AllStopped(spec: Spec, reports: map<Id, NodeReport>)
    requires Listed(spec) && reports.Keys == spec.nodes.Keys
    ensures StopAll(reports, spec.order) == map n | n in reports :: Stop(reports[n])
  {
    ListedIds(spec);
  }

  lemma CancelUnfolds(spec: Spec, s: State, id: Id)
    ensures PendingAt(s, id) ==>
      Cancel(spec, s, id) == LetGo(CancelAll(spec, Mark(s, id), Dependents(spec, id)), id)
    ensures !PendingAt(s, id) ==> Cancel(spec, s, id) == s
  {
    hide Dependents, LetGo, CancelAll;
  }

  lemma CancelNone(spec: Spec, s: State)
    ensures CancelAll(spec, s, []) == s
  {
  }

  lemma MarkIsFewer(s: State, id: Id)
    requires PendingAt(s, id)
    ensures PendingOf(Mark(s, id)) < PendingOf(s)
  {
    assert id in PendingOf(s) && id !in PendingOf(Mark(s, id));
  }

  lemma NoneReleased(s: State, id: Id)
    ensures !HeldAmong(s, [], id) && ReleasedAmong(s, [], id) == s
  {
  }

  lemma FlightIsSome(inFlight: map<Id, Promise>)
    requires |inFlight| != 0
    ensures exists id :: id in inFlight
  {
    assert |inFlight| == |inFlight.Keys|;
    assert inFlight.Keys != {};
  }

  lemma InFlightIsReported(w: World, s: State, id: Id)
    requires w.Ranks() && Inv(w, s, {}, {}) && id in s.inFlight
    ensures id in s.reports && id in w.spec.nodes
  {
    hide FateOf, ShapeAt;
    InvShape(w, s);
  }

  lemma BatchStarts(w: World, s: State)
    requires w.Sound() && Inv(w, s, {}, {})
    ensures Distinct(Ready(w, s)) && forall id :: id in Ready(w, s) ==> id in w.spec.nodes && Startable(w, s, id)
  {
    hide FateOf, Inv, WaitsFor, TargetsExist, RoutedOnce, Ranked;
    ListedOnce(w.spec);
    ReadyIsDistinct(w, s, w.spec.order);
    forall id | id in Ready(w, s) ensures Startable(w, s, id) {
      ReadyIsPending(w, s, id);
    }
  }

  /** A node that may start leaves what every state keeps, and leaves the rest of its batch to start. */
  lemma StartFirst(w: World, s: State, id: Id, ids: seq<Id>)
    requires w.Sound() && Inv(w, s, {}, {}) && Distinct([id] + ids) && Startable(w, s, id)
    requires forall n :: n in ids ==> n in w.spec.nodes && Startable(w, s, n)
    ensures id !in s.inFlight && Inv(w, Start(w, s, id), {}, {}) && Distinct(ids)
    ensures forall n :: n in ids ==> Startable(w, Start(w, s, id), n)
    ensures (forall n :: n in [id] + ids ==> n in w.spec.nodes) &&
      StartAll(w, s, [id] + ids) == StartAll(w, Start(w, s, id), ids)
  {
    hide FateOf, Inv, Start, IsReady, WellFormed;
    InvShape(w, s);
    if s.ending.None? {
      ReadyIsPending(w, s, id);
    }
    PendingIsUntouched(w, s, id);
    StartKeeps(w, s, id);
    assert ([id] + ids)[1..] == ids && ([id] + ids)[0] == id;
    forall i, j | 0 <= i < j < |ids| ensures ids[i] != ids[j] {
      assert ([id] + ids)[i + 1] != ([id] + ids)[j + 1];
    }
    forall n | n in ids ensures Startable(w, Start(w, s, id), n) {
      var k :| 0 <= k < |ids| && ids[k] == n;
      assert ([id] + ids)[0] != ([id] + ids)[k + 1];
      StartLeavesStartable(w, s, id, n);
    }
  }

  lemma StartNone(w: World, s: State, ready: seq<Id>)
    ensures StartAll(w, s, []) == s && ready[0..] == ready
  {
  }

  /** A switch that is in flight routes, and cancels the ways it did not take. */
  function Routing(w: World, s: State, id: Id): State
    requires id in w.spec.nodes && w.spec.nodes[id].Switch? && id in s.reports
  {
    var to := RouteOf(w.spec.nodes[id], s.values, CaughtBy(s, id));
    CancelAll(w.spec, Finish(s, id, Str(to), Some(to)), Unselected(TargetsOf(w.spec.nodes[id]), to))
  }

  lemma CancelFirst(spec: Spec, s: State, id: Id, ids: seq<Id>)
    ensures CancelAll(spec, s, [id] + ids) == CancelAll(spec, Cancel(spec, s, id), ids)
  {
    assert ([id] + ids)[1..] == ids;
    hide Cancel;
  }

  ghost predicate HeldAmong(s: State, ids: seq<Id>, id: Id) {
    exists n :: n in ids && n in s.reports && s.reports[n].caught == Some(id)
  }

  /** The faults let go of so far; the run ends with the first. */
  ghost function ReleasedAmong(s: State, ids: seq<Id>, id: Id): State {
    if HeldAmong(s, ids, id) then End(s.(reports := ReleaseAll(s.reports, ids, id)), EndFailed) else s
  }

  lemma HeldStep(s: State, order: seq<Id>, i: nat, id: Id)
    requires i < |order| && order[i] in s.reports
    ensures HeldAmong(s, order[..i + 1], id) <==> HeldAmong(s, order[..i], id) || s.reports[order[i]].caught == Some(id)
  {
    assert order[..i + 1] == order[..i] + [order[i]];
    if s.reports[order[i]].caught == Some(id) {
      assert order[i] in order[..i + 1];
    }
    if HeldAmong(s, order[..i], id) {
      var n :| n in order[..i] && n in s.reports && s.reports[n].caught == Some(id);
      assert n in order[..i + 1];
    }
  }

  function ReleaseAll(reports: map<Id, NodeReport>, ids: seq<Id>, id: Id): map<Id, NodeReport> {
    map n | n in reports :: if n in ids then Release(reports[n], id) else reports[n]
  }

  lemma ReleaseStep(s: State, order: seq<Id>, i: nat, id: Id)
    requires i < |order| && order[i] in s.reports && order[i] !in order[..i]
    ensures var at, n := ReleasedAmong(s, order[..i], id), order[i];
      n in at.reports && at.reports[n].caught == s.reports[n].caught &&
      ReleasedAmong(s, order[..i + 1], id) ==
        if s.reports[n].caught == Some(id) then
          End(at.(reports := at.reports[n := at.reports[n].(caught := None)]), EndFailed)
        else at
  {
    hide HeldAmong, End, Release, ReleaseAll;
    HeldStep(s, order, i, id);
    var n := order[i];
    ReleaseMore(s.reports, order, i, id);
    if s.reports[n].caught == Some(id) {
      EndTwice(s, ReleaseAll(s.reports, order[..i], id), ReleaseAll(s.reports, order[..i + 1], id), n);
    }
    EndCaught(s.(reports := ReleaseAll(s.reports, order[..i], id)), n);
    NoneHeld(s, order[..i], id);
  }

  lemma NoneHeld(s: State, ids: seq<Id>, id: Id)
    ensures !HeldAmong(s, ids, id) ==> ReleaseAll(s.reports, ids, id) == s.reports
  {
  }

  lemma EndCaught(s: State, n: Id)
    requires n in s.reports
    ensures n in End(s, EndFailed).reports && End(s, EndFailed).reports[n].caught == s.reports[n].caught
  {
  }

  lemma ReleaseMore(reports: map<Id, NodeReport>, order: seq<Id>, i: nat, id: Id)
    requires i < |order| && order[i] in reports && order[i] !in order[..i]
    ensures var one, more, n := ReleaseAll(reports, order[..i], id), ReleaseAll(reports, order[..i + 1], id), order[i];
      n in one && one[n] == reports[n] &&
      more == if reports[n].caught == Some(id) then one[n := one[n].(caught := None)] else one
  {
    var n := order[i];
    assert order[..i + 1] == order[..i] + [n];
    assert forall m :: m in order[..i + 1] <==> m in order[..i] || m == n;
  }

  lemma EndTwice(s: State, one: map<Id, NodeReport>, more: map<Id, NodeReport>, n: Id)
    requires n in one && more == one[n := one[n].(caught := None)]
    ensures n in End(s.(reports := one), EndFailed).reports
    ensures var at := End(s.(reports := one), EndFailed);
      End(s.(reports := more), EndFailed) == End(at.(reports := at.reports[n := at.reports[n].(caught := None)]), EndFailed)
    ensures var at := s.(reports := one);
      End(s.(reports := more), EndFailed) == End(at.(reports := at.reports[n := at.reports[n].(caught := None)]), EndFailed)
  {
    var at := End(s.(reports := one), EndFailed);
    assert End(s.(reports := more), EndFailed).reports ==
      End(at.(reports := at.reports[n := at.reports[n].(caught := None)]), EndFailed).reports;
  }

  lemma AllReleased(s: State, order: seq<Id>, id: Id)
    requires forall n :: n in s.reports ==> n in order
    ensures ReleasedAmong(s, order, id) == LetGo(s, id)
  {
    assert ReleaseAll(s.reports, order, id) == map n | n in s.reports :: Release(s.reports[n], id);
    assert HeldAmong(s, order, id) <==> HoldsFault(s, id);
  }

  lemma SameFlight(inFlight: map<Id, Promise>, id: Id, promise: Promise)
    requires id in inFlight
    ensures |inFlight[id := promise]| == |inFlight|
  {
    Flight(inFlight, id, promise);
  }

  lemma NewFlight(inFlight: map<Id, Promise>, id: Id, promise: Promise)
    requires id !in inFlight
    ensures |inFlight[id := promise]| == |inFlight| + 1
  {
    assert inFlight[id := promise].Keys == inFlight.Keys + {id};
    assert |inFlight| == |inFlight.Keys| && |inFlight[id := promise]| == |inFlight[id := promise].Keys|;
  }

  /** That a switch is marked as running while it routes changes nothing of where it routes. */
  lemma SameSwitch(w: World, s: State, marked: State, id: Id)
    requires id in w.spec.nodes && w.spec.nodes[id].Switch? && id in s.reports
    requires marked == s.(
      reports := s.reports[id := s.reports[id].(status := Kernel.Running)], inFlight := s.inFlight[id := Landed])
    ensures CaughtBy(marked, id) == CaughtBy(s, id)
    ensures forall to :: Finish(marked, id, Str(to), Some(to)) == Finish(s, id, Str(to), Some(to))
  {
    forall to ensures Finish(marked, id, Str(to), Some(to)) == Finish(s, id, Str(to), Some(to)) {
      assert Finish(marked, id, Str(to), Some(to)).reports == Finish(s, id, Str(to), Some(to)).reports;
      assert Finish(marked, id, Str(to), Some(to)).inFlight == Finish(s, id, Str(to), Some(to)).inFlight;
    }
  }
}
