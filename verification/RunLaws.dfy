/** Batches, landings, settlings and aborts, and with them whole runs. */
module RunLaws {
  import opened Json
  import opened Sources
  import opened Outcomes
  import opened KernelSpec
  import opened Fates
  import opened Kernel
  import opened Agreement
  import opened Steps

  // ---- a batch ----------------------------------------------------------------------------------

  lemma {:induction false} NothingToCancel(spec: Spec, s: State, ids: seq<Id>)
    requires PendingOf(s) == {}
    ensures CancelAll(spec, s, ids) == s
    decreases |ids|
  {
    if ids != [] {
      var first := ids[0];
      assert first !in PendingOf(s);
      assert Cancel(spec, s, ids[0]) == s;
      NothingToCancel(spec, s, ids[1..]);
    }
  }

  lemma EndedIsNotPending(w: World, s: State)
    requires Shape(w, s) && s.ending.Some?
    ensures PendingOf(s) == {}
  {
    forall n ensures n !in PendingOf(s) {
      if n in w.spec.nodes {
        assert ShapeAt(w, s, n);
      }
    }
  }

  /** Once every way a switch did not take is cancelled, it has routed. */
  lemma RoutedCloses(w: World, s: State, id: Id)
    requires id in w.spec.nodes && Routed(w, s, {id}) && forall t :: Rejects(w, s, id, t) ==> !PendingAt(s, t)
    ensures Routed(w, s, {})
  {
    hide Rejects;
  }

  lemma UnselectedAreCut(w: World, id: Id, selected: Id)
    requires w.Sound() && id in w.spec.nodes && w.spec.nodes[id].Switch?
    requires FateOf(w, id).Ran? && FateOf(w, id).selected == Some(selected)
    ensures forall t :: t in Unselected(TargetsOf(w.spec.nodes[id]), selected) ==>
      t in w.spec.nodes && (FateOf(w, t).Cut? || FateOf(w, t).Given?)
  {
    hide FateOf, TargetsOf, RoutedOnce, Listed, Ranked;
    forall t | t in Unselected(TargetsOf(w.spec.nodes[id]), selected)
      ensures t in w.spec.nodes && (FateOf(w, t).Cut? || FateOf(w, t).Given?)
    {
      assert RoutesTo(w.spec.nodes[id], t);
      UnselectedIsCut(w, id, t);
    }
  }

  lemma CancellingKeepsSelected(s: State, s': State, id: Id)
    requires OnlyCancels(s, s') && id in s.reports
    ensures id in s'.reports && s'.reports[id].selected == s.reports[id].selected
    ensures s'.ending.None? ==> s.ending.None?
  {
  }

  lemma StartSwitchKeeps(w: World, s: State, id: Id)
    requires w.Sound() && Inv(w, s, {}, {}) && id in w.spec.nodes && w.spec.nodes[id].Switch? && IsReady(w, s, id)
    ensures id in s.reports && Inv(w, Start(w, s, id), {}, {})
  {
    hide FateOf, IsReady, WellFormed, Select, OnlyMoves, OnlyCancels, Shape, Closed, Agrees, Fails, CancelAll, TargetsOf, Unselected;
    SelectKeeps(w, s, id);
    var routed := Select(w, s, id);
    MovedKeys(s, routed, id);
    var selected := routed.reports[id].selected.value;
    var ids := Unselected(TargetsOf(w.spec.nodes[id]), selected);
    UnselectedAreCut(w, id, selected);
    CancelAllKeeps(w, routed, ids, {}, {id});
    CancelAllOnlyCancels(w.spec, routed, ids);
    var s' := CancelAll(w.spec, routed, ids);
    CancellingKeepsSelected(routed, s', id);
    forall t | Rejects(w, s', id, t) ensures !PendingAt(s', t) {
      assert t in ids;
    }
    RoutedCloses(w, s', id);
  }

  lemma StartEndedKeeps(w: World, s: State, id: Id)
    requires w.Sound() && Inv(w, s, {}, {}) && id in w.spec.nodes && s.ending.Some? && CancelledAt(s, id)
    ensures id in s.reports && Inv(w, Start(w, s, id), {}, {}) && OnlyMoves(s, Start(w, s, id), id)
  {
    hide FateOf, WellFormed, OnlyMoves, Shape, Closed, Routed, Agrees, Fails, CancelAll, TargetsOf, Select, NodeOutcome, Unselected;
    ShapeKeys(w, s);
    if w.spec.nodes[id].Switch? {
      SelectMoves(w, s, id);
      var routed := Select(w, s, id);
      MovedKeys(s, routed, id);
      EndedIsNotPending(w, routed);
      NothingToCancel(w.spec, routed, Unselected(TargetsOf(w.spec.nodes[id]), routed.reports[id].selected.value));
      EndedKeeps(w, routed, {}, {});
    } else {
      StartedCallShape(w, s, id);
      StartCallMoves(w, s, id);
      MovedKeys(s, Start(w, s, id), id);
      EndedKeeps(w, Start(w, s, id), {}, {});
    }
  }

  lemma StartKeeps(w: World, s: State, id: Id)
    requires w.Sound() && Inv(w, s, {}, {}) && Startable(w, s, id)
    ensures Inv(w, Start(w, s, id), {}, {})
  {
    hide FateOf, WellFormed, Start, Inv, IsReady;
    if s.ending.Some? {
      StartEndedKeeps(w, s, id);
    } else if w.spec.nodes[id].Switch? {
      StartSwitchKeeps(w, s, id);
    } else {
      StartCallKeeps(w, s, id);
    }
  }

  /** Starting a node moves it, and cancels. */
  ghost predicate Shifts(s: State, s': State, id: Id) {
    exists moved :: OnlyMoves(s, moved, id) && OnlyCancels(moved, s')
  }

  lemma StartShifts(w: World, s: State, id: Id)
    requires w.Sound() && Inv(w, s, {}, {}) && Startable(w, s, id)
    ensures Shifts(s, Start(w, s, id), id)
  {
    hide FateOf, WellFormed, OnlyMoves, OnlyCancels, Shape, Closed, Routed, Agrees, Fails, CancelAll, TargetsOf, Select, NodeOutcome, Unselected;
    if s.ending.None? {
      ReadyIsPending(w, s, id);
    }
    if w.spec.nodes[id].Switch? {
      SelectMoves(w, s, id);
      var routed := Select(w, s, id);
      MovedKeys(s, routed, id);
      CancelAllOnlyCancels(w.spec, routed, Unselected(TargetsOf(w.spec.nodes[id]), routed.reports[id].selected.value));
    } else {
      StartCallMoves(w, s, id);
      assert OnlyCancels(Start(w, s, id), Start(w, s, id)) by { CancelsNothing(Start(w, s, id)); }
    }
  }

  lemma CancelsNothing(s: State)
    ensures OnlyCancels(s, s)
  {
  }

  /** What a shift leaves of a node that did not move: it stands, or was pending and is cancelled. */
  lemma ShiftLeaves(s: State, s': State, id: Id, n: Id)
    requires Shifts(s, s', id) && n != id && n in s.reports
    ensures n in s'.reports && (s'.ending.None? ==> s.ending.None?)
    ensures s'.reports[n].status == s.reports[n].status || (PendingAt(s, n) && CancelledAt(s', n))
    ensures s'.reports[n].selected == s.reports[n].selected && s'.reports[n].failure == s.reports[n].failure
    ensures s'.ending.None? ==> s'.reports[n].caught == s.reports[n].caught
  {
    var moved :| OnlyMoves(s, moved, id) && OnlyCancels(moved, s');
    assert OnlyCancelled(moved.reports[n], s'.reports[n], s'.ending);
  }

  lemma ShiftKeepsRoots(w: World, s: State, s': State, id: Id, n: Id)
    requires Shifts(s, s', id) && n in w.spec.nodes && id !in s.values && RootsSupplied(w.spec.nodes[n], s.values)
    ensures RootsSupplied(w.spec.nodes[n], s'.values)
  {
    var moved :| OnlyMoves(s, moved, id) && OnlyCancels(moved, s');
  }

  lemma CancelledIsCut(w: World, s: State, id: Id)
    requires w.Ranks() && Inv(w, s, {}, {}) && s.ending.None? && id in w.spec.nodes && CancelledAt(s, id)
    ensures FateOf(w, id).Cut?
  {
    hide FateOf;
    assert AgreesAt(w, s, {}, id);
  }

  /** What was drawn up to start with a node may still start after it. */
  lemma StartLeavesStartable(w: World, s: State, id: Id, n: Id)
    requires w.Sound() && Inv(w, s, {}, {}) && Startable(w, s, id) && Startable(w, s, n) && n != id
    ensures Startable(w, Start(w, s, id), n)
  {
    hide FateOf, WellFormed, Start, Inv, Shifts, WaitsFor, RootsSupplied, RouterOf;
    var s' := Start(w, s, id);
    StartKeeps(w, s, id);
    StartShifts(w, s, id);
    InvShape(w, s);
    InvShape(w, s');
    PendingIsUntouched(w, s, id);
    ShiftLeaves(s, s', id, n);
    if s'.ending.None? {
      assert !FateOf(w, n).Cut? by {
        hide Shape, Closed, Routed, Agrees, Fails;
        ReadyIsPending(w, s, n);
        ReadyFate(w, s, n);
      }
      if CancelledAt(s', n) {
        CancelledIsCut(w, s', n);
      }
      assert forall d :: d in WaitsFor(w.spec, n) ==> MetAt(s', n, d) by {
        forall d | d in WaitsFor(w.spec, n) ensures MetAt(s', n, d) {
          assert MetAt(s, n, d);
          ShiftLeaves(s, s', id, d);
        }
      }
      ShiftKeepsRoots(w, s, s', id, n);
      var router := RouterOf(w.spec, n);
      if router.Some? {
        ShiftLeaves(s, s', id, router.value);
      }
    } else {
      EndedIsNotPending(w, s');
      assert n !in PendingOf(s');
    }
  }

  predicate Distinct(ids: seq<Id>) {
    forall i, j :: 0 <= i < j < |ids| ==> ids[i] != ids[j]
  }

  lemma {:induction false} StartAllKeeps(w: World, s: State, ids: seq<Id>)
    requires w.Sound() && Inv(w, s, {}, {}) && Distinct(ids) && forall id :: id in ids ==> Startable(w, s, id)
    ensures forall id :: id in ids ==> id in w.spec.nodes
    ensures Inv(w, StartAll(w, s, ids), {}, {})
    decreases |ids|
  {
    hide FateOf, WellFormed, Start, Inv, IsReady;
    if ids != [] {
      StartKeeps(w, s, ids[0]);
      forall id | id in ids[1..] ensures Startable(w, Start(w, s, ids[0]), id) {
        StartLeavesStartable(w, s, ids[0], id);
      }
      StartAllKeeps(w, Start(w, s, ids[0]), ids[1..]);
    }
  }

  lemma {:induction false} ReadyIsDistinct(w: World, s: State, order: seq<Id>)
    requires Distinct(order)
    ensures Distinct(ReadyIn(w, s, order))
    decreases |order|
  {
    hide IsReady;
    if order != [] {
      ReadyIsDistinct(w, s, order[1..]);
    }
  }

  lemma BatchKeeps(w: World, s: State)
    requires w.Sound() && Inv(w, s, {}, {})
    ensures Inv(w, StartAll(w, s, Ready(w, s)), {}, {})
  {
    hide FateOf, StartAll, Inv, WaitsFor, TargetsExist, RoutedOnce, Ranked;
    ListedOnce(w.spec);
    ReadyIsDistinct(w, s, w.spec.order);
    forall id | id in Ready(w, s) ensures Startable(w, s, id) {
      ReadyIsPending(w, s, id);
    }
    StartAllKeeps(w, s, Ready(w, s));
  }

  // ---- the other steps --------------------------------------------------------------------------

  lemma AnsweredKeeps(w: World, s: State, id: Id, value: Json)
    requires w.Sound() && Inv(w, s, {}, {}) && id in w.spec.nodes && id in s.inFlight && s.inFlight[id].Will?
    requires s.ending.None? ==> s.inFlight[id].outcome == Answer(value)
    ensures id in s.reports && Inv(w, Finish(s, id, value, None), {}, {})
  {
    hide FateOf, WaitsFor, WellFormed, Closed, Routed, Fails, CatcherOf;
    InvShape(w, s);
    assert ShapeAt(w, s, id);
    var s' := Finish(s, id, value, None);
    FinishShape(w, s, id, value, None);
    if s.ending.Some? {
      EndedKeeps(w, s', {}, {});
    } else {
      assert AgreesAt(w, s, {}, id);
      LandedMoves(w, s, id, value);
      MetStays(w, s, s', id, id);
      SelectedAgrees(w, s', id);
      MoveKeeps(w, s, s', id, {});
    }
  }

  lemma LandedMoves(w: World, s: State, id: Id, value: Json)
    requires Shape(w, s) && id in w.spec.nodes && id in s.inFlight && s.inFlight[id].Will?
    ensures id in s.reports && OnlyMoves(s, Finish(s, id, value, None), id)
  {
    assert ShapeAt(w, s, id);
  }

  function Failing(s: State, id: Id, failure: Outcome, catcher: Option<Id>): State
    requires id in s.reports
  {
    s.(reports := s.reports[id := s.reports[id].(status := Failed, failure := Some(failure), caught := catcher)],
       inFlight := s.inFlight[id := Landed])
  }

  lemma FailingShape(w: World, s: State, id: Id, failure: Outcome, catcher: Option<Id>)
    requires Shape(w, s) && id in w.spec.nodes && id in s.inFlight && s.inFlight[id].Will? && !failure.Answer?
    requires catcher.Some? ==> failure.Fault? && CatcherOf(w.spec, id) == catcher
    ensures id in s.reports && Shape(w, Failing(s, id, failure, catcher))
  {
    hide CatcherOf, Lookup, WaitsFor;
    var s' := Failing(s, id, failure, catcher);
    assert ShapeAt(w, s, id);
    forall n | n in w.spec.nodes ensures ShapeAt(w, s', n) {
      assert ShapeAt(w, s, n);
    }
  }

  lemma FailingMoves(w: World, s: State, id: Id, failure: Outcome, catcher: Option<Id>)
    requires Shape(w, s) && id in w.spec.nodes && id in s.inFlight && s.inFlight[id].Will?
    ensures id in s.reports && OnlyMoves(s, Failing(s, id, failure, catcher), id)
  {
    hide CatcherOf, Lookup, WaitsFor;
    assert ShapeAt(w, s, id);
  }

  /** A fault or a refusal that no switch is left to route is one that fails the run. */
  lemma UncaughtFails(w: World, s: State, id: Id, failure: Outcome)
    requires w.Sound() && Inv(w, s, {}, {}) && s.ending.None? && id in w.spec.nodes
    requires id in s.inFlight && s.inFlight[id] == Will(failure) && !failure.Answer? && Catching(w, s, id, failure).None?
    ensures Fails(w)
  {
    hide FateOf, WaitsFor, CatcherOf, WellFormed, Closed, Routed, Fails;
    InvShape(w, s);
    assert ShapeAt(w, s, id) && AgreesAt(w, s, {}, id);
    var catcher := CatcherOf(w.spec, id);
    if catcher.Some? && failure.Fault? {
      CaughtIsWaitedFor(w, catcher.value, id);
      assert ShapeAt(w, s, catcher.value) && AgreesAt(w, s, {}, catcher.value);
      GivenIsSeeded(w, s, catcher.value);
      assert !MetAt(s, catcher.value, id);
      assert FateOf(w, catcher.value).Cut? || FateOf(w, catcher.value).Given?;
    }
    FailsBy(w, id);
  }

  lemma FailsBy(w: World, id: Id)
    requires w.Ranks() && id in w.spec.nodes && EndsRun(w, id)
    ensures Fails(w)
  {
    hide EndsRun;
  }

  lemma CatchingIsCatcher(w: World, s: State, id: Id, failure: Outcome)
    requires !failure.Answer?
    ensures Catching(w, s, id, failure).Some? ==>
      Catching(w, s, id, failure) == CatcherOf(w.spec, id) && failure.Fault? &&
      (PendingAt(s, Catching(w, s, id, failure).value) || s.ending == Some(EndCancelled))
  {
    hide CatcherOf;
  }

  lemma FailKeeps(w: World, s: State, id: Id, failure: Outcome)
    requires w.Sound() && Inv(w, s, {}, {}) && id in w.spec.nodes && id in s.inFlight && s.inFlight[id].Will?
    requires !failure.Answer? && (s.ending.None? ==> s.inFlight[id].outcome == failure)
    ensures id in s.reports && Inv(w, Fail(w, s, id, failure), {}, {})
  {
    hide FateOf, WaitsFor, CatcherOf, WellFormed, Closed, Routed, Fails, Catching, Agrees, Shape, OnlyMoves, End;
    InvShape(w, s);
    var catcher := Catching(w, s, id, failure);
    CatchingIsCatcher(w, s, id, failure);
    FailingShape(w, s, id, failure, catcher);
    FailingMoves(w, s, id, failure, catcher);
    var s' := Failing(s, id, failure, catcher);
    MovedKeys(s, s', id);
    if catcher.Some? {
      if s.ending.Some? {
        EndedKeeps(w, s', {}, {});
      } else {
        CaughtKeeps(w, s, id, failure, catcher);
      }
    } else {
      if s.ending.None? {
        UncaughtFails(w, s, id, failure);
      }
      EndShape(w, s', EndFailed);
      EndFirstStands(s', EndFailed);
      EndedKeeps(w, End(s', EndFailed), {}, {});
    }
  }

  lemma CaughtKeeps(w: World, s: State, id: Id, failure: Outcome, catcher: Option<Id>)
    requires w.Sound() && Inv(w, s, {}, {}) && id in w.spec.nodes && s.ending.None? && !failure.Answer?
    requires id in s.inFlight && s.inFlight[id] == Will(failure) && catcher.Some? && PendingAt(s, catcher.value)
    requires id in s.reports && Shape(w, Failing(s, id, failure, catcher))
    requires OnlyMoves(s, Failing(s, id, failure, catcher), id)
    ensures Inv(w, Failing(s, id, failure, catcher), {}, {})
  {
    hide FateOf, WaitsFor, CatcherOf, WellFormed, Closed, Routed, Fails, OnlyMoves;
    InvShape(w, s);
    assert ShapeAt(w, s, id) && AgreesAt(w, s, {}, id);
    var s' := Failing(s, id, failure, catcher);
    hide Shape, Inv, AgreesAt;
    MetStays(w, s, s', id, id);
    assert AgreesAt(w, s', {}, id);
    MoveKeeps(w, s, s', id, {});
  }

  lemma SettleShape(w: World, s: State, id: Id)
    requires Shape(w, s) && id in s.reports && id in s.inFlight && s.inFlight[id].Landed?
    ensures Shape(w, Settle(s, id))
  {
    hide CatcherOf, Lookup;
    forall n | n in w.spec.nodes ensures ShapeAt(w, Settle(s, id), n) {
      assert ShapeAt(w, s, n);
    }
  }

  lemma SettleAgrees(w: World, s: State, id: Id)
    requires w.Ranks() && Shape(w, s) && Agrees(w, s, {}) && id in s.reports && id in s.inFlight && s.inFlight[id].Landed?
    ensures Agrees(w, Settle(s, id), {})
  {
    hide FateOf, WaitsFor, ShapeAt;
    var s' := Settle(s, id);
    forall n | n in w.spec.nodes ensures AgreesAt(w, s', {}, n) {
      assert AgreesAt(w, s, {}, n);
      forall d | d in WaitsFor(w.spec, n) && MetAt(s, n, d) ensures MetAt(s', n, d) {}
    }
  }

  lemma SettleKeeps(w: World, s: State, id: Id)
    requires w.Ranks() && Inv(w, s, {}, {}) && id in s.reports && id in s.inFlight && s.inFlight[id].Landed?
    ensures Inv(w, Settle(s, id), {}, {})
  {
    hide FateOf, WaitsFor, Shape, Closed, Routed, Agrees, Fails;
    InvShape(w, s);
    SettleShape(w, s, id);
    ClosedKeeps(w, s, Settle(s, id), {}, {});
    RoutedKeeps(w, s, Settle(s, id), {}, {});
    if s.ending.None? {
      SettleAgrees(w, s, id);
    }
  }

  lemma AbortKeeps(w: World, s: State)
    requires w.Ranks() && Inv(w, s, {}, {})
    ensures Inv(w, End(s, EndCancelled), {}, {})
  {
    hide FateOf, Shape, Closed, Routed, Agrees, Fails, End;
    InvShape(w, s);
    EndShape(w, s, EndCancelled);
    EndFirstStands(s, EndCancelled);
    EndedKeeps(w, End(s, EndCancelled), {}, {});
  }

  /** Every step keeps what every state keeps. */
  lemma StepKeeps(w: World, s: State, step: Step)
    requires w.Sound() && Inv(w, s, {}, {}) && Enabled(w, s, step)
    ensures Inv(w, After(w, s, step), {}, {})
  {
    hide FateOf, WellFormed, Inv, StartAll, Fail, End, Finish;
    InvShape(w, s);
    match step
    case Batch => BatchKeeps(w, s);
    case Lands(id, outcome) =>
      if outcome.Answer? {
        AnsweredKeeps(w, s, id, outcome.value);
      } else {
        FailKeeps(w, s, id, outcome);
      }
    case Settles(id) => SettleKeeps(w, s, id);
    case Abort => AbortKeeps(w, s);
  }

  /** Every state of every run keeps it, aborts and all. */
  lemma {:induction false} RunKeeps(w: World, states: seq<State>, steps: seq<Step>, n: nat)
    requires w.Sound() && IsRun(w, states, steps) && n < |states|
    ensures Inv(w, states[n], {}, {})
  {
    hide FateOf, WellFormed, Inv, Enabled, After;
    if n == 0 {
      InitialInv(w);
    } else {
      RunKeeps(w, states, steps, n - 1);
      StepKeeps(w, states[n - 1], steps[n - 1]);
      assert states[n - 1 + 1] == After(w, states[n - 1], steps[n - 1]);
    }
  }

  lemma RunExtends(w: World, states: seq<State>, steps: seq<Step>, step: Step, s: State)
    requires IsRun(w, states, steps) && Enabled(w, states[|steps|], step) && s == After(w, states[|steps|], step)
    ensures IsRun(w, states + [s], steps + [step]) && (states + [s])[|steps + [step]|] == s
  {
    hide Enabled, After;
  }
}
