/** However a run's nodes settle, it ends, and it comes to what its spec means. */
module Confluence {
  import opened Json
  import opened Sources
  import opened Outcomes
  import opened KernelSpec
  import opened Fates
  import opened Kernel
  import opened Agreement
  import opened Steps
  import opened RunLaws

  // ---- at rest ----------------------------------------------------------------------------------

  /** A node's report says exactly what its fate is. */
  ghost predicate Exactly(w: World, s: State, id: Id)
    requires w.Ranks() && id in w.spec.nodes && id in s.reports
  {
    var r := s.reports[id];
    match FateOf(w, id)
    case Given => r.status.Seeded?
    case Ran(value, selected) => r.status.Done? && Lookup(s.values, id) == Some(value) && r.selected == selected
    case Broke(failure) => r.status.Failed? && r.failure == Some(failure) && r.caught == CatcherOf(w.spec, id)
    case Cut => r.status.Cancelled?
    case Stuck => r.status.Pending?
  }

  lemma SettledIsExact(w: World, s: State, id: Id)
    requires w.Sound() && Inv(w, s, {}, {}) && s.ending.None? && s.inFlight == map[] && id in w.spec.nodes
    requires !PendingAt(s, id)
    ensures id in s.reports && Exactly(w, s, id)
  {
    hide FateOf, WaitsFor, WellFormed, Closed, Routed, Fails, CatcherOf;
    InvShape(w, s);
    GivenIsSeeded(w, s, id);
    assert ShapeAt(w, s, id) && AgreesAt(w, s, {}, id);
  }

  lemma UnreadyHere(w: World, s: State, id: Id)
    requires w.Sound() && Ready(w, s) == [] && id in w.spec.nodes
    ensures !IsReady(w, s, id)
  {
    hide IsReady, Ranked, RoutedOnce, TargetsExist;
    ListedOnce(w.spec);
    assert id in w.spec.order;
    assert id !in Ready(w, s);
  }

  lemma InvClosed(w: World, s: State)
    requires w.Ranks() && Inv(w, s, {}, {})
    ensures Closed(w, s, {}) && Routed(w, s, {})
  {
    hide FateOf, Shape, Agrees, Fails, Closed, Routed;
  }

  lemma RestIsNotCut(w: World, s: State, id: Id)
    requires w.Sound() && Inv(w, s, {}, {}) && s.ending.None? && id in w.spec.nodes && PendingAt(s, id)
    requires forall d :: d in WaitsFor(w.spec, id) ==> d in w.spec.nodes && d in s.reports && Exactly(w, s, d)
    ensures !IsCut(w, id, FatesBefore(w, id))
  {
    FateIsJudged(w, id);
    hide FateOf, WaitsFor, WellFormed, Inv, Judge, IsPassedOver, FatesBefore, Closed, Exactly, Routed;
    InvClosed(w, s);
    var fates := FatesBefore(w, id);
    forall d | d in fates ensures !fates[d].Cut? {
      assert !CancelledAt(s, d);
      assert FateOf(w, d).Cut? ==> CancelledAt(s, d);
    }
    RestIsNotPassedOver(w, s, id);
  }

  lemma NeitherIsStuck(w: World, id: Id, fates: map<Id, Fate>)
    requires id in w.spec.nodes && !IsCut(w, id, fates) && !Runs(w, id, fates)
    ensures Judge(w, id, fates).Given? || Judge(w, id, fates).Stuck?
  {
    hide IsCut, Runs, Comes;
  }

  lemma StuckIsExact(w: World, s: State, id: Id)
    requires w.Ranks() && id in w.spec.nodes && PendingAt(s, id) && FateOf(w, id).Stuck?
    ensures id in s.reports && Exactly(w, s, id)
  {
    hide FateOf;
  }

  lemma RestIsNotPassedOver(w: World, s: State, id: Id)
    requires w.Sound() && Inv(w, s, {}, {}) && s.ending.None? && id in w.spec.nodes && PendingAt(s, id)
    requires forall d :: d in WaitsFor(w.spec, id) ==> d in w.spec.nodes && d in s.reports && Exactly(w, s, d)
    ensures !IsPassedOver(w, id, FatesBefore(w, id))
  {
    FateIsJudged(w, id);
    RouterIsWaitedFor(w, id);
    hide FateOf, WaitsFor, WellFormed, Inv, RouterOf, Judge, FatesBefore, Routed;
    InvClosed(w, s);
    var router := RouterOf(w.spec, id);
    if router.Some? && FateOf(w, router.value).Ran? {
      assert RouterOf(w.spec, id).value in w.spec.nodes && w.spec.nodes[RouterOf(w.spec, id).value].Switch? &&
        RoutesTo(w.spec.nodes[RouterOf(w.spec, id).value], id);
      RanRouterSelects(w, router.value);
      assert Exactly(w, s, router.value);
      assert s.reports[router.value].selected == Some(id) by {
        hide RoutesTo;
        assert Rejects(w, s, router.value, id) <==> s.reports[router.value].selected != Some(id);
      }
    }
  }

  /** A switch that runs selects. */
  lemma RanRouterSelects(w: World, r: Id)
    requires w.Sound() && r in w.spec.nodes && w.spec.nodes[r].Switch? && FateOf(w, r).Ran?
    ensures FateOf(w, r).selected.Some?
  {
    FateIsJudged(w, r);
    hide FateOf, FatesBefore, Judge, WellFormed, WaitsFor;
    assert Judge(w, r, FatesBefore(w, r)).selected.Some? by {
      hide IsCut, Runs, RouteOf, NodeOutcome, FateValues, FateBroke;
    }
  }

  lemma RestDoesNotRun(w: World, s: State, id: Id)
    requires w.Sound() && Inv(w, s, {}, {}) && s.ending.None? && Ready(w, s) == [] && id in w.spec.nodes && PendingAt(s, id)
    requires forall d :: d in WaitsFor(w.spec, id) ==> d in w.spec.nodes && d in s.reports && Exactly(w, s, d)
    ensures !Runs(w, id, FatesBefore(w, id))
  {
    UnreadyHere(w, s, id);
    if Runs(w, id, FatesBefore(w, id)) {
      RunsIsMet(w, s, id);
      RunsIsRouted(w, s, id);
      hide FateOf, WaitsFor, WellFormed, Inv, FatesBefore, RoutedTo, MetAt, RootsSupplied, IsChosen, Ready, Meets;
      InvShape(w, s);
      SuppliedStays(w, s, id);
    }
  }

  lemma RunsIsMet(w: World, s: State, id: Id)
    requires w.Sound() && Inv(w, s, {}, {}) && id in w.spec.nodes && Runs(w, id, FatesBefore(w, id))
    requires forall d :: d in WaitsFor(w.spec, id) ==> d in w.spec.nodes && d in s.reports && Exactly(w, s, d)
    ensures forall d :: d in WaitsFor(w.spec, id) ==> MetAt(s, id, d)
  {
    FateIsJudged(w, id);
    hide FateOf, WaitsFor, WellFormed, Inv, FatesBefore, Exactly, IsChosen, RootsSupplied, Judge, MetAt, Meets;
    InvShape(w, s);
    forall d | d in WaitsFor(w.spec, id) ensures MetAt(s, id, d) {
      assert Meets(w.spec, id, d, FatesBefore(w, id)[d]);
      assert MetAt(s, id, d) by {
        hide CatcherOf, ShapeAt;
      }
    }
  }

  lemma RunsIsRouted(w: World, s: State, id: Id)
    requires w.Sound() && Inv(w, s, {}, {}) && id in w.spec.nodes && Runs(w, id, FatesBefore(w, id))
    requires forall d :: d in WaitsFor(w.spec, id) ==> d in w.spec.nodes && d in s.reports && Exactly(w, s, d)
    ensures RoutedTo(w, s, id)
  {
    FateIsJudged(w, id);
    RouterIsWaitedFor(w, id);
    hide FateOf, WaitsFor, WellFormed, Inv, FatesBefore, RootsSupplied, Judge, Meets, RouterOf;
    var router := RouterOf(w.spec, id);
    if router.Some? {
      assert Exactly(w, s, router.value);
    }
  }

  lemma SuppliedStays(w: World, s: State, id: Id)
    requires w.Sound() && Shape(w, s) && id in w.spec.nodes && RootsSupplied(w.spec.nodes[id], w.supplied.values)
    ensures RootsSupplied(w.spec.nodes[id], s.values)
  {
    hide NodeRefs, Ranked, RoutedOnce, TargetsExist, Listed;
    forall ref | ref in NodeRefs(w.spec.nodes[id]) && ref in PSEUDO ensures ref in s.values {
      assert Lookup(s.values, ref) == Lookup(w.supplied.values, ref);
    }
  }

  lemma RestIsStuck(w: World, s: State, id: Id)
    requires w.Sound() && Inv(w, s, {}, {}) && s.ending.None? && Quiescent(w, s) && id in w.spec.nodes && PendingAt(s, id)
    requires forall d :: d in WaitsFor(w.spec, id) ==> d in w.spec.nodes && d in s.reports && Exactly(w, s, d)
    ensures Exactly(w, s, id)
  {
    RestIsNotCut(w, s, id);
    RestDoesNotRun(w, s, id);
    FateIsJudged(w, id);
    hide FateOf, WaitsFor, WellFormed, Inv, FatesBefore, IsCut, Runs, Judge, Shape, Agrees, Ready, Exactly;
    InvShape(w, s);
    GivenIsSeeded(w, s, id);
    NeitherIsStuck(w, id, FatesBefore(w, id));
    StuckIsExact(w, s, id);
  }

  /** In a run that rests without an ending, every node came to its fate. */
  lemma {:induction false} AtRest(w: World, s: State, id: Id)
    requires w.Sound() && Inv(w, s, {}, {}) && s.ending.None? && Quiescent(w, s) && id in w.spec.nodes
    ensures id in s.reports && Exactly(w, s, id)
    decreases w.rank[id]
  {
    hide FateOf, WaitsFor, WellFormed, Inv, Exactly, Shape, Agrees, Ready;
    InvShape(w, s);
    if !PendingAt(s, id) {
      SettledIsExact(w, s, id);
    } else {
      WaitsComeBefore(w, id);
      forall d | d in WaitsFor(w.spec, id) ensures d in w.spec.nodes && d in s.reports && Exactly(w, s, d) {
        AtRest(w, s, d);
      }
      RestIsStuck(w, s, id);
    }
  }

  lemma RestDoesNotFail(w: World, s: State)
    requires w.Sound() && Inv(w, s, {}, {}) && s.ending.None? && Quiescent(w, s)
    ensures !Fails(w)
  {
    hide FateOf, WaitsFor, WellFormed, Closed, Routed, CatcherOf, Ready;
    InvShape(w, s);
    forall n | n in w.spec.nodes ensures !EndsRun(w, n) {
      AtRest(w, s, n);
      assert ShapeAt(w, s, n) && AgreesAt(w, s, {}, n);
      if s.reports[n].caught.Some? {
        AtRest(w, s, s.reports[n].caught.value);
      }
    }
  }
}
