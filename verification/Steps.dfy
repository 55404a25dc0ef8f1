/** Every step a run can take keeps what every state keeps. */
module Steps {
  import opened Json
  import opened Sources
  import opened Outcomes
  import opened KernelSpec
  import opened Fates
  import opened Kernel
  import opened Agreement

  // ---- a ready node comes to its fate -----------------------------------------------------------

  /** A dependency met in the run is met in the evaluation, and left the same value and the same fault. */
  lemma MetMeets(w: World, s: State, id: Id, d: Id)
    requires w.Sound() && Shape(w, s) && Agrees(w, s, {}) && d in w.spec.nodes && MetAt(s, id, d)
    ensures Meets(w.spec, id, d, FateOf(w, d)) && !FateOf(w, d).Cut?
    ensures FateOf(w, d).Ran? <==> s.reports[d].status.Done?
    ensures FateOf(w, d).Ran? ==> d in s.values && FateOf(w, d) == Ran(s.values[d], s.reports[d].selected)
    ensures !FateOf(w, d).Ran? ==> Lookup(s.values, d) == Lookup(w.supplied.values, d)
    ensures FateOf(w, d).Broke? <==> s.reports[d].caught == Some(id)
  {
    hide FateOf, WaitsFor, CatcherOf, WellFormed;
    assert ShapeAt(w, s, d) && AgreesAt(w, s, {}, d);
    GivenIsSeeded(w, s, d);
  }

  lemma ReadyIsMet(w: World, s: State, id: Id)
    requires w.Sound() && Shape(w, s) && Agrees(w, s, {}) && id in w.spec.nodes && IsReady(w, s, id)
    ensures forall d :: d in FatesBefore(w, id) ==>
      Meets(w.spec, id, d, FatesBefore(w, id)[d]) && !FatesBefore(w, id)[d].Cut?
  {
    hide FateOf, RouterOf, CatcherOf, Meets, WellFormed, RootsSupplied;
    FateIsJudged(w, id);
    hide WaitsFor, Judge, Shape, Agrees;
    forall d | d in FatesBefore(w, id)
      ensures Meets(w.spec, id, d, FatesBefore(w, id)[d]) && !FatesBefore(w, id)[d].Cut?
    {
      MetMeets(w, s, id, d);
    }
  }

  lemma ReadyIsChosen(w: World, s: State, id: Id)
    requires w.Sound() && Shape(w, s) && Agrees(w, s, {}) && id in w.spec.nodes && IsReady(w, s, id)
    ensures IsChosen(w, id, FatesBefore(w, id)) && !IsPassedOver(w, id, FatesBefore(w, id))
  {
    hide FateOf, RouterOf, CatcherOf, Meets, WellFormed, RootsSupplied;
    FateIsJudged(w, id);
    RouterIsWaitedFor(w, id);
    hide WaitsFor, Judge, Agrees;
    var router := RouterOf(w.spec, id);
    if router.Some? {
      MetMeets(w, s, id, router.value);
      assert ShapeAt(w, s, router.value);
    }
  }

  lemma ReadyIsSupplied(w: World, s: State, id: Id)
    requires w.Sound() && Shape(w, s) && id in w.spec.nodes && IsReady(w, s, id)
    ensures id !in w.supplied.values && RootsSupplied(w.spec.nodes[id], w.supplied.values)
  {
    hide WaitsFor, NodeRefs, Ranked, RoutedOnce, TargetsExist, Listed;
    assert ShapeAt(w, s, id);
    forall ref | ref in NodeRefs(w.spec.nodes[id]) && ref in PSEUDO ensures ref in w.supplied.values {
      assert Lookup(s.values, ref) == Lookup(w.supplied.values, ref);
    }
  }

  lemma ReadIsWaitedFor(w: World, id: Id, ref: string)
    requires w.Sound() && id in w.spec.nodes && ref in NodeRefs(w.spec.nodes[id]) && ref in w.spec.nodes
    ensures ref in WaitsFor(w.spec, id)
  {
    hide RouterOf, NodeRefs, Ranked, RoutedOnce, TargetsExist, Listed;
  }

  lemma CaughtIsWaitedFor(w: World, id: Id, d: Id)
    requires w.Sound() && id in w.spec.nodes && CatcherOf(w.spec, d) == Some(id)
    ensures d in WaitsFor(w.spec, id) && w.spec.nodes[id].Switch?
  {
    hide RouterOf, Ranked, RoutedOnce, TargetsExist, Listed, NodeRefs;
  }

  lemma ReadyValuesAgree(w: World, s: State, id: Id)
    requires w.Sound() && Shape(w, s) && Agrees(w, s, {}) && id in w.spec.nodes && IsReady(w, s, id)
    ensures AgreeOn(NodeRefs(w.spec.nodes[id]), FateValues(w, FatesBefore(w, id)), s.values)
  {
    hide FateOf, RouterOf, CatcherOf, Meets, NodeRefs, WellFormed;
    FateIsJudged(w, id);
    hide WaitsFor, Judge;
    var fates := FatesBefore(w, id);
    forall ref | ref in NodeRefs(w.spec.nodes[id])
      ensures Lookup(FateValues(w, fates), ref) == Lookup(s.values, ref)
    {
      if ref in w.spec.nodes {
        ReadIsWaitedFor(w, id, ref);
        MetMeets(w, s, id, ref);
      }
    }
  }

  lemma ReadyFaultsAgree(w: World, s: State, id: Id)
    requires w.Sound() && Shape(w, s) && Agrees(w, s, {}) && id in w.spec.nodes && IsReady(w, s, id)
    ensures FateBroke(w, id, FatesBefore(w, id)) == CaughtBy(s, id)
  {
    hide FateOf, RouterOf, CatcherOf, NodeRefs, WellFormed;
    FateIsJudged(w, id);
    hide WaitsFor, Judge, Agrees, Meets;
    var fates := FatesBefore(w, id);
    forall d | d in FateBroke(w, id, fates) ensures d in CaughtBy(s, id) {
      MetMeets(w, s, id, d);
    }
    forall d | d in CaughtBy(s, id) ensures d in FateBroke(w, id, fates) {
      assert ShapeAt(w, s, d);
      CaughtIsWaitedFor(w, id, d);
      MetMeets(w, s, id, d);
    }
  }

  /** Over values and faults that agree on what it reads, a node comes to the same. */
  lemma ComesAlike(w: World, id: Id, one: Values, other: Values, broke: set<Id>)
    requires id in w.spec.nodes && AgreeOn(NodeRefs(w.spec.nodes[id]), one, other)
    ensures Comes(w, id, one, broke) == Comes(w, id, other, broke)
  {
    hide NodeOutcome, RouteOf, NodeRefs;
    var node := w.spec.nodes[id];
    if node.Switch? {
      RouteDependsOnRefs(node, one, other, broke);
    } else {
      NodeOutcomeDependsOnRefs(node, w.handlers, id, one, other, w.supplied.elements);
    }
  }

  /** What a ready node comes to in the run is what becomes of it in the evaluation. */
  lemma ReadyFate(w: World, s: State, id: Id)
    requires w.Sound() && Shape(w, s) && Agrees(w, s, {}) && id in w.spec.nodes && IsReady(w, s, id)
    ensures FateOf(w, id) == Comes(w, id, s.values, CaughtBy(s, id))
  {
    assert id !in w.supplied.values && !IsCut(w, id, FatesBefore(w, id)) && Runs(w, id, FatesBefore(w, id)) by {
      hide IsChosen, IsPassedOver, Meets;
      ReadyIsMet(w, s, id);
      ReadyIsChosen(w, s, id);
      ReadyIsSupplied(w, s, id);
    }
    ReadyValuesAgree(w, s, id);
    ReadyFaultsAgree(w, s, id);
    FateIsJudged(w, id);
    hide FateOf, Comes, IsCut, Runs, WellFormed, NodeRefs, FateValues, FateBroke, IsReady, Agrees, Shape, FatesBefore;
    ComesAlike(w, id, FateValues(w, FatesBefore(w, id)), s.values, CaughtBy(s, id));
  }

  // ---- starting ---------------------------------------------------------------------------------

  /** A node a batch may start: ready, or ready when the batch was drawn up and cancelled by an ending since. */
  ghost predicate Startable(w: World, s: State, id: Id) {
    id in w.spec.nodes && id in s.reports && if s.ending.None? then IsReady(w, s, id) else CancelledAt(s, id)
  }

  lemma FinishShape(w: World, s: State, id: Id, value: Json, selected: Option<Id>)
    requires Shape(w, s) && id in w.spec.nodes && !Answers(s.reports[id]) && !s.reports[id].status.Failed?
    requires selected.Some? ==> w.spec.nodes[id].Switch?
    ensures Shape(w, Finish(s, id, value, selected))
  {
    hide CatcherOf, Lookup;
    var s' := Finish(s, id, value, selected);
    assert ShapeAt(w, s, id);
    forall n | n in w.spec.nodes ensures ShapeAt(w, s', n) {
      assert ShapeAt(w, s, n);
      if n != id {
        LookupOther(s.values, id, value, n);
      }
    }
    forall k | k !in w.spec.nodes ensures Lookup(s'.values, k) == Lookup(w.supplied.values, k) {
      LookupOther(s.values, id, value, k);
    }
  }

  lemma LookupOther(values: Values, id: Id, value: Json, k: string)
    requires k != id
    ensures Lookup(values[id := value], k) == Lookup(values, k)
  {
  }

  /** What one node's own start or landing leaves of every other node. */
  ghost predicate OnlyMoves(s: State, s': State, id: Id) {
    id in s.reports && s'.reports.Keys == s.reports.Keys && s'.ending == s.ending &&
    (forall n :: n in s.reports && n != id ==> s'.reports[n] == s.reports[n]) &&
    (forall n :: n in s.values && n != id ==> n in s'.values && s'.values[n] == s.values[n]) &&
    (forall n :: n in s.inFlight && n != id ==> n in s'.inFlight && s'.inFlight[n] == s.inFlight[n]) &&
    !PendingAt(s', id) && !CancelledAt(s', id) && !s'.reports[id].status.Seeded? &&
    !Answers(s.reports[id]) && s.reports[id].caught.None?
  }

  /** Nothing another node agrees with is disturbed. */
  lemma OthersAgree(w: World, s: State, s': State, id: Id, n: Id)
    requires w.Ranks() && OnlyMoves(s, s', id) && n in w.spec.nodes && n in s.reports && n != id
    requires AgreesAt(w, s, {}, n)
    ensures AgreesAt(w, s', {}, n)
  {
    hide FateOf, WaitsFor;
    forall d | d in WaitsFor(w.spec, n) && MetAt(s, n, d) ensures MetAt(s', n, d) {}
  }

  lemma MovedAgrees(w: World, s: State, s': State, id: Id)
    requires w.Ranks() && s.reports.Keys == w.spec.nodes.Keys && OnlyMoves(s, s', id) && Agrees(w, s, {})
    requires AgreesAt(w, s', {}, id)
    ensures Agrees(w, s', {})
  {
    hide AgreesAt, OnlyMoves, FateOf;
    assert s'.reports.Keys == s.reports.Keys by { assert OnlyMoves(s, s', id); MovedKeys(s, s', id); }
    MovedKeys(s, s', id);
    forall n | n in w.spec.nodes ensures AgreesAt(w, s', {}, n) {
      if n != id {
        OthersAgree(w, s, s', id, n);
      }
    }
  }

  lemma MovedKeys(s: State, s': State, id: Id)
    requires OnlyMoves(s, s', id)
    ensures s'.reports.Keys == s.reports.Keys && s'.ending == s.ending && id in s.reports
    ensures forall n :: PendingAt(s', n) ==> PendingAt(s, n) && n != id
    ensures forall n :: CancelledAt(s', n) ==> CancelledAt(s, n)
    ensures forall n :: n in s.reports && n != id ==> s'.reports[n].selected == s.reports[n].selected
  {
  }

  /** A node's own move keeps what every state keeps, once it is right about itself. */
  lemma MoveKeeps(w: World, s: State, s': State, id: Id, routing: set<Id>)
    requires w.Ranks() && Inv(w, s, {}, {}) && s.ending.None? && OnlyMoves(s, s', id) && Shape(w, s')
    requires AgreesAt(w, s', {}, id) && (s'.reports[id].selected.None? || id in routing)
    ensures Inv(w, s', {}, routing)
  {
    hide FateOf, AgreesAt, OnlyMoves, Shape, Closed, Routed;
    assert s.reports.Keys == w.spec.nodes.Keys by { ShapeKeys(w, s); }
    MovedAgrees(w, s, s', id);
    MovedKeys(s, s', id);
    ClosedKeeps(w, s, s', {}, {});
    RoutedKeeps(w, s, s', {}, routing);
  }

  lemma ShapeKeys(w: World, s: State)
    requires Shape(w, s)
    ensures s.reports.Keys == w.spec.nodes.Keys && s.inFlight.Keys <= w.spec.nodes.Keys
  {
  }

  lemma MetStays(w: World, s: State, s': State, id: Id, n: Id)
    requires OnlyMoves(s, s', id) && n in w.spec.nodes && forall d :: d in WaitsFor(w.spec, n) ==> MetAt(s, n, d)
    ensures forall d :: d in WaitsFor(w.spec, n) ==> MetAt(s', n, d)
  {
    hide WaitsFor;
    forall d | d in WaitsFor(w.spec, n) ensures MetAt(s', n, d) {
      assert MetAt(s, n, d);
    }
  }

  lemma PendingIsUntouched(w: World, s: State, id: Id)
    requires Shape(w, s) && id in w.spec.nodes && (PendingAt(s, id) || CancelledAt(s, id))
    ensures id in s.reports && !Answers(s.reports[id]) && !s.reports[id].status.Failed? && s.reports[id].caught.None?
    ensures id !in s.inFlight && s.reports[id].selected.None? && s.reports[id].failure.None? && id !in s.values
  {
    assert ShapeAt(w, s, id);
  }

  lemma SelectedAgrees(w: World, s: State, id: Id)
    requires w.Ranks() && id in w.spec.nodes && id in s.reports && s.reports[id].status.Done? && id in s.values
    requires FateOf(w, id) == Ran(s.values[id], s.reports[id].selected)
    requires forall d :: d in WaitsFor(w.spec, id) ==> MetAt(s, id, d)
    ensures AgreesAt(w, s, {}, id)
  {
    hide FateOf, WaitsFor;
  }

  lemma ReadyIsPending(w: World, s: State, id: Id)
    requires id in w.spec.nodes && IsReady(w, s, id)
    ensures s.ending.None? && PendingAt(s, id) && id in s.reports
    ensures forall d :: d in WaitsFor(w.spec, id) ==> MetAt(s, id, d)
  {
    hide WaitsFor;
  }

  lemma SelectMoves(w: World, s: State, id: Id)
    requires Shape(w, s) && id in w.spec.nodes && w.spec.nodes[id].Switch? && (PendingAt(s, id) || CancelledAt(s, id))
    ensures id in s.reports && OnlyMoves(s, Select(w, s, id), id) && Shape(w, Select(w, s, id))
    ensures var s' := Select(w, s, id);
      s'.reports[id].status.Done? && id in s'.values && s'.reports[id].selected.Some? &&
      Ran(s'.values[id], s'.reports[id].selected) == Comes(w, id, s.values, CaughtBy(s, id))
  {
    hide Shape, ShapeAt, RouteOf, CaughtBy, OnlyMoves, NodeOutcome, TargetsOf;
    ShapeKeys(w, s);
    PendingIsUntouched(w, s, id);
    var s' := Select(w, s, id);
    FinishShape(w, s, id, s'.values[id], s'.reports[id].selected);
    FinishMoves(s, id, s'.values[id], s'.reports[id].selected);
  }

  lemma FinishMoves(s: State, id: Id, value: Json, selected: Option<Id>)
    requires id in s.reports && !Answers(s.reports[id]) && s.reports[id].caught.None?
    ensures OnlyMoves(s, Finish(s, id, value, selected), id)
  {
  }

  /** A ready switch routes as it does in the evaluation; its other targets are still to be cancelled. */
  lemma SelectKeeps(w: World, s: State, id: Id)
    requires w.Sound() && Inv(w, s, {}, {}) && id in w.spec.nodes && w.spec.nodes[id].Switch? && IsReady(w, s, id)
    ensures id in s.reports && Inv(w, Select(w, s, id), {}, {id}) && OnlyMoves(s, Select(w, s, id), id)
    ensures Select(w, s, id).reports[id].selected.Some? && FateOf(w, id).Ran?
    ensures FateOf(w, id).selected == Select(w, s, id).reports[id].selected
  {
    ReadyIsPending(w, s, id);
    SelectMoves(w, s, id);
    ReadyFate(w, s, id);
    hide FateOf, Comes, Select, OnlyMoves, AgreesAt, Inv, IsReady, MetAt, WaitsFor, WellFormed;
    var s' := Select(w, s, id);
    MetStays(w, s, s', id, id);
    SelectedAgrees(w, s', id);
    MoveKeeps(w, s, s', id, {id});
  }

  lemma StartedCallShape(w: World, s: State, id: Id)
    requires Shape(w, s) && id in w.spec.nodes && !w.spec.nodes[id].Switch? && (PendingAt(s, id) || CancelledAt(s, id))
    ensures id in s.reports && Shape(w, Start(w, s, id))
  {
    hide CatcherOf, NodeOutcome, Lookup, CancelAll, WaitsFor, RoutesTo, Select;
    PendingIsUntouched(w, s, id);
    var s' := Start(w, s, id);
    forall n | n in w.spec.nodes ensures ShapeAt(w, s', n) {
      assert ShapeAt(w, s, n);
    }
  }

  lemma StartCallMoves(w: World, s: State, id: Id)
    requires Shape(w, s) && id in w.spec.nodes && !w.spec.nodes[id].Switch? && (PendingAt(s, id) || CancelledAt(s, id))
    ensures id in s.reports && OnlyMoves(s, Start(w, s, id), id)
    ensures var s' := Start(w, s, id);
      s'.reports[id].status.Running? && s'.reports[id].selected.None? && id in s'.inFlight && s'.inFlight[id].Will? &&
      FateFrom(s'.inFlight[id].outcome) == Comes(w, id, s.values, CaughtBy(s, id))
  {
    hide Shape, ShapeAt, NodeOutcome, CaughtBy, CancelAll, Select;
    PendingIsUntouched(w, s, id);
  }

  lemma StartCallKeeps(w: World, s: State, id: Id)
    requires w.Sound() && Inv(w, s, {}, {}) && id in w.spec.nodes && !w.spec.nodes[id].Switch? && IsReady(w, s, id)
    ensures id in s.reports && Inv(w, Start(w, s, id), {}, {}) && OnlyMoves(s, Start(w, s, id), id)
  {
    hide FateOf, Comes, Start, OnlyMoves, Inv, IsReady, MetAt, WaitsFor, WellFormed, ShapeAt;
    InvShape(w, s);
    ReadyIsPending(w, s, id);
    StartCallMoves(w, s, id);
    StartedCallShape(w, s, id);
    ReadyFate(w, s, id);
    var s' := Start(w, s, id);
    MetStays(w, s, s', id, id);
    assert AgreesAt(w, s', {}, id);
    MoveKeeps(w, s, s', id, {});
  }
}
