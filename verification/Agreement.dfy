/** What every state of every run keeps: while a run has not ended, it agrees with the evaluation of its spec. */
module Agreement {
  import opened Json
  import opened Sources
  import opened Outcomes
  import opened KernelSpec
  import opened Fates
  import opened Kernel

  // ---- what holds of every state ----------------------------------------------------------------

  ghost predicate ShapeAt(w: World, s: State, id: Id) {
    id in s.reports && id in w.spec.nodes &&
    var r := s.reports[id];
    (r.status.Seeded? <==> id in w.supplied.values) &&
    (r.status.Seeded? ==> Lookup(s.values, id) == Lookup(w.supplied.values, id)) &&
    (id in s.values <==> Answers(r)) &&
    (r.status.Running? <==> id in s.inFlight && s.inFlight[id].Will?) &&
    (r.status.Running? ==> !w.spec.nodes[id].Switch?) &&
    (id in s.inFlight && s.inFlight[id].Landed? ==> r.status.Done? || r.status.Failed?) &&
    (r.status.Failed? <==> r.failure.Some?) &&
    (r.failure.Some? ==> !r.failure.value.Answer?) &&
    (r.caught.Some? ==> r.status.Failed? && r.failure.value.Fault? && CatcherOf(w.spec, id) == r.caught) &&
    (r.selected.Some? ==> r.status.Done? && w.spec.nodes[id].Switch?) &&
    (r.status.Pending? ==> s.ending.None?)
  }

  ghost predicate Shape(w: World, s: State) {
    s.reports.Keys == w.spec.nodes.Keys && s.inFlight.Keys <= w.spec.nodes.Keys &&
    (forall k {:trigger Lookup(s.values, k)} ::
      k !in w.spec.nodes ==> Lookup(s.values, k) == Lookup(w.supplied.values, k)) &&
    (forall id :: id in w.spec.nodes ==> ShapeAt(w, s, id))
  }

  /** Whatever waits for a cancelled node is not pending either, but for those still being cancelled. */
  ghost predicate Closed(w: World, s: State, open: set<Id>) {
    forall id, d {:trigger id in WaitsFor(w.spec, d)} ::
      d in w.spec.nodes && id in WaitsFor(w.spec, d) && CancelledAt(s, id) && id !in open ==> !PendingAt(s, d)
  }

  /** No target a switch did not select is pending, but for those of a switch still routing. */
  ghost predicate Routed(w: World, s: State, routing: set<Id>) {
    forall r, t {:trigger Rejects(w, s, r, t)} ::
      r in w.spec.nodes && r !in routing && Rejects(w, s, r, t) ==> !PendingAt(s, t)
  }

  /** A switch that routed elsewhere. */
  ghost predicate Rejects(w: World, s: State, r: Id, t: Id)
    requires r in w.spec.nodes
  {
    RoutesTo(w.spec.nodes[r], t) && r in s.reports && s.reports[r].selected.Some? && s.reports[r].selected != Some(t)
  }

  /** A switch that holds a fault is still to route it, or has. */
  ghost predicate Lives(s: State, catcher: Id, open: set<Id>) {
    catcher in s.reports && !s.reports[catcher].status.Seeded? && (CancelledAt(s, catcher) ==> catcher in open)
  }

  predicate Started(s: State, id: Id) {
    id in s.reports && (s.reports[id].status.Running? || s.reports[id].status.Done? || s.reports[id].status.Failed?)
  }

  function FateFrom(outcome: Outcome): Fate {
    match outcome
    case Answer(value) => Ran(value, None)
    case failure => Broke(failure)
  }

  /** A node's report agrees with its fate. */
  ghost predicate AgreesAt(w: World, s: State, open: set<Id>, id: Id)
    requires w.Ranks() && id in w.spec.nodes && id in s.reports
  {
    var r := s.reports[id];
    var fate := FateOf(w, id);
    (r.status.Running? ==> id in s.inFlight && s.inFlight[id].Will? && fate == FateFrom(s.inFlight[id].outcome)) &&
    (r.status.Done? ==> id in s.values && fate == Ran(s.values[id], r.selected)) &&
    (r.status.Failed? ==>
      r.failure.Some? && fate == Broke(r.failure.value) && r.caught.Some? && Lives(s, r.caught.value, open)) &&
    (r.status.Cancelled? ==> fate.Cut?) &&
    (Started(s, id) ==> forall d :: d in WaitsFor(w.spec, id) ==> MetAt(s, id, d))
  }

  ghost predicate Agrees(w: World, s: State, open: set<Id>)
    requires w.Ranks() && s.reports.Keys == w.spec.nodes.Keys
  {
    forall id :: id in w.spec.nodes ==> AgreesAt(w, s, open, id)
  }

  ghost predicate Inv(w: World, s: State, open: set<Id>, routing: set<Id>)
    requires w.Ranks()
  {
    Shape(w, s) && Closed(w, s, open) && Routed(w, s, routing) &&
    (s.ending.None? ==> Agrees(w, s, open)) &&
    (s.ending == Some(EndFailed) ==> Fails(w))
  }

  lemma InitialInv(w: World)
    requires w.Ranks()
    ensures Inv(w, Initial(w), {}, {})
  {
    hide FateOf, WaitsFor, RoutesTo, CatcherOf;
    forall id | id in w.spec.nodes ensures ShapeAt(w, Initial(w), id) {}
    forall id | id in w.spec.nodes ensures AgreesAt(w, Initial(w), {}, id) {}
  }

  lemma InvShape(w: World, s: State)
    requires w.Ranks() && Inv(w, s, {}, {})
    ensures Shape(w, s) && s.reports.Keys == w.spec.nodes.Keys
    ensures s.ending.None? ==> Agrees(w, s, {})
    ensures s.ending == Some(EndFailed) ==> Fails(w)
  {
    hide FateOf, ShapeAt, AgreesAt, Fails;
  }

  /** What is kept while pending nodes only become fewer, and nothing new is cancelled or selected but what is open. */
  lemma ClosedKeeps(w: World, s: State, s': State, open: set<Id>, open': set<Id>)
    requires Closed(w, s, open)
    requires forall n :: PendingAt(s', n) ==> PendingAt(s, n)
    requires forall n :: CancelledAt(s', n) && n !in open' ==> CancelledAt(s, n) && n !in open
    ensures Closed(w, s', open')
  {
    hide WaitsFor;
  }

  lemma RoutedKeeps(w: World, s: State, s': State, routing: set<Id>, routing': set<Id>)
    requires Routed(w, s, routing) && s.reports.Keys == s'.reports.Keys
    requires forall n :: PendingAt(s', n) ==> PendingAt(s, n)
    requires forall n :: n in s.reports && n !in routing' ==>
      n !in routing && (s'.reports[n].selected == s.reports[n].selected || s'.reports[n].selected.None?)
    ensures Routed(w, s', routing')
  {
    hide RoutesTo;
    forall r, t | r in w.spec.nodes && r !in routing' && Rejects(w, s', r, t) ensures !PendingAt(s', t) {
      assert Rejects(w, s, r, t);
    }
  }

  // ---- cancelling -------------------------------------------------------------------------------

  lemma OnlyCancelsTrans(s: State, s': State, s'': State)
    requires OnlyCancels(s, s') && OnlyCancels(s', s'')
    ensures OnlyCancels(s, s'')
  {
  }

  lemma LetGoOnlyCancels(s: State, id: Id)
    ensures OnlyCancels(s, LetGo(s, id))
  {
  }

  lemma {:induction false} CancelOnlyCancels(spec: Spec, s: State, id: Id)
    ensures OnlyCancels(s, Cancel(spec, s, id))
    decreases PendingOf(s), 0
  {
    if PendingAt(s, id) {
      var cancelled := Mark(s, id);
      assert id in PendingOf(s) && id !in PendingOf(cancelled) && PendingOf(cancelled) <= PendingOf(s);
      CancelAllOnlyCancels(spec, cancelled, Dependents(spec, id));
      var spread := CancelAll(spec, cancelled, Dependents(spec, id));
      LetGoOnlyCancels(spread, id);
      OnlyCancelsTrans(s, cancelled, spread);
      OnlyCancelsTrans(s, spread, LetGo(spread, id));
    }
  }

  lemma {:induction false} CancelAllOnlyCancels(spec: Spec, s: State, ids: seq<Id>)
    ensures OnlyCancels(s, CancelAll(spec, s, ids))
    decreases PendingOf(s), |ids| + 1
  {
    if ids != [] {
      CancelOnlyCancels(spec, s, ids[0]);
      CancelAllOnlyCancels(spec, Cancel(spec, s, ids[0]), ids[1..]);
      OnlyCancelsTrans(s, Cancel(spec, s, ids[0]), CancelAll(spec, s, ids));
    }
  }

  function Mark(s: State, id: Id): State
    requires id in s.reports
  {
    s.(reports := s.reports[id := s.reports[id].(status := Cancelled)])
  }

  lemma MarkShape(w: World, s: State, id: Id)
    requires Shape(w, s) && PendingAt(s, id)
    ensures Shape(w, Mark(s, id))
  {
    hide CatcherOf;
    forall n | n in w.spec.nodes ensures ShapeAt(w, Mark(s, id), n) {
      assert ShapeAt(w, s, n) && ShapeAt(w, s, id);
    }
  }

  lemma MarkAgrees(w: World, s: State, id: Id, open: set<Id>)
    requires w.Ranks() && Shape(w, s) && PendingAt(s, id) && Agrees(w, s, open) && id in w.spec.nodes && FateOf(w, id).Cut?
    ensures Mark(s, id).reports.Keys == w.spec.nodes.Keys && Agrees(w, Mark(s, id), open + {id})
  {
    hide FateOf, WaitsFor, ShapeAt;
    var s' := Mark(s, id);
    forall n | n in w.spec.nodes ensures AgreesAt(w, s', open + {id}, n) {
      assert AgreesAt(w, s, open, n);
      assert ShapeAt(w, s, id);
      forall d | d in WaitsFor(w.spec, n) && MetAt(s, n, d) ensures MetAt(s', n, d) {}
    }
  }

  /** Cancelling something that is cut off keeps the agreement, while what waits for it is still to be cancelled. */
  lemma MarkKeeps(w: World, s: State, id: Id, open: set<Id>, routing: set<Id>)
    requires w.Ranks() && Inv(w, s, open, routing) && id in w.spec.nodes && PendingAt(s, id) && FateOf(w, id).Cut?
    ensures Inv(w, Mark(s, id), open + {id}, routing)
  {
    hide FateOf, WaitsFor, Agrees, ShapeAt, Closed, Routed, Fails;
    MarkShape(w, s, id);
    ClosedKeeps(w, s, Mark(s, id), open, open + {id});
    RoutedKeeps(w, s, Mark(s, id), routing, routing);
    if s.ending.None? {
      MarkAgrees(w, s, id, open);
    }
  }

  /** What no switch is left to route fails the run. */
  lemma HeldFaultFails(w: World, s: State, n: Id, id: Id, open: set<Id>)
    requires w.Ranks() && Shape(w, s) && Agrees(w, s, open) && n in s.reports && s.reports[n].caught == Some(id)
    requires id in w.spec.nodes && FateOf(w, id).Cut?
    ensures Fails(w)
  {
    hide FateOf, WaitsFor, CatcherOf;
    assert ShapeAt(w, s, n) && AgreesAt(w, s, open, n);
    assert EndsRun(w, n);
  }

  lemma EndShape(w: World, s: State, how: Ending)
    requires Shape(w, s)
    ensures Shape(w, End(s, how))
  {
    hide CatcherOf;
    forall n | n in w.spec.nodes ensures ShapeAt(w, End(s, how), n) {
      assert ShapeAt(w, s, n);
    }
  }

  /** Once a run has ended there is nothing left to keep: no node is pending. */
  lemma EndedKeeps(w: World, s: State, open: set<Id>, routing: set<Id>)
    requires w.Ranks() && Shape(w, s) && s.ending.Some? && (s.ending == Some(EndFailed) ==> Fails(w))
    ensures Inv(w, s, open, routing)
  {
    hide FateOf, WaitsFor, CatcherOf, Fails, Rejects;
    forall n ensures !PendingAt(s, n) {
      if n in w.spec.nodes {
        assert ShapeAt(w, s, n);
      }
    }
  }

  lemma ReleaseShape(w: World, s: State, id: Id)
    requires Shape(w, s)
    ensures Shape(w, s.(reports := map n | n in s.reports :: Release(s.reports[n], id)))
  {
    hide CatcherOf;
    var s' := s.(reports := map n | n in s.reports :: Release(s.reports[n], id));
    forall n | n in w.spec.nodes ensures ShapeAt(w, s', n) {
      assert ShapeAt(w, s, n);
    }
  }

  lemma StillLives(w: World, s: State, id: Id, open: set<Id>)
    requires w.Ranks() && Shape(w, s) && Agrees(w, s, open + {id}) && !HoldsFault(s, id)
    ensures Agrees(w, s, open)
  {
    hide FateOf, WaitsFor, ShapeAt;
    forall m | m in w.spec.nodes ensures AgreesAt(w, s, open, m) {
      assert AgreesAt(w, s, open + {id}, m);
    }
  }

  lemma AllCancelled(w: World, s: State, id: Id, open: set<Id>)
    requires Closed(w, s, open + {id})
    requires forall d :: d in w.spec.nodes && id in WaitsFor(w.spec, d) ==> !PendingAt(s, d)
    ensures Closed(w, s, open)
  {
    hide WaitsFor;
  }

  /** Once everything that waits for a cancelled node is cancelled too, its fault is let go and it is done with. */
  lemma LetGoKeeps(w: World, s: State, id: Id, open: set<Id>, routing: set<Id>)
    requires w.Ranks() && Inv(w, s, open + {id}, routing) && id in w.spec.nodes && CancelledAt(s, id)
    requires FateOf(w, id).Cut?
    requires forall d :: d in w.spec.nodes && id in WaitsFor(w.spec, d) ==> !PendingAt(s, d)
    ensures Inv(w, LetGo(s, id), open, routing)
  {
    hide FateOf, WaitsFor, CatcherOf, Agrees, Closed, Routed, Fails, ShapeAt, End;
    if HoldsFault(s, id) {
      var n :| n in s.reports && s.reports[n].caught == Some(id);
      if s.ending.None? {
        HeldFaultFails(w, s, n, id, open + {id});
      }
      ReleaseShape(w, s, id);
      var released := s.(reports := map n | n in s.reports :: Release(s.reports[n], id));
      EndShape(w, released, EndFailed);
      EndFirstStands(released, EndFailed);
      EndedKeeps(w, LetGo(s, id), open, routing);
    } else {
      AllCancelled(w, s, id, open);
      if s.ending.None? {
        StillLives(w, s, id, open);
      }
    }
  }

  lemma EndFirstStands(s: State, how: Ending)
    ensures End(s, how).ending == if s.ending.None? then Some(how) else s.ending
  {
  }

  lemma {:induction false} CancelKeeps(w: World, s: State, id: Id, open: set<Id>, routing: set<Id>)
    requires w.Sound() && Inv(w, s, open, routing) && id in w.spec.nodes
    requires FateOf(w, id).Cut? || FateOf(w, id).Given?
    ensures Inv(w, Cancel(w.spec, s, id), open, routing) && !PendingAt(Cancel(w.spec, s, id), id)
    decreases PendingOf(s), 0
  {
    hide FateOf, WaitsFor, CatcherOf, RoutesTo, Closed, Routed, Agrees, Fails, LetGo, WellFormed;
    if PendingAt(s, id) {
      GivenIsSeeded(w, s, id);
      var cancelled := Mark(s, id);
      assert id in PendingOf(s) && id !in PendingOf(cancelled) && PendingOf(cancelled) <= PendingOf(s);
      MarkKeeps(w, s, id, open, routing);
      var ids := Dependents(w.spec, id);
      forall d | d in ids ensures d in w.spec.nodes && (FateOf(w, d).Cut? || FateOf(w, d).Given?) {
        CutSpreads(w, d, id);
      }
      CancelAllKeeps(w, cancelled, ids, open + {id}, routing);
      CancelAllOnlyCancels(w.spec, cancelled, ids);
      var spread := CancelAll(w.spec, cancelled, ids);
      DependentsAreAll(w, id);
      LetGoKeeps(w, spread, id, open, routing);
      LetGoOnlyCancels(spread, id);
    }
  }

  lemma DependentsAreAll(w: World, id: Id)
    requires w.Sound()
    ensures forall d :: d in w.spec.nodes && id in WaitsFor(w.spec, d) ==> d in Dependents(w.spec, id)
  {
    hide WaitsFor;
    ListedOnce(w.spec);
  }

  lemma GivenIsSeeded(w: World, s: State, id: Id)
    requires w.Sound() && Shape(w, s) && id in w.spec.nodes
    ensures FateOf(w, id).Given? <==> s.reports[id].status.Seeded?
  {
    hide FateOf, WaitsFor, IsCut, Runs;
    FateIsJudged(w, id);
    assert ShapeAt(w, s, id);
  }

  lemma {:induction false} CancelAllKeeps(w: World, s: State, ids: seq<Id>, open: set<Id>, routing: set<Id>)
    requires w.Sound() && Inv(w, s, open, routing)
    requires forall id :: id in ids ==> id in w.spec.nodes && (FateOf(w, id).Cut? || FateOf(w, id).Given?)
    ensures Inv(w, CancelAll(w.spec, s, ids), open, routing)
    ensures forall id :: id in ids ==> !PendingAt(CancelAll(w.spec, s, ids), id)
    decreases PendingOf(s), |ids| + 1
  {
    hide FateOf, Inv, Cancel, WellFormed, OnlyCancels;
    if ids != [] {
      CancelKeeps(w, s, ids[0], open, routing);
      var first := Cancel(w.spec, s, ids[0]);
      CancelAllKeeps(w, first, ids[1..], open, routing);
      var all := CancelAll(w.spec, first, ids[1..]);
      assert ids[0] !in PendingOf(first) && PendingOf(all) <= PendingOf(first);
      forall id | id in ids ensures !PendingAt(all, id) {
        if id != ids[0] {
          assert id in ids[1..];
        }
      }
    }
  }
}
