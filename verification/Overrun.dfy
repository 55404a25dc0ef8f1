/** When a switch that routes ends its own run: and so, when the rest of its batch starts in a run that has ended. */
module Overrun {
  import opened Json
  import opened KernelSpec
  import opened Fates
  import opened Kernel
  import opened Agreement
  import opened RunLaws

  /** A path of pending nodes, each waiting for the one before it. */
  predicate Chain(spec: Spec, s: State, path: seq<Id>) {
    path != [] && (forall i :: 0 <= i < |path| ==> PendingAt(s, path[i])) &&
    (forall i :: 0 <= i < |path| - 1 ==> path[i + 1] in Dependents(spec, path[i]))
  }

  /** Along pending nodes, a node leads to a switch that holds a caught fault. */
  ghost predicate LeadsToFault(spec: Spec, s: State, id: Id) {
    exists path :: Chain(spec, s, path) && path[0] == id && HoldsFault(s, path[|path| - 1])
  }

  // ---- cancelling stops what it reaches ---------------------------------------------------------

  lemma CancelStops(spec: Spec, s: State, id: Id)
    ensures !PendingAt(Cancel(spec, s, id), id)
  {
    CancelOnlyCancels(spec, s, id);
    if PendingAt(s, id) {
      var cancelled := Mark(s, id);
      assert id in PendingOf(s) && id !in PendingOf(cancelled) && PendingOf(cancelled) <= PendingOf(s);
      CancelAllOnlyCancels(spec, cancelled, Dependents(spec, id));
      var spread := CancelAll(spec, cancelled, Dependents(spec, id));
      LetGoOnlyCancels(spread, id);
    }
  }

  lemma {:induction false} CancelAllStops(spec: Spec, s: State, ids: seq<Id>)
    ensures forall id :: id in ids ==> !PendingAt(CancelAll(spec, s, ids), id)
    decreases |ids|
  {
    hide Cancel;
    if ids != [] {
      var first := Cancel(spec, s, ids[0]);
      CancelStops(spec, s, ids[0]);
      CancelAllStops(spec, first, ids[1..]);
      CancelAllOnlyCancels(spec, first, ids[1..]);
      var all := CancelAll(spec, first, ids[1..]);
      forall id | id in ids ensures !PendingAt(all, id) {
        if id == ids[0] {
          StaysStopped(first, all, id);
        } else {
          assert id in ids[1..];
        }
      }
    }
  }

  lemma StaysStopped(s: State, s': State, id: Id)
    requires OnlyCancels(s, s')
    ensures !PendingAt(s, id) ==> !PendingAt(s', id)
    ensures HoldsFault(s', id) ==> HoldsFault(s, id)
    ensures s'.ending.None? ==> s.ending.None? && (HoldsFault(s, id) ==> HoldsFault(s', id))
  {
    if HoldsFault(s', id) {
      var n :| n in s'.reports && s'.reports[n].caught == Some(id);
      assert OnlyCancelled(s.reports[n], s'.reports[n], s'.ending);
    }
    if HoldsFault(s, id) {
      var n :| n in s.reports && s.reports[n].caught == Some(id);
      assert OnlyCancelled(s.reports[n], s'.reports[n], s'.ending);
    }
  }

  // ---- what ends a run was there to be found ----------------------------------------------------

  lemma LeadsBefore(spec: Spec, s: State, s': State, id: Id)
    requires OnlyCancels(s, s') && LeadsToFault(spec, s', id)
    ensures LeadsToFault(spec, s, id)
  {
    hide Dependents;
    var path :| Chain(spec, s', path) && path[0] == id && HoldsFault(s', path[|path| - 1]);
    forall i | 0 <= i < |path| ensures PendingAt(s, path[i]) {
      StaysStopped(s, s', path[i]);
    }
    StaysStopped(s, s', path[|path| - 1]);
    assert Chain(spec, s, path);
  }

  lemma LeadsOn(spec: Spec, s: State, id: Id, d: Id)
    requires PendingAt(s, id) && d in Dependents(spec, id) && LeadsToFault(spec, s, d)
    ensures LeadsToFault(spec, s, id)
  {
    hide Dependents;
    var path :| Chain(spec, s, path) && path[0] == d && HoldsFault(s, path[|path| - 1]);
    var longer := [id] + path;
    forall i | 0 <= i < |longer| - 1 ensures longer[i + 1] in Dependents(spec, longer[i]) {
      assert i > 0 ==> longer[i] == path[i - 1];
    }
    assert Chain(spec, s, longer);
  }

  lemma {:induction false} CancelFinds(spec: Spec, s: State, id: Id)
    requires s.ending.None? && Cancel(spec, s, id).ending.Some?
    ensures LeadsToFault(spec, s, id)
    decreases PendingOf(s), 0
  {
    hide Dependents, OnlyCancels;
    assert PendingAt(s, id);
    var cancelled := Mark(s, id);
    assert id in PendingOf(s) && id !in PendingOf(cancelled) && PendingOf(cancelled) <= PendingOf(s);
    assert OnlyCancels(s, cancelled) by { MarksOnlyCancel(s, id); }
    var ids := Dependents(spec, id);
    var spread := CancelAll(spec, cancelled, ids);
    if spread.ending.Some? {
      var d := CancelAllFinds(spec, cancelled, ids);
      LeadsBefore(spec, s, cancelled, d);
      LeadsOn(spec, s, id, d);
    } else {
      CancelAllOnlyCancels(spec, cancelled, ids);
      OnlyCancelsTrans(s, cancelled, spread);
      StaysStopped(s, spread, id);
      assert Chain(spec, s, [id]);
    }
  }

  lemma MarksOnlyCancel(s: State, id: Id)
    requires PendingAt(s, id)
    ensures OnlyCancels(s, Mark(s, id))
  {
  }

  lemma {:induction false} CancelAllFinds(spec: Spec, s: State, ids: seq<Id>) returns (d: Id)
    requires s.ending.None? && CancelAll(spec, s, ids).ending.Some?
    ensures d in ids && LeadsToFault(spec, s, d)
    decreases PendingOf(s), |ids| + 1
  {
    hide Cancel, LeadsToFault;
    var first := Cancel(spec, s, ids[0]);
    if first.ending.Some? {
      CancelFinds(spec, s, ids[0]);
      d := ids[0];
    } else {
      d := CancelAllFinds(spec, first, ids[1..]);
      CancelOnlyCancels(spec, s, ids[0]);
      LeadsBefore(spec, s, first, d);
    }
  }

  // ---- and what is there is found ---------------------------------------------------------------

  /** What was cancelled held no fault, and nothing that waits for it is pending. */
  ghost predicate Swept(spec: Spec, s: State, s': State) {
    forall x :: PendingAt(s, x) && !PendingAt(s', x) ==>
      !HoldsFault(s, x) && forall d :: d in Dependents(spec, x) ==> !PendingAt(s', d)
  }

  lemma SweptTrans(spec: Spec, s: State, s': State, s'': State)
    requires Swept(spec, s, s') && Swept(spec, s', s'') && OnlyCancels(s, s') && OnlyCancels(s', s'')
    requires s''.ending.None?
    ensures Swept(spec, s, s'')
  {
    hide Dependents, OnlyCancels, HoldsFault;
    forall x | PendingAt(s, x) && !PendingAt(s'', x)
      ensures !HoldsFault(s, x) && forall d :: d in Dependents(spec, x) ==> !PendingAt(s'', d)
    {
      StaysStopped(s', s'', x);
      StaysStopped(s, s', x);
      forall d | d in Dependents(spec, x) ensures !PendingAt(s'', d) {
        StaysStopped(s', s'', d);
      }
    }
  }

  lemma {:induction false} CancelSweeps(spec: Spec, s: State, id: Id)
    requires Cancel(spec, s, id).ending.None?
    ensures Swept(spec, s, Cancel(spec, s, id))
    decreases PendingOf(s), 0
  {
    hide Dependents, OnlyCancels;
    if PendingAt(s, id) {
      var cancelled := Mark(s, id);
      assert id in PendingOf(s) && id !in PendingOf(cancelled) && PendingOf(cancelled) <= PendingOf(s);
      assert OnlyCancels(s, cancelled) by { MarksOnlyCancel(s, id); }
      var ids := Dependents(spec, id);
      var spread := CancelAll(spec, cancelled, ids);
      assert LetGo(spread, id) == spread && !HoldsFault(spread, id);
      CancelAllSweeps(spec, cancelled, ids);
      CancelAllStops(spec, cancelled, ids);
      CancelAllOnlyCancels(spec, cancelled, ids);
      OnlyCancelsTrans(s, cancelled, spread);
      forall x | PendingAt(s, x) && !PendingAt(spread, x)
        ensures !HoldsFault(s, x) && forall d :: d in Dependents(spec, x) ==> !PendingAt(spread, d)
      {
        StaysStopped(s, spread, x);
        StaysStopped(cancelled, spread, x);
        assert x != id ==> PendingAt(cancelled, x);
      }
    }
  }

  lemma {:induction false} CancelAllSweeps(spec: Spec, s: State, ids: seq<Id>)
    requires CancelAll(spec, s, ids).ending.None?
    ensures Swept(spec, s, CancelAll(spec, s, ids))
    decreases PendingOf(s), |ids| + 1
  {
    hide Cancel, Swept, OnlyCancels;
    if ids != [] {
      var first := Cancel(spec, s, ids[0]);
      CancelOnlyCancels(spec, s, ids[0]);
      CancelAllOnlyCancels(spec, first, ids[1..]);
      StaysStopped(first, CancelAll(spec, first, ids[1..]), ids[0]);
      CancelSweeps(spec, s, ids[0]);
      CancelAllSweeps(spec, first, ids[1..]);
      SweptTrans(spec, s, first, CancelAll(spec, first, ids[1..]));
    } else {
      assert Swept(spec, s, s) by { NothingSwept(spec, s); }
    }
  }

  lemma NothingSwept(spec: Spec, s: State)
    ensures Swept(spec, s, s)
  {
  }

  lemma {:induction false} SweptAlong(spec: Spec, s: State, s': State, path: seq<Id>, i: nat)
    requires Swept(spec, s, s') && Chain(spec, s, path) && !PendingAt(s', path[0]) && i < |path|
    ensures !PendingAt(s', path[i]) && !HoldsFault(s, path[i])
  {
    hide Dependents, HoldsFault;
    if i > 0 {
      SweptAlong(spec, s, s', path, i - 1);
      assert path[i - 1 + 1] in Dependents(spec, path[i - 1]);
    }
  }

  /**
   * Cancelling ends the run if and only if, along nodes that are pending, what is cancelled leads to a switch that
   * holds a fault it has not routed.
   */
  lemma CancelEnds(spec: Spec, s: State, ids: seq<Id>)
    requires s.ending.None?
    ensures CancelAll(spec, s, ids).ending.Some? <==> exists d :: d in ids && LeadsToFault(spec, s, d)
  {
    hide CancelAll, Dependents;
    var s' := CancelAll(spec, s, ids);
    if s'.ending.Some? {
      var d := CancelAllFinds(spec, s, ids);
    } else {
      CancelAllSweeps(spec, s, ids);
      CancelAllStops(spec, s, ids);
      forall d | d in ids ensures !LeadsToFault(spec, s, d) {
        forall path | Chain(spec, s, path) && path[0] == d ensures !HoldsFault(s, path[|path| - 1]) {
          SweptAlong(spec, s, s', path, |path| - 1);
        }
      }
    }
  }

  // ---- a batch ----------------------------------------------------------------------------------

  /** A switch that, as it routes, gives up one that holds a fault. */
  ghost predicate GivesUpFault(w: World, s: State, id: Id)
    requires id in w.spec.nodes && id in s.reports
  {
    w.spec.nodes[id].Switch? &&
    var routed := Select(w, s, id);
    exists t :: t in TargetsOf(w.spec.nodes[id]) && Some(t) != routed.reports[id].selected && LeadsToFault(w.spec, routed, t)
  }

  ghost predicate SomeGivesUpFault(w: World, s: State, ids: seq<Id>)
    requires forall id :: id in ids ==> id in w.spec.nodes && id in s.reports
    decreases |ids|
  {
    ids != [] &&
    (GivesUpFault(w, s, ids[0]) ||
     (Start(w, s, ids[0]).reports.Keys == s.reports.Keys && SomeGivesUpFault(w, Start(w, s, ids[0]), ids[1..])))
  }

  lemma StartEnds(w: World, s: State, id: Id)
    requires s.ending.None? && id in w.spec.nodes && id in s.reports
    ensures Start(w, s, id).ending.Some? <==> GivesUpFault(w, s, id)
    ensures Start(w, s, id).reports.Keys == s.reports.Keys
  {
    hide CancelAll, TargetsOf, LeadsToFault, NodeOutcome, RouteOf, CaughtBy;
    if w.spec.nodes[id].Switch? {
      var routed := Select(w, s, id);
      var ids := Unselected(TargetsOf(w.spec.nodes[id]), routed.reports[id].selected.value);
      CancelEnds(w.spec, routed, ids);
      CancelAllOnlyCancels(w.spec, routed, ids);
    }
  }

  lemma {:induction false} StartAllEnds(w: World, s: State, ids: seq<Id>)
    requires s.ending.None? && forall id :: id in ids ==> id in w.spec.nodes && id in s.reports
    ensures StartAll(w, s, ids).ending.Some? <==> SomeGivesUpFault(w, s, ids)
    decreases |ids|
  {
    hide Start, GivesUpFault;
    if ids != [] {
      var first := Start(w, s, ids[0]);
      StartEnds(w, s, ids[0]);
      if first.ending.Some? {
        StillEnded(w, first, ids[1..]);
      } else {
        StartAllEnds(w, first, ids[1..]);
      }
    }
  }

  lemma {:induction false} StillEnded(w: World, s: State, ids: seq<Id>)
    requires s.ending.Some? && forall id :: id in ids ==> id in w.spec.nodes
    ensures StartAll(w, s, ids).ending == s.ending
    decreases |ids|
  {
    hide Start;
    if ids != [] {
      if ids[0] in s.reports {
        StaysEnded(w, s, ids[0]);
        StillEnded(w, Start(w, s, ids[0]), ids[1..]);
      } else {
        StillEnded(w, s, ids[1..]);
      }
    }
  }

  lemma StaysEnded(w: World, s: State, id: Id)
    requires s.ending.Some? && id in w.spec.nodes && id in s.reports
    ensures Start(w, s, id).ending == s.ending
  {
    hide CancelAll, TargetsOf, Unselected, NodeOutcome, RouteOf, CaughtBy;
    if w.spec.nodes[id].Switch? {
      var routed := Select(w, s, id);
      CancelAllOnlyCancels(w.spec, routed, Unselected(TargetsOf(w.spec.nodes[id]), routed.reports[id].selected.value));
    }
  }

  /**
   * The last node of a batch starts in a run that has ended if and only if a switch before it in the batch gave up,
   * as it routed, a switch that held a fault. Nothing else in a batch ends a run.
   */
  lemma LastStartsLate(w: World, s: State, ids: seq<Id>)
    requires s.ending.None? && ids != [] && forall id :: id in ids ==> id in w.spec.nodes && id in s.reports
    ensures StartAll(w, s, ids[..|ids| - 1]).ending.Some? <==> SomeGivesUpFault(w, s, ids[..|ids| - 1])
  {
    StartAllEnds(w, s, ids[..|ids| - 1]);
  }
}
