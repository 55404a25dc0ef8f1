/** When a node starts and where a switch goes, said of the reports of a run and of the fields nodes are written with. */
module StartLaws {
  import opened Json
  import opened Sources
  import opened Outcomes
  import opened KernelSpec
  import opened ReadLaws
  import opened NodeLaws
  import opened Fates
  import opened Kernel
  import opened Agreement
  import opened Steps
  import opened RunLaws
  import opened Confluence

  // ---- what has come before a node starts -------------------------------------------------------

  /** A node handed on its answer, by running or by having been given it. */
  predicate HasAnswered(s: State, id: Id) {
    id in s.reports && (s.reports[id].status == Done || s.reports[id].status == Seeded)
  }

  /** A switch holds a node's fault. */
  predicate HoldsOf(s: State, id: Id, n: Id) {
    n in s.reports && s.reports[n].caught == Some(id)
  }

  lemma HeldIsCaught(w: World, s: State, id: Id, d: Id)
    requires Shape(w, s) && HoldsOf(s, id, d)
    ensures CatcherOf(w.spec, d) == Some(id) && d in w.spec.nodes
  {
    hide CatcherOf;
    assert ShapeAt(w, s, d);
  }

  /** What a node waits for has answered once it started, or it is a switch that holds its fault. */
  lemma WaitIsMet(w: World, s: State, id: Id, d: Id)
    requires w.Sound() && Inv(w, s, {}, {}) && s.ending.None? && Started(s, id) && id in w.spec.nodes
    requires d in WaitsFor(w.spec, id)
    ensures HasAnswered(s, d) || (HoldsOf(s, id, d) && w.spec.nodes[id].Switch?)
  {
    hide FateOf, WaitsFor, WellFormed, Closed, Routed, Fails, ShapeAt, CatcherOf;
    InvShape(w, s);
    assert AgreesAt(w, s, {}, id);
    if HoldsOf(s, id, d) {
      HeldIsCaught(w, s, id, d);
      CaughtIsWaitedFor(w, id, d);
    }
  }

  /** A node that started is one the evaluation runs. */
  lemma StartedRuns(w: World, s: State, id: Id)
    requires w.Sound() && Inv(w, s, {}, {}) && s.ending.None? && Started(s, id) && id in w.spec.nodes
    ensures Runs(w, id, FatesBefore(w, id)) && !IsCut(w, id, FatesBefore(w, id)) && id !in w.supplied.values
  {
    hide FateOf, WaitsFor, WellFormed, Closed, Routed, Fails, FatesBefore, Runs, IsCut, Comes, CatcherOf;
    InvShape(w, s);
    assert AgreesAt(w, s, {}, id) && ShapeAt(w, s, id);
    FateIsJudged(w, id);
  }

  lemma StartedIsChosen(w: World, s: State, id: Id, router: Id)
    requires w.Sound() && Inv(w, s, {}, {}) && s.ending.None? && Started(s, id) && id in w.spec.nodes
    requires RouterOf(w.spec, id) == Some(router)
    ensures router in s.reports && s.reports[router].selected == Some(id)
  {
    hide FateOf, WaitsFor, WellFormed, Closed, Routed, Fails, FatesBefore, IsCut, CatcherOf, RouterOf, Judge;
    InvShape(w, s);
    StartedRuns(w, s, id);
    FateIsJudged(w, id);
    RouterIsWaitedFor(w, id);
    WaitIsMet(w, s, id, router);
    assert FateOf(w, router).Ran? && FateOf(w, router).selected == Some(id) by {
      hide RootsSupplied, Meets;
      assert IsChosen(w, id, FatesBefore(w, id));
    }
    assert AgreesAt(w, s, {}, router) && ShapeAt(w, s, router);
    GivenIsSeeded(w, s, router);
  }

  /** What is written of a node says what must come before it: said of its fields, none of it through a plan. */
  ghost predicate CameBefore(w: World, s: State, id: Id)
    requires id in w.spec.nodes
  {
    var node := w.spec.nodes[id];
    (forall d, path :: d in w.spec.nodes && Reads(node, d, path) ==> HasAnswered(s, d) || (node.Switch? && HoldsOf(s, id, d))) &&
    (!node.Switch? ==> forall d :: d in node.after && d in w.spec.nodes ==> HasAnswered(s, d)) &&
    (node.Switch? ==> forall i :: 0 <= i < |node.catches| ==> HasAnswered(s, node.catches[i].0) || HoldsOf(s, id, node.catches[i].0)) &&
    (forall root, path :: root in {"in", "const", "context"} && Reads(node, root, path) ==> root in w.supplied.values) &&
    (forall r :: r in w.spec.nodes && Leads(w.spec.nodes[r], id) ==> r in s.reports && s.reports[r].selected == Some(id))
  }

  /** A switch that may route to a node: by a rule, by its fallback, or with a fault it catches. */
  predicate Leads(node: Node, t: Id) {
    node.Switch? &&
    ((exists i :: 0 <= i < |node.rules| && node.rules[i].to == t) || node.fallback == t ||
      exists i :: 0 <= i < |node.catches| && node.catches[i].1 == t)
  }

  /**
   * In no state of a run that has not ended has a node started before what must come before it: each node it reads, and
   * each a call or a map lists in `after`, has answered or been given its answer; each node a switch lists in its `catch`
   * has, or the switch holds its fault; every root it reads was supplied; and a switch that may route to it chose it.
   */
  lemma StartsOnceAllCame(w: World, states: seq<State>, steps: seq<Step>, n: nat, id: Id)
    requires w.Sound() && IsRun(w, states, steps) && n < |states| && states[n].ending.None?
    requires id in w.spec.nodes && Started(states[n], id)
    ensures CameBefore(w, states[n], id)
  {
    hide FateOf, WaitsFor, WellFormed, Inv, FatesBefore, IsCut, IsRun, Started, RouterOf, HasAnswered, HoldsOf, NodeRefs;
    var s, node := states[n], w.spec.nodes[id];
    RunKeeps(w, states, steps, n);
    forall d | d in w.spec.nodes ensures d !in {"in", "const", "context"} { NoRoot(w, d); }
    forall d, path | d in w.spec.nodes && Reads(node, d, path)
      ensures HasAnswered(s, d) || (node.Switch? && HoldsOf(s, id, d))
    {
      WaitsForExactly(w.spec, id, d);
      WaitIsMet(w, s, id, d);
    }
    if node.Switch? {
      forall i | 0 <= i < |node.catches| ensures HasAnswered(s, node.catches[i].0) || HoldsOf(s, id, node.catches[i].0) {
        WaitsForExactly(w.spec, id, node.catches[i].0);
        WaitIsMet(w, s, id, node.catches[i].0);
      }
    } else {
      forall d | d in node.after && d in w.spec.nodes ensures HasAnswered(s, d) {
        WaitsForExactly(w.spec, id, d);
        WaitIsMet(w, s, id, d);
      }
    }
    StartedRuns(w, s, id);
    forall root, path | root in {"in", "const", "context"} && Reads(node, root, path) ensures root in w.supplied.values {
      NodeReads(node, root);
    }
    forall r | r in w.spec.nodes && Leads(w.spec.nodes[r], id) ensures r in s.reports && s.reports[r].selected == Some(id) {
      RoutesToExactly(w.spec.nodes[r], id);
      assert RouterOf(w.spec, id) == Some(r) by { RouterIsUnique(w.spec, w.rank, r, id); }
      StartedIsChosen(w, s, id, r);
    }
  }

  lemma NoRoot(w: World, id: Id)
    requires w.Sound() && id in w.spec.nodes
    ensures id !in {"in", "const", "context"}
  {
    hide Listed, TargetsExist, RoutedOnce, Ranked;
    assert id !in PSEUDO;
  }

  // ---- where a switch goes ----------------------------------------------------------------------

  /** The first written of the nodes in a switch's `catch` whose fault it holds. */
  ghost predicate FirstHeld(s: State, node: Node, id: Id, i: int) {
    node.Switch? && 0 <= i < |node.catches| && HoldsOf(s, id, node.catches[i].0) &&
    forall j :: 0 <= j < i ==> !HoldsOf(s, id, node.catches[j].0)
  }

  ghost predicate HoldsNone(s: State, node: Node, id: Id) {
    node.Switch? && forall i :: 0 <= i < |node.catches| ==> !HoldsOf(s, id, node.catches[i].0)
  }

  /** Where a switch goes by the faults it holds and, holding none, by what its rules say of what it reads. */
  ghost predicate GoesTo(s: State, node: Node, id: Id, inputs: Inputs, to: Id) {
    node.Switch? &&
    (forall i :: FirstHeld(s, node, id, i) ==> to == node.catches[i].1) &&
    (HoldsNone(s, node, id) ==>
      (forall i :: FirstHolding(node.rules, inputs, i) ==> to == node.rules[i].to) &&
      ((forall i :: 0 <= i < |node.rules| ==> !node.rules[i].holds(inputs)) ==> to == node.fallback))
  }

  lemma RouteGoes(s: State, node: Node, id: Id, values: Values, broke: set<Id>)
    requires node.Switch? && forall i :: 0 <= i < |node.catches| ==> (node.catches[i].0 in broke <==> HoldsOf(s, id, node.catches[i].0))
    ensures GoesTo(s, node, id, ReadAll(node.inputs, values), RouteOf(node, values, broke))
  {
    hide ReadAll, RouteOf, FirstHolding, HoldsOf;
    RouteIsFirst(node, values, broke);
    forall i | FirstHeld(s, node, id, i) ensures FirstCaught(node.catches, broke, i) {}
  }

  /** A switch that starts selects where it goes, by what it holds as it starts, and that name is its value. */
  lemma StartSelects(w: World, s: State, id: Id)
    requires id in w.spec.nodes && id in s.reports && w.spec.nodes[id].Switch?
    ensures var node, after := w.spec.nodes[id], Start(w, s, id);
      id in after.reports && after.reports[id].selected.Some? &&
      GoesTo(s, node, id, ReadAll(node.inputs, s.values), after.reports[id].selected.value) &&
      Lookup(after.values, id) == Some(Str(after.reports[id].selected.value))
  {
    hide CancelAll, TargetsOf, Unselected, ReadAll, RouteOf, GoesTo;
    var node, routed := w.spec.nodes[id], Select(w, s, id);
    CancelAllOnlyCancels(w.spec, routed, Unselected(TargetsOf(node), routed.reports[id].selected.value));
    RouteGoes(s, node, id, s.values, CaughtBy(s, id));
  }

  /**
   * Over runs: in a run that has not ended, a switch that routed went where the first written of the nodes in its `catch`
   * whose fault its run still marks as caught by it sends it, whatever its rules say of what it reads.
   */
  lemma SwitchWentFirst(w: World, states: seq<State>, steps: seq<Step>, n: nat, id: Id, i: nat)
    requires w.Sound() && IsRun(w, states, steps) && n < |states| && states[n].ending.None?
    requires id in w.spec.nodes && FirstHeld(states[n], w.spec.nodes[id], id, i) && Started(states[n], id)
    ensures states[n].reports[id].selected == Some(w.spec.nodes[id].catches[i].1)
  {
    hide FateOf, WaitsFor, WellFormed, FatesBefore, IsCut, Runs, IsRun, RouterOf, CatcherOf, RouteOf, Closed, Routed, Fails;
    var s, node := states[n], w.spec.nodes[id];
    RunKeeps(w, states, steps, n);
    InvShape(w, s);
    StartedRuns(w, s, id);
    FateIsJudged(w, id);
    assert AgreesAt(w, s, {}, id) && ShapeAt(w, s, id);
    var values, broke := FateValues(w, FatesBefore(w, id)), FateBroke(w, id, FatesBefore(w, id));
    assert s.reports[id].selected == Some(RouteOf(node, values, broke));
    forall k | 0 <= k < |node.catches| ensures node.catches[k].0 in broke <==> HoldsOf(s, id, node.catches[k].0) {
      CaughtAsHeld(w, s, id, k);
    }
    RouteGoes(s, node, id, values, broke);
  }

  /** The evaluation holds a fault against a switch exactly where the run's reports do. */
  lemma CaughtAsHeld(w: World, s: State, id: Id, k: nat)
    requires w.Sound() && Inv(w, s, {}, {}) && s.ending.None? && Started(s, id) && id in w.spec.nodes
    requires w.spec.nodes[id].Switch? && k < |w.spec.nodes[id].catches|
    ensures var d := w.spec.nodes[id].catches[k].0;
      d in FateBroke(w, id, FatesBefore(w, id)) <==> HoldsOf(s, id, d)
  {
    hide FateOf, WaitsFor, WellFormed, FatesBefore, CatcherOf, RouterOf, Closed, Routed, Fails, Judge;
    var d := w.spec.nodes[id].catches[k].0;
    InvShape(w, s);
    WaitsForExactly(w.spec, id, d);
    WaitIsMet(w, s, id, d);
    FateIsJudged(w, id);
    MetMeets(w, s, id, d);
  }

  // ---- what a blocked run needs -----------------------------------------------------------------

  /** A run needs exactly the paths written under a root that was not supplied, in a node that is pending. */
  lemma NeedsAre(w: World, s: State, root: string, path: Path)
    ensures (root, path) in Needs(w, s) <==>
      root in {"in", "const", "context"} && root !in s.values &&
      exists id :: id in w.spec.nodes && id in s.reports && s.reports[id].status == Pending && Reads(w.spec.nodes[id], root, path)
  {
    hide NodePaths, Reads;
    forall id | id in w.spec.nodes ensures (root, path) in NodePaths(w.spec.nodes[id]) <==> Reads(w.spec.nodes[id], root, path) {
      NodeReadsAt(w.spec.nodes[id], root, path);
    }
  }
}
