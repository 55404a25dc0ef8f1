/** Every guard of a graph, one after another: as the compiler writes them in place, and what the whole then means. */
module GuardsTogether {
  import opened Json
  import opened Sources
  import opened Outcomes
  import opened KernelSpec
  import opened Kernel
  import opened Fates
  import opened Guards
  import opened GuardSites
  import opened GuardWaits
  import opened GuardFates
  import opened GuardOwn
  import opened GuardLaws
  import opened Meaning

  // ---- in place ---------------------------------------------------------------------------------

  predicate Lowerable(spec: Spec, guard: Guard) {
    guard.unproved != [] && (guard.kind.Made? ==> guard.id in spec.nodes)
  }

  /** Guards written one after another. */
  function LowerAll(spec: Spec, guards: seq<Guard>, handlers: GuardHandlers): Spec
    decreases |guards|
  {
    if guards == [] then spec
    else LowerAll(
      if Lowerable(spec, guards[0]) then LowerWithOutput(spec, guards[0], handlers) else spec, guards[1..], handlers)
  }

  ghost predicate AllLowerable(spec: Spec, guards: seq<Guard>, handlers: GuardHandlers)
    decreases |guards|
  {
    guards == [] ||
    (Lowerable(spec, guards[0]) && AllLowerable(LowerWithOutput(spec, guards[0], handlers), guards[1..], handlers))
  }

  /** A spec as the compiler holds it: nodes by id in the order they are written, and what it answers with. */
  class SpecInPlace {
    var nodes: map<Id, Node>
    var order: seq<Id>
    var output: Option<seq<Id>>

    function At(): Spec
      reads this
    {
      Spec(nodes, order, output)
    }

    constructor (spec: Spec)
      ensures At() == spec
    {
      nodes, order, output := spec.nodes, spec.order, spec.output;
    }

    /** One switch's routes to `from` sent to `to`. */
    method RerouteSwitch(id: Id, from: Id, to: Id)
      requires id in nodes && nodes[id].Switch?
      modifies this`nodes
      ensures nodes == old(nodes)[id := Rerouted(old(nodes[id]), from, to)]
    {
      var node := nodes[id];
      var rules := node.rules;
      for i := 0 to |rules|
        invariant |rules| == |node.rules|
        invariant forall k :: 0 <= k < |rules| ==>
          rules[k] == if k < i then node.rules[k].(to := Sent(node.rules[k].to, from, to)) else node.rules[k]
      {
        if rules[i].to == from {
          rules := rules[i := rules[i].(to := to)];
        }
      }
      assert rules == SentRules(node.rules, from, to);
      var fallback := node.fallback;
      if fallback == from {
        fallback := to;
      }
      var catches := node.catches;
      for i := 0 to |catches|
        invariant |catches| == |node.catches|
        invariant forall k :: 0 <= k < |catches| ==>
          catches[k] == if k < i then (node.catches[k].0, Sent(node.catches[k].1, from, to)) else node.catches[k]
      {
        if catches[i].1 == from {
          catches := catches[i := (catches[i].0, to)];
        }
      }
      assert catches == SentCatches(node.catches, from, to);
      nodes := nodes[id := node.(rules := rules, fallback := fallback, catches := catches)];
    }

    /** Whatever routed a node now routes where it moved. */
    method Reroute(from: Id, to: Id)
      modifies this`nodes
      ensures nodes == ReroutedAll(old(nodes), from, to)
    {
      hide Rerouted;
      ghost var before := nodes;
      var left := nodes.Keys;
      while left != {}
        invariant nodes.Keys == before.Keys && left <= before.Keys
        invariant forall id :: id in before ==>
          nodes[id] == if id in left then before[id] else Rerouted(before[id], from, to)
        decreases left
      {
        var id :| id in left;
        if nodes[id].Switch? {
          RerouteSwitch(id, from, to);
        } else {
          CallsStay(nodes[id], from, to);
        }
        left := left - {id};
      }
    }

    /** One guard written into the spec. */
    method LowerGuard(guard: Guard, handlers: GuardHandlers)
      requires Lowerable(At(), guard)
      modifies this`nodes, this`order
      ensures At() == LowerOne(old(At()), guard, handlers)
    {
      hide GuardNodes, GuardMap, ViolatedIds, ReroutedAll, IdsOf;
      var ids := IdsOf(guard);
      if guard.kind.Made? {
        var made := nodes[guard.id];
        nodes := nodes - {guard.id};
        nodes := nodes[ids.made := made];
        order := Without(order, guard.id) + [ids.made];
        Reroute(guard.id, ids.made);
      }
      if guard.arity.Many? {
        nodes := nodes + map[ids.ok := GuardMap(ids.made, guard.nested)];
        order := order + [ids.ok];
        return;
      }
      nodes := nodes + GuardNodes(guard, ids, handlers);
      order := order + ([ids.check, ids.ok] + ViolatedIds(ids, |guard.unproved|));
    }

    /** The candidates, each guard's refusals put after its value. */
    static method PutViolated(output: seq<Id>, guard: Guard) returns (out: seq<Id>)
      ensures out == WithViolated(output, guard)
    {
      hide ViolatedIds, IdsOf;
      if guard.arity.Many? {
        return output;
      }
      out := [];
      var ids := IdsOf(guard);
      for i := 0 to |output|
        invariant out + WithViolated(output[i..], guard) == WithViolated(output, guard)
      {
        assert output[i..][1..] == output[i + 1..];
        out := out + [output[i]];
        if output[i] == ids.ok {
          out := out + ViolatedIds(ids, |guard.unproved|);
        }
      }
    }

    /** Every guard of a graph written into its spec, in the order they are found. */
    method LowerGuards(guards: seq<Guard>, handlers: GuardHandlers)
      requires AllLowerable(At(), guards, handlers)
      modifies this
      ensures At() == LowerAll(old(At()), guards, handlers)
    {
      hide LowerOne, WithViolated;
      var candidates := output;
      ghost var spec := At();
      for i := 0 to |guards|
        invariant At() == spec.(output := output) && spec.output == candidates
        invariant AllLowerable(spec, guards[i..], handlers)
        invariant LowerAll(spec, guards[i..], handlers) == LowerAll(old(At()), guards, handlers)
      {
        assert guards[i..][1..] == guards[i + 1..] && guards[i..][0] == guards[i];
        LowerIgnoresOutput(spec, output, guards[i], handlers);
        LowerGuard(guards[i], handlers);
        if candidates.Some? {
          var out := PutViolated(candidates.value, guards[i]);
          candidates := Some(out);
        }
        spec := LowerWithOutput(spec, guards[i], handlers);
      }
      output := candidates;
    }
  }

  lemma LowerIgnoresOutput(spec: Spec, output: Option<seq<Id>>, guard: Guard, handlers: GuardHandlers)
    requires Lowerable(spec, guard)
    ensures Lowerable(spec.(output := output), guard)
    ensures LowerOne(spec.(output := output), guard, handlers) == LowerOne(spec, guard, handlers).(output := output)
  {
    hide AddedNodes, AddedIds, IdsOf, ReroutedAll;
  }

  // ---- one guard leaves the next where it stood -------------------------------------------------

  /** Two guards of one graph: different sites, whose ids do not meet. */
  ghost predicate Apart(one: Guard, other: Guard) {
    one.id != other.id && FreshIds(one) !! FreshIds(other)
  }

  lemma StillUnnamed(w: World, guard: Guard, handlers: GuardHandlers, id: Id)
    requires w.Sound() && Standing(w, guard) && Unnamed(w.spec, id) && id !in FreshIds(guard)
    ensures Unnamed(Lowered(w, guard, handlers).spec, id)
  {
    hide Standing, WellFormed, LowerOne, AddedIds, AddedNodes, FreshIds, IdsOf, NodeRefs, Named, CatchesKey, Rerouted;
    StandsAt(w, guard);
    OwnAreFresh(guard);
    var spec := Lowered(w, guard, handlers).spec;
    NodesAre(w, guard, handlers, id);
    FreshOrThere(guard, id);
    forall n | n in spec.nodes
      ensures id !in NodeRefs(spec.nodes[n]) && id !in Named(spec.nodes[n]) && !CatchesKey(spec.nodes[n], id)
    {
      ReadsAre(w, guard, handlers, n);
      AddedCatchNothing(w, guard, handlers, n, id);
    }
    OutputsAre(w, guard, handlers, id);
  }

  /** What the lowered nodes read and name: what they did, and the guard's own the moved node alone. */
  lemma ReadsAre(w: World, guard: Guard, handlers: GuardHandlers, n: Id)
    requires w.Sound() && Standing(w, guard) && n in Lowered(w, guard, handlers).spec.nodes
    ensures var node, made := Lowered(w, guard, handlers).spec.nodes[n], IdsOf(guard).made;
      if n in w.spec.nodes && n != guard.id then
        NodeRefs(node) == NodeRefs(w.spec.nodes[n]) && Named(node) == Named(w.spec.nodes[n])
      else if n == made then node == w.spec.nodes[guard.id]
      else NodeRefs(node) <= {made} && Named(node) == {}
  {
    hide Standing, WellFormed, Lowered, AddedIds, AddedNodes, FreshIds, IdsOf, NodeRefs, Named, Rerouted, OkNode, CheckNode, GuardMap, ViolatedNode, ViolatedId;
    StandsAt(w, guard);
    NodesAre(w, guard, handlers, n);
    if n in w.spec.nodes && n != guard.id {
      SentReads(w.spec.nodes[n], guard.id, IdsOf(guard).made);
    } else if n != IdsOf(guard).made {
      AddedAre(guard, handlers, n);
      if n == guard.id {
        OkReads(guard, handlers);
      } else if guard.arity.One? && n == IdsOf(guard).check {
        CheckReads(guard);
      } else {
        var at :| 0 <= at < |guard.unproved| && n == ViolatedId(IdsOf(guard), at);
        RefusalIs(guard, handlers, at);
        RefusalReads(guard.unproved[at], guard.shape, handlers);
      }
    }
  }

  lemma {:induction false} ViolatedOutputs(output: seq<Id>, guard: Guard, id: Id)
    requires guard.kind.Made? && guard.unproved != []
    ensures id in WithViolated(output, guard) ==> id in output || id in FreshIds(guard)
    decreases |output|
  {
    hide IdsOf, FreshIds, ViolatedId;
    if output != [] && !guard.arity.Many? {
      ViolatedOutputs(output[1..], guard, id);
      var ids := IdsOf(guard);
      if output[0] == ids.ok && id in ViolatedIds(ids, |guard.unproved|) {
        var at :| 0 <= at < |guard.unproved| && ViolatedIds(ids, |guard.unproved|)[at] == id;
        RefusalInFresh(guard, at);
      }
    }
  }

  lemma RefusalInFresh(guard: Guard, at: nat)
    requires guard.kind.Made? && guard.arity.One? && at < |guard.unproved|
    ensures ViolatedId(IdsOf(guard), at) in FreshIds(guard)
  {
    hide ViolatedId;
    IdsDiffer(guard, at);
    assert ViolatedIds(IdsOf(guard), |guard.unproved|)[at] == ViolatedId(IdsOf(guard), at);
  }

  lemma OutputsAre(w: World, guard: Guard, handlers: GuardHandlers, id: Id)
    requires w.Ranks() && Standing(w, guard)
    ensures var output := Lowered(w, guard, handlers).spec.output;
      (output.Some? <==> w.spec.output.Some?) &&
      (output.Some? && id in output.value ==> id in w.spec.output.value || id in FreshIds(guard))
  {
    hide Standing, LowerOne, FreshIds, WithViolated;
    StandsAt(w, guard);
    if w.spec.output.Some? {
      ViolatedOutputs(w.spec.output.value, guard, id);
    }
  }

  lemma StillUnread(w: World, guard: Guard, handlers: GuardHandlers, r: Id)
    requires w.Sound() && Standing(w, guard) && r in w.spec.nodes && Unread(w.spec, r)
    ensures Unread(Lowered(w, guard, handlers).spec, r)
  {
    hide Standing, WellFormed, Lowered, AddedIds, AddedNodes, FreshIds, IdsOf, NodeRefs, Named;
    StandsAt(w, guard);
    OwnAreFresh(guard);
    FreshAreUnnamed(w, guard);
    var spec := Lowered(w, guard, handlers).spec;
    forall n | n in spec.nodes ensures r !in NodeRefs(spec.nodes[n]) {
      ReadsAre(w, guard, handlers, n);
    }
    OutputsAre(w, guard, handlers, r);
  }

  /** What chooses another guarded node afterwards chose it before, so its name is as unread. */
  lemma StillClear(w: World, guard: Guard, handlers: GuardHandlers, other: Guard)
    requires Guardable(w, guard, handlers) && Placed(w, other, handlers) && guard.id in w.spec.nodes && other.id in w.spec.nodes
    requires Apart(guard, other) && Clear(w, other)
    ensures Lowered(w, guard, handlers).Sound() && other.id in Lowered(w, guard, handlers).spec.nodes
    ensures Clear(Lowered(w, guard, handlers), other)
  {
    hide WellFormed, Standing, Handled, LowerWithOutput, FateOf, IdsOf, AddedIds, AddedNodes, FreshIds, RoutesTo, CatcherOf, Unread, IsRefusal;
    LoweredStands(w, guard, handlers);
    StandsAt(w, guard);
    StandsAt(w, other);
    OwnAreFresh(guard);
    FreshAreUnnamed(w, guard);
    var w' := Lowered(w, guard, handlers);
    StillSame(w, guard, handlers, other.id);
    FateSelects(w, other.id);
    CallsRouteNowhere(w.spec.nodes[other.id], guard.id);
    CatchersAre(w, guard, handlers, other.id);
    forall r | r in w'.spec.nodes && Chose(w', r, other.id) ensures Unread(w'.spec, r) {
      FateSelects(w', r);
      RoutesAre(w, guard, handlers, r, other.id);
      if IsRefusal(guard, other.id) {
        RefusalIsFresh(w, guard, other.id);
      }
      StillSame(w, guard, handlers, r);
      assert Chose(w, r, other.id);
      StillUnread(w, guard, handlers, r);
    }
  }

  lemma StillStanding(w: World, guard: Guard, handlers: GuardHandlers, other: Guard)
    requires w.Sound() && Standing(w, guard) && Standing(w, other) && Apart(guard, other)
    ensures Standing(Lowered(w, guard, handlers), other)
  {
    hide WellFormed, LowerWithOutput, AddedIds, AddedNodes, FreshIds, IdsOf, CatchesKey, Unnamed;
    var w' := Lowered(w, guard, handlers);
    NodesAre(w, guard, handlers, other.id);
    CallsStay(w.spec.nodes[other.id], guard.id, IdsOf(guard).made);
    forall id | id in FreshIds(other) ensures Unnamed(w'.spec, id) {
      StillUnnamed(w, guard, handlers, id);
    }
  }

  lemma StillHandled(w: World, guard: Guard, handlers: GuardHandlers, other: Guard)
    requires w.Sound() && Standing(w, guard) && Standing(w, other) && guard.id != other.id && Handled(w, other, handlers)
    ensures Handled(Lowered(w, guard, handlers), other, handlers)
  {
    hide Standing, WellFormed, LowerWithOutput, AddedIds, AddedNodes, FreshIds, IdsOf, Makes, Refuses, Nests, Placeless;
    StandsAt(w, guard);
    StandsAt(w, other);
    NodesAre(w, guard, handlers, other.id);
    CallsStay(w.spec.nodes[other.id], guard.id, IdsOf(guard).made);
  }

  /** A guard that can be lowered can be lowered after another. */
  lemma StillGuardable(w: World, guard: Guard, handlers: GuardHandlers, other: Guard)
    requires Guardable(w, guard, handlers) && Guardable(w, other, handlers) && Apart(guard, other)
    ensures Guardable(Lowered(w, guard, handlers), other, handlers)
  {
    hide WellFormed, Standing, Handled, Clear, Lowered;
    StandsAt(w, guard);
    StandsAt(w, other);
    LoweredIsSound(w, guard, handlers);
    StillStanding(w, guard, handlers, other);
    StillHandled(w, guard, handlers, other);
    StillClear(w, guard, handlers, other);
  }

  // ---- all of them ------------------------------------------------------------------------------

  /** Guards that can be lowered into one spec: each at its site, and no two at one. */
  ghost predicate AllGuardable(w: World, guards: seq<Guard>, handlers: GuardHandlers) {
    (forall i :: 0 <= i < |guards| ==> Guardable(w, guards[i], handlers)) &&
    (forall i, j :: 0 <= i < j < |guards| ==> Apart(guards[i], guards[j]))
  }

  lemma RestGuardable(w: World, guards: seq<Guard>, handlers: GuardHandlers)
    requires guards != [] && w.Sound() && AllGuardable(w, guards, handlers)
    ensures Guardable(w, guards[0], handlers) && guards[0].id in w.spec.nodes && guards[0].kind.Made? && guards[0].unproved != []
    ensures AllGuardable(Lowered(w, guards[0], handlers), guards[1..], handlers) && Lowered(w, guards[0], handlers).Sound()
  {
    hide WellFormed, Standing, Handled, Clear, Lowered, Apart;
    StandsAt(w, guards[0]);
    LoweredIsSound(w, guards[0], handlers);
    forall i | 0 <= i < |guards[1..]| ensures Guardable(Lowered(w, guards[0], handlers), guards[1..][i], handlers) {
      StillGuardable(w, guards[0], handlers, guards[i + 1]);
    }
  }

  /** The world once every guard is lowered into its spec. */
  ghost function LoweredAll(w: World, guards: seq<Guard>, handlers: GuardHandlers): (w': World)
    requires w.Sound() && AllGuardable(w, guards, handlers)
    ensures w'.Sound()
    decreases |guards|
  {
    hide WellFormed, Guardable, Lowered, Apart, AllGuardable;
    if guards == [] then w
    else
      RestGuardable(w, guards, handlers);
      LoweredAll(Lowered(w, guards[0], handlers), guards[1..], handlers)
  }

  /** Its spec is the one the compiler writes. */
  lemma {:induction false} LoweredAllIsLowered(w: World, guards: seq<Guard>, handlers: GuardHandlers)
    requires w.Sound() && AllGuardable(w, guards, handlers)
    ensures AllLowerable(w.spec, guards, handlers)
    ensures LoweredAll(w, guards, handlers).spec == LowerAll(w.spec, guards, handlers)
    decreases |guards|
  {
    hide WellFormed, Guardable, LowerWithOutput, Apart, AllGuardable;
    if guards != [] {
      RestGuardable(w, guards, handlers);
      LoweredAllIsLowered(Lowered(w, guards[0], handlers), guards[1..], handlers);
    }
  }

  /** A guard elsewhere leaves what a guarded node comes to and what catches it, and so whether its own guard trips. */
  lemma TripsAlike(w: World, guard: Guard, handlers: GuardHandlers, other: Guard)
    requires Guardable(w, guard, handlers) && Guardable(w, other, handlers) && Apart(guard, other)
    requires guard.id in w.spec.nodes && other.id in w.spec.nodes && !Trips(w, guard)
    ensures Lowered(w, guard, handlers).Sound() && other.id in Lowered(w, guard, handlers).spec.nodes
    ensures Trips(Lowered(w, guard, handlers), other) <==> Trips(w, other)
  {
    hide WellFormed, Standing, Handled, Clear, Lowered, FateOf, Holds, IdsOf, FreshIds, RoutesTo, CatcherOf;
    LoweredStands(w, guard, handlers);
    StandsAt(w, guard);
    StandsAt(w, other);
    GuardStands(w, guard, handlers);
    ThereFate(w, guard, handlers, other.id);
    FateSelects(w, other.id);
    CatchersAre(w, guard, handlers, other.id);
    CallsRouteNowhere(w.spec.nodes[other.id], guard.id);
  }

  lemma {:induction false} AllStillFail(w: World, guards: seq<Guard>, handlers: GuardHandlers)
    requires w.Sound() && AllGuardable(w, guards, handlers) && Fails(w)
    ensures Fails(LoweredAll(w, guards, handlers))
    decreases |guards|
  {
    hide WellFormed, Guardable, Lowered, Apart, AllGuardable, Fails;
    if guards != [] {
      RestGuardable(w, guards, handlers);
      assert Lowered(w, guards[0], handlers).Sound() && Fails(Lowered(w, guards[0], handlers)) by {
        hide Standing, Handled, Clear, Trips;
        if Trips(w, guards[0]) {
          var _ := GuardTrips(w, guards[0], handlers);
        } else {
          FailsAlike(w, guards[0], handlers);
        }
      }
      AllStillFail(Lowered(w, guards[0], handlers), guards[1..], handlers);
    }
  }

  ghost predicate TripsAt(w: World, guards: seq<Guard>, i: nat)
    requires w.Ranks() && i < |guards|
  {
    guards[i].id in w.spec.nodes && Trips(w, guards[i])
  }

  lemma GuardedIsThere(w: World, guards: seq<Guard>, handlers: GuardHandlers, i: nat)
    requires w.Sound() && AllGuardable(w, guards, handlers) && i < |guards|
    ensures guards[i].id in w.spec.nodes && Guardable(w, guards[i], handlers)
  {
    hide WellFormed, Standing, Handled, Clear, Apart;
    StandsAt(w, guards[i]);
  }

  lemma TripsStay(w: World, guards: seq<Guard>, handlers: GuardHandlers, i: nat)
    requires w.Sound() && AllGuardable(w, guards, handlers) && 0 < i < |guards|
    requires guards[0].id in w.spec.nodes && guards[0].kind.Made? && guards[0].unproved != [] && !Trips(w, guards[0])
    requires Lowered(w, guards[0], handlers).Sound()
    ensures TripsAt(Lowered(w, guards[0], handlers), guards[1..], i - 1) <==> TripsAt(w, guards, i)
  {
    hide WellFormed, Guardable, Lowered, Apart, Trips;
    GuardedIsThere(w, guards, handlers, i);
    assert Guardable(w, guards[0], handlers) && Apart(guards[0], guards[i]);
    TripsAlike(w, guards[0], handlers, guards[i]);
  }

  /** Some guard trips: a value breaks a rule, or a caught fault is lost. */
  ghost predicate AnyTrips(w: World, guards: seq<Guard>)
    requires w.Ranks()
  {
    exists i :: 0 <= i < |guards| && TripsAt(w, guards, i)
  }

  lemma FirstTrips(w: World, guards: seq<Guard>)
    requires w.Ranks() && guards != [] && guards[0].id in w.spec.nodes && Trips(w, guards[0])
    ensures AnyTrips(w, guards)
  {
    hide Trips;
    assert TripsAt(w, guards, 0);
  }

  lemma OthersTrip(w: World, guards: seq<Guard>, handlers: GuardHandlers)
    requires w.Sound() && guards != [] && AllGuardable(w, guards, handlers)
    requires guards[0].id in w.spec.nodes && guards[0].kind.Made? && guards[0].unproved != [] && !Trips(w, guards[0])
    requires Lowered(w, guards[0], handlers).Sound()
    ensures AnyTrips(Lowered(w, guards[0], handlers), guards[1..]) <==> AnyTrips(w, guards)
  {
    hide WellFormed, AllGuardable, Lowered, Trips, TripsAt;
    var w' := Lowered(w, guards[0], handlers);
    forall i | 0 < i < |guards| ensures TripsAt(w', guards[1..], i - 1) <==> TripsAt(w, guards, i) {
      TripsStay(w, guards, handlers, i);
    }
    if AnyTrips(w', guards[1..]) {
      var i :| 0 <= i < |guards[1..]| && TripsAt(w', guards[1..], i);
      TripsStay(w, guards, handlers, i + 1);
      assert TripsAt(w, guards, i + 1);
    }
    if AnyTrips(w, guards) {
      var i :| 0 <= i < |guards| && TripsAt(w, guards, i);
      FirstDoesNotTrip(w, guards);
      assert TripsAt(w', guards[1..], i - 1);
    }
  }

  lemma FirstDoesNotTrip(w: World, guards: seq<Guard>)
    requires w.Ranks() && guards != [] && guards[0].id in w.spec.nodes && !Trips(w, guards[0])
    ensures !TripsAt(w, guards, 0)
  {
    hide Trips;
  }

  lemma SameMeaningTrans(one: World, other: World, third: World)
    requires one.Ranks() && other.Ranks() && third.Ranks() && SameMeaning(one, other) && SameMeaning(other, third)
    ensures SameMeaning(one, third)
  {
    hide Means;
  }

  lemma SameAsItself(w: World)
    requires w.Ranks()
    ensures SameMeaning(w, w)
  {
    hide Means;
  }

  // ---- what a run that trips says ---------------------------------------------------------------

  /** What a guard elsewhere would say afterwards it would have said before. */
  lemma SaysBefore(w: World, guard: Guard, handlers: GuardHandlers, other: Guard, failure: Outcome)
    requires Guardable(w, guard, handlers) && Guardable(w, other, handlers) && Apart(guard, other)
    requires guard.id in w.spec.nodes && other.id in w.spec.nodes
    requires Lowered(w, guard, handlers).Sound() && other.id in Lowered(w, guard, handlers).spec.nodes
    requires Says(Lowered(w, guard, handlers), other, failure)
    ensures Says(w, other, failure)
  {
    hide WellFormed, Standing, Handled, Clear, Lowered, FateOf, SaysOf, IdsOf, FreshIds, RoutesTo, CatcherOf;
    StandsAt(w, guard);
    StandsAt(w, other);
    StillSame(w, guard, handlers, other.id);
    FateSelects(w, other.id);
    CatchersAre(w, guard, handlers, other.id);
    CallsRouteNowhere(w.spec.nodes[other.id], guard.id);
  }

  lemma SaysAlike(w: World, guard: Guard, one: Outcome, other: Outcome)
    requires w.Ranks() && guard.id in w.spec.nodes && Says(w, guard, one) && SameOutcome(one, other)
    ensures Says(w, guard, other)
  {
    hide FateOf, Holds, FirstFailing, InputsAt;
  }

  /** Some guard of a list says what ended the run. */
  ghost predicate Told(w: World, id: Id, was: World, guards: seq<Guard>)
    requires w.Ranks() && was.Ranks()
  {
    exists i :: 0 <= i < |guards| && guards[i].id in was.spec.nodes && EndsSaying(w, id, was, guards[i])
  }

  /** A node that ends the run with what it, or what some guard of a list, has to say. */
  ghost predicate Carried(w: World, id: Id, was: World, guards: seq<Guard>, failure: Outcome)
    requires w.Ranks() && was.Ranks()
  {
    id in w.spec.nodes && EndsRun(w, id) && FateOf(w, id).Broke? &&
    (SameOutcome(failure, FateOf(w, id).failure) || Told(w, id, was, guards))
  }

  lemma ToldBefore(w: World, guards: seq<Guard>, handlers: GuardHandlers, last: World, id: Id)
    requires guards != [] && w.Sound() && AllGuardable(w, guards, handlers) && last.Ranks()
    requires guards[0].id in w.spec.nodes && guards[0].kind.Made? && guards[0].unproved != []
    requires Lowered(w, guards[0], handlers).Sound() && Told(last, id, Lowered(w, guards[0], handlers), guards[1..])
    ensures Told(last, id, w, guards)
  {
    hide WellFormed, Placed, Clear, Lowered, FateOf, EndsRun, Says, Apart;
    var i :| 0 <= i < |guards[1..]| && guards[1..][i].id in Lowered(w, guards[0], handlers).spec.nodes &&
      EndsSaying(last, id, Lowered(w, guards[0], handlers), guards[1..][i]);
    assert guards[1..][i] == guards[i + 1];
    GuardedIsThere(w, guards, handlers, i + 1);
    assert Apart(guards[0], guards[i + 1]) && Guardable(w, guards[0], handlers);
    SaysBefore(w, guards[0], handlers, guards[i + 1], FateOf(last, id).failure);
    assert EndsSaying(last, id, w, guards[i + 1]);
  }

  lemma CarriedBefore(w: World, guards: seq<Guard>, handlers: GuardHandlers, last: World, id: Id, failure: Outcome)
    requires guards != [] && w.Sound() && AllGuardable(w, guards, handlers) && last.Ranks()
    requires guards[0].id in w.spec.nodes && guards[0].kind.Made? && guards[0].unproved != []
    requires Lowered(w, guards[0], handlers).Sound() && Carried(last, id, Lowered(w, guards[0], handlers), guards[1..], failure)
    ensures Carried(last, id, w, guards, failure)
  {
    hide WellFormed, Guardable, Lowered, FateOf, EndsRun, Says, AllGuardable, Told;
    if Told(last, id, Lowered(w, guards[0], handlers), guards[1..]) {
      ToldBefore(w, guards, handlers, last, id);
    }
  }

  /** One guard on: what ended the run ends it still, or the guard trips and ends it itself. */
  lemma NextNamed(w: World, guard: Guard, handlers: GuardHandlers, id: Id) returns (id': Id)
    requires Guardable(w, guard, handlers) && guard.id in w.spec.nodes && id in w.spec.nodes && EndsRun(w, id)
    ensures Lowered(w, guard, handlers).Sound() && id' in Lowered(w, guard, handlers).spec.nodes
    ensures EndsRun(Lowered(w, guard, handlers), id')
    ensures SameOutcome(FateOf(w, id).failure, FateOf(Lowered(w, guard, handlers), id').failure) ||
      EndsSaying(Lowered(w, guard, handlers), id', w, guard)
  {
    hide WellFormed, Standing, Handled, Clear, Lowered, FateOf, CatcherOf, Holds, Says, IdsOf;
    LoweredStands(w, guard, handlers);
    StandsAt(w, guard);
    if Trips(w, guard) {
      id' := GuardTrips(w, guard, handlers);
    } else if id == guard.id {
      id' := FaultFails(w, guard, handlers);
    } else {
      id' := id;
      ThereEnds(w, guard, handlers, id);
      StillSame(w, guard, handlers, id);
    }
  }

  /** Every guard on: what ended the run before the guards were lowered ends it still, or some guard of them does. */
  lemma {:induction false} StillNamed(w: World, guards: seq<Guard>, handlers: GuardHandlers, id: Id) returns (id': Id)
    requires w.Sound() && AllGuardable(w, guards, handlers) && id in w.spec.nodes && EndsRun(w, id)
    ensures Carried(LoweredAll(w, guards, handlers), id', w, guards, FateOf(w, id).failure)
    decreases |guards|
  {
    hide WellFormed, Guardable, Lowered, AllGuardable, FateOf, CatcherOf, Says, Told;
    if guards == [] {
      return id;
    }
    RestGuardable(w, guards, handlers);
    var next := NextNamed(w, guards[0], handlers, id);
    var w', last := Lowered(w, guards[0], handlers), LoweredAll(w, guards, handlers);
    id' := StillNamed(w', guards[1..], handlers, next);
    CarriedBefore(w, guards, handlers, last, id', FateOf(w', next).failure);
    if EndsSaying(w', next, w, guards[0]) {
      SayingCarries(last, id', w, guards, w', next);
    }
  }

  lemma SayingCarries(last: World, id: Id, w: World, guards: seq<Guard>, w': World, next: Id)
    requires guards != [] && w.Ranks() && w'.Ranks() && last.Ranks() && guards[0].id in w.spec.nodes
    requires EndsSaying(w', next, w, guards[0]) && Carried(last, id, w, guards, FateOf(w', next).failure)
    ensures Told(last, id, w, guards)
  {
    hide FateOf, EndsRun, Says;
    if SameOutcome(FateOf(w', next).failure, FateOf(last, id).failure) {
      SaysAlike(w, guards[0], FateOf(w', next).failure, FateOf(last, id).failure);
      assert EndsSaying(last, id, w, guards[0]);
    }
  }

  /** Where some guard trips, what a guard that trips has to say ends the run. */
  lemma {:induction false} TrippedRunIsNamed(w: World, guards: seq<Guard>, handlers: GuardHandlers) returns (id: Id)
    requires w.Sound() && AllGuardable(w, guards, handlers) && AnyTrips(w, guards)
    ensures Told(LoweredAll(w, guards, handlers), id, w, guards)
    decreases |guards|
  {
    hide WellFormed, Guardable, Lowered, AllGuardable, FateOf, CatcherOf, Says, Told, Trips, AnyTrips, EndsRun;
    if guards == [] {
      NoneTrips(w, guards);
    } else {
      RestGuardable(w, guards, handlers);
      var w', last := Lowered(w, guards[0], handlers), LoweredAll(w, guards, handlers);
      if Trips(w, guards[0]) {
        var next := GuardTrips(w, guards[0], handlers);
        id := StillNamed(w', guards[1..], handlers, next);
        CarriedBefore(w, guards, handlers, last, id, FateOf(w', next).failure);
        SayingCarries(last, id, w, guards, w', next);
      } else {
        OthersTrip(w, guards, handlers);
        id := TrippedRunIsNamed(w', guards[1..], handlers);
        ToldBefore(w, guards, handlers, last, id);
      }
    }
  }

  /**
   * Guarding every unproved site of a spec: where no guard trips it means what it meant -- the same status, the same
   * output from the same candidate, the same needs -- and where one does, the run fails.
   */
  lemma {:induction false} GuardsMean(w: World, guards: seq<Guard>, handlers: GuardHandlers)
    requires w.Sound() && AllGuardable(w, guards, handlers)
    ensures !AnyTrips(w, guards) ==> SameMeaning(LoweredAll(w, guards, handlers), w)
    ensures AnyTrips(w, guards) ==> Fails(LoweredAll(w, guards, handlers))
    decreases |guards|
  {
    hide WellFormed, Guardable, Lowered, AllGuardable, Fails, Trips, SameMeaning, AnyTrips;
    if guards == [] {
      assert LoweredAll(w, guards, handlers) == w;
      SameAsItself(w);
      NoneTrips(w, guards);
    } else {
      RestGuardable(w, guards, handlers);
      var w' := Lowered(w, guards[0], handlers);
      if Trips(w, guards[0]) {
        FirstTrips(w, guards);
        var _ := GuardTrips(w, guards[0], handlers);
        AllStillFail(w', guards[1..], handlers);
      } else {
        GuardPreserves(w, guards[0], handlers);
        OthersTrip(w, guards, handlers);
        GuardsMean(w', guards[1..], handlers);
        if !AnyTrips(w, guards) {
          SameMeaningTrans(LoweredAll(w', guards[1..], handlers), w', w);
        }
      }
    }
  }

  lemma NoneTrips(w: World, guards: seq<Guard>)
    requires w.Ranks() && guards == []
    ensures !AnyTrips(w, guards)
  {
  }

  /** A call or a map is there still once a guard is written in, and is no switch. */
  lemma StillNoSwitch(w: World, guard: Guard, handlers: GuardHandlers, id: Id)
    requires w.Sound() && Standing(w, guard) && id in w.spec.nodes && !w.spec.nodes[id].Switch?
    ensures id in Lowered(w, guard, handlers).spec.nodes && !Lowered(w, guard, handlers).spec.nodes[id].Switch?
  {
    hide Standing, WellFormed, Lowered, IdsOf, AddedIds, AddedNodes, FreshIds;
    StandsAt(w, guard);
    NodesAre(w, guard, handlers, id);
    AddedAre(guard, handlers, id);
    CallsStay(w.spec.nodes[id], guard.id, IdsOf(guard).made);
  }

  /** Where no guard trips, every call and every map answers if it did, and with the value it did. */
  lemma {:induction false} EveryAnswerStands(w: World, guards: seq<Guard>, handlers: GuardHandlers, id: Id)
    requires w.Sound() && AllGuardable(w, guards, handlers) && !AnyTrips(w, guards)
    requires id in w.spec.nodes && !w.spec.nodes[id].Switch?
    ensures id in LoweredAll(w, guards, handlers).spec.nodes
    ensures Answered(LoweredAll(w, guards, handlers), id) <==> Answered(w, id)
    ensures Answered(w, id) ==> ValueOf(LoweredAll(w, guards, handlers), id) == ValueOf(w, id)
    decreases |guards|
  {
    hide WellFormed, Standing, Handled, Clear, Lowered, AllGuardable, Trips, AnyTrips, Answered, ValueOf;
    if guards != [] {
      RestGuardable(w, guards, handlers);
      if Trips(w, guards[0]) {
        FirstTrips(w, guards);
      }
      OthersTrip(w, guards, handlers);
      EveryValueStands(w, guards[0], handlers, id);
      assert !Chose(w, id, guards[0].id) by {
        hide RoutesTo, FateOf;
        FateSelects(w, id);
        CallsRouteNowhere(w.spec.nodes[id], guards[0].id);
      }
      StillNoSwitch(w, guards[0], handlers, id);
      EveryAnswerStands(Lowered(w, guards[0], handlers), guards[1..], handlers, id);
    }
  }
}
