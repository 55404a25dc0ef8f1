/** A spec with a guard written into it is a spec still: what routes, catches and waits for each of its nodes. */
module GuardWaits {
  import opened Json
  import opened Sources
  import opened KernelSpec
  import opened Fates
  import opened Guards
  import opened GuardSites

  lemma RouterIs(spec: Spec, s: Id, t: Id)
    requires Listed(spec) && RoutedOnce(spec) && s in spec.nodes && RoutesTo(spec.nodes[s], t)
    ensures RouterOf(spec, t) == Some(s)
  {
    hide RoutesTo, RouterIn;
    ListedOnce(spec);
    assert s in spec.order;
    RouterRoutes(spec, t);
  }

  lemma RouterRoutes(spec: Spec, t: Id)
    requires Listed(spec)
    ensures RouterOf(spec, t).None? ==> forall s :: s in spec.nodes ==> !RoutesTo(spec.nodes[s], t)
  {
    hide RoutesTo;
    ListedOnce(spec);
  }

  lemma RouterNone(spec: Spec, t: Id)
    requires forall s :: s in spec.nodes ==> !RoutesTo(spec.nodes[s], t)
    ensures RouterOf(spec, t) == None
  {
    hide RoutesTo;
  }

  lemma RefusalIsFresh(w: World, guard: Guard, id: Id)
    requires guard.kind.Made? && guard.unproved != [] && IsRefusal(guard, id)
    ensures id in FreshIds(guard) && id != guard.id && id != IdsOf(guard).made && id != IdsOf(guard).check
  {
    hide ViolatedId;
    var at :| 0 <= at < |guard.unproved| && id == ViolatedId(IdsOf(guard), at);
    IdsDiffer(guard, at);
    assert ViolatedIds(IdsOf(guard), |guard.unproved|)[at] == id;
  }

  lemma OwnAreFresh(guard: Guard)
    requires guard.kind.Made? && guard.unproved != []
    ensures IdsOf(guard).made in FreshIds(guard)
    ensures guard.arity.One? ==> IdsOf(guard).check in FreshIds(guard)
    ensures guard.id !in FreshIds(guard)
  {
    IdsDiffer(guard, 0);
  }

  /** No node that was there is routed to by the guard, and nothing that was there routes to what the guard adds. */
  lemma NothingRoutesFresh(w: World, guard: Guard, s: Id, t: Id)
    requires w.Sound() && Standing(w, guard) && s in w.spec.nodes && t in FreshIds(guard)
    ensures !RoutesTo(w.spec.nodes[s], t)
  {
    hide RoutesTo, FreshIds, NodeRefs, Named, CatchesKey, Ranked, RoutedOnce, Listed;
  }

  lemma LoweredRoutesOnce(w: World, guard: Guard, handlers: GuardHandlers)
    requires w.Sound() && Standing(w, guard)
    ensures RoutedOnce(Lowered(w, guard, handlers).spec) && TargetsExist(Lowered(w, guard, handlers).spec)
  {
    hide RoutesTo, FreshIds, Standing, Ranked, Listed, Lowered, IsRefusal;
    StandsAt(w, guard);
    var spec := Lowered(w, guard, handlers).spec;
    forall s, s', t | s in spec.nodes && s' in spec.nodes && RoutesTo(spec.nodes[s], t) && RoutesTo(spec.nodes[s'], t)
      ensures s == s'
    {
      RoutesAre(w, guard, handlers, s, t);
      RoutesAre(w, guard, handlers, s', t);
      if IsRefusal(guard, t) {
        RefusalIsFresh(w, guard, t);
        if s in w.spec.nodes {
          NothingRoutesFresh(w, guard, s, t);
        }
        if s' in w.spec.nodes {
          NothingRoutesFresh(w, guard, s', t);
        }
      }
    }
    forall s, t | s in spec.nodes && RoutesTo(spec.nodes[s], t) ensures t in spec.nodes {
      RoutesAre(w, guard, handlers, s, t);
      NodesAre(w, guard, handlers, t);
      AddedAre(guard, handlers, t);
    }
  }

  lemma StandsAt(w: World, guard: Guard)
    requires Standing(w, guard)
    ensures guard.kind.Made? && guard.unproved != [] && guard.roots != {} && guard.id in w.spec.nodes
    ensures !w.spec.nodes[guard.id].Switch? && guard.id !in w.supplied.values
  {
    hide FreshIds, CatchesKey, CatcherOf;
  }

  lemma {:induction false} WithoutDistinct(order: seq<Id>, id: Id)
    requires forall i, j :: 0 <= i < j < |order| ==> order[i] != order[j]
    ensures forall i, j :: 0 <= i < j < |Without(order, id)| ==> Without(order, id)[i] != Without(order, id)[j]
  {
    if order != [] {
      WithoutDistinct(order[1..], id);
      assert order[0] !in order[1..];
      assert order[0] !in Without(order[1..], id);
    }
  }

  lemma AddedDistinct(guard: Guard)
    requires guard.kind.Made? && guard.unproved != []
    ensures forall i, j :: 0 <= i < j < |AddedIds(guard)| ==> AddedIds(guard)[i] != AddedIds(guard)[j]
  {
    hide ViolatedId;
    var ids := IdsOf(guard);
    forall i, j | 0 <= i < j < |AddedIds(guard)| ensures AddedIds(guard)[i] != AddedIds(guard)[j] {
      IdsDiffer(guard, j - 2 + 2);
      if i < 2 {
        IdsDiffer(guard, if j >= 2 then j - 2 else 0);
      } else if ViolatedId(ids, i - 2) == ViolatedId(ids, j - 2) {
        ViolatedDiffer(ids, i - 2, j - 2);
      }
    }
  }

  lemma DistinctTogether(a: seq<Id>, b: seq<Id>)
    requires forall i, j :: 0 <= i < j < |a| ==> a[i] != a[j]
    requires forall i, j :: 0 <= i < j < |b| ==> b[i] != b[j]
    requires forall id :: id in a ==> id !in b
    ensures forall i, j :: 0 <= i < j < |a + b| ==> (a + b)[i] != (a + b)[j]
  {
    forall i, j | 0 <= i < j < |a + b| ensures (a + b)[i] != (a + b)[j] {
      if i < |a| <= j {
        assert (a + b)[i] in a && (a + b)[j] in b;
      }
    }
  }

  lemma LoweredIsDistinct(w: World, guard: Guard, handlers: GuardHandlers)
    requires w.Sound() && Standing(w, guard)
    ensures var order := Lowered(w, guard, handlers).spec.order; forall i, j :: 0 <= i < j < |order| ==> order[i] != order[j]
  {
    hide AddedIds, AddedNodes, FreshIds, Standing, Ranked, TargetsExist, RoutedOnce, Lowered;
    ListedOnce(w.spec);
    StandsAt(w, guard);
    OwnAreFresh(guard);
    AddedDistinct(guard);
    WithoutDistinct(w.spec.order, guard.id);
    MadeIsNotAdded(guard, handlers);
    FreshAreUnnamed(w, guard);
    OrderIs(w, guard, handlers);
    var made := IdsOf(guard).made;
    DistinctTogether([made], AddedIds(guard));
    forall id | id in Without(w.spec.order, guard.id) ensures id !in [made] + AddedIds(guard) {
      FreshOrThere(guard, id);
    }
    DistinctTogether(Without(w.spec.order, guard.id), [made] + AddedIds(guard));
  }

  lemma LoweredLists(w: World, guard: Guard, handlers: GuardHandlers, id: Id)
    requires w.Sound() && Standing(w, guard)
    ensures var spec := Lowered(w, guard, handlers).spec;
      (id in spec.order <==> id in spec.nodes) && (id in spec.nodes ==> id !in PSEUDO)
  {
    hide AddedIds, AddedNodes, FreshIds, Standing, Ranked, TargetsExist, RoutedOnce, Lowered, IdsOf;
    ListedOnce(w.spec);
    StandsAt(w, guard);
    OwnAreFresh(guard);
    FreshAreUnnamed(w, guard);
    OrderIs(w, guard, handlers);
    NodesAre(w, guard, handlers, id);
    FreshOrThere(guard, id);
    assert id in w.spec.order <==> id in w.spec.nodes;
  }

  lemma LoweredIsListed(w: World, guard: Guard, handlers: GuardHandlers)
    requires w.Sound() && Standing(w, guard)
    ensures Listed(Lowered(w, guard, handlers).spec) && Lowered(w, guard, handlers).spec.nodes.Keys !! PSEUDO
  {
    hide Standing, WellFormed, Lowered;
    StandsAt(w, guard);
    ListedOnce(Lowered(w, guard, handlers).spec);
    LoweredIsDistinct(w, guard, handlers);
    var spec := Lowered(w, guard, handlers).spec;
    forall id ensures (id in spec.order <==> id in spec.nodes) && (id in spec.nodes ==> id !in PSEUDO) {
      LoweredLists(w, guard, handlers, id);
    }
  }

  lemma FreshOrThere(guard: Guard, id: Id)
    ensures id in AddedIds(guard) ==> id == guard.id || id in FreshIds(guard)
  {
  }

  lemma FreshAreUnnamed(w: World, guard: Guard)
    requires Standing(w, guard)
    ensures forall id :: id in FreshIds(guard) ==> id !in w.spec.nodes && id !in PSEUDO && id !in w.supplied.values
  {
    hide FreshIds, CatchesKey, NodeRefs, Named;
  }

  // ---- routers ----------------------------------------------------------------------------------

  /** What was there is routed as it was; the moved node as its site was; the guard's own by its switch. */
  lemma RoutersAre(w: World, guard: Guard, handlers: GuardHandlers, id: Id)
    requires w.Sound() && Standing(w, guard)
    ensures var spec, ids := Lowered(w, guard, handlers).spec, IdsOf(guard);
      (id in w.spec.nodes && id != guard.id ==> RouterOf(spec, id) == RouterOf(w.spec, id)) &&
      (id == ids.made ==> RouterOf(spec, id) == RouterOf(w.spec, guard.id)) &&
      (guard.arity.One? && (id == guard.id || IsRefusal(guard, id)) ==> RouterOf(spec, id) == Some(ids.check)) &&
      (guard.arity.One? && id == ids.check ==> RouterOf(spec, id) == None) &&
      (guard.arity.Many? && id == guard.id ==> RouterOf(spec, id) == None)
  {
    hide RoutesTo, FreshIds, Standing, Ranked, Lowered, IsRefusal, RouterOf, IdsOf;
    StandsAt(w, guard);
    LoweredRoutesOnce(w, guard, handlers);
    LoweredIsListed(w, guard, handlers);
    var spec, made, check := Lowered(w, guard, handlers).spec, IdsOf(guard).made, IdsOf(guard).check;
    IdsAreDifferent(guard);
    if id in w.spec.nodes && id != guard.id {
      ThereIsRouted(w, guard, handlers, id);
    }
    if id == made {
      MadeIsRouted(w, guard, handlers);
    }
    if guard.arity.One? && (id == guard.id || IsRefusal(guard, id)) {
      assert IdsOf(guard).check in Lowered(w, guard, handlers).spec.nodes && IdsOf(guard).check !in w.spec.nodes by {
        hide AddedNodes;
        StandsAt(w, guard);
        NodesAre(w, guard, handlers, IdsOf(guard).check);
        AddedAre(guard, handlers, IdsOf(guard).check);
        OwnAreFresh(guard);
        FreshAreUnnamed(w, guard);
      }
      RoutesAre(w, guard, handlers, check, id);
      OwnAreFresh(guard);
      FreshAreUnnamed(w, guard);
      RouterIs(spec, check, id);
    }
    if (guard.arity.One? && id == check) || (guard.arity.Many? && id == guard.id) {
      OwnIsUnrouted(w, guard, handlers, id);
    }
  }

  lemma IdsAreDifferent(guard: Guard)
    requires guard.kind.Made?
    ensures IdsOf(guard).made != guard.id && IdsOf(guard).check != guard.id && IdsOf(guard).made != IdsOf(guard).check
    ensures IdsOf(guard).ok == guard.id
  {
    IdsDiffer(guard, 0);
  }

  lemma ThereIsRouted(w: World, guard: Guard, handlers: GuardHandlers, id: Id)
    requires w.Sound() && Standing(w, guard) && id in w.spec.nodes && id != guard.id
    ensures RouterOf(Lowered(w, guard, handlers).spec, id) == RouterOf(w.spec, id)
  {
    hide RoutesTo, FreshIds, Standing, Ranked, Lowered, IsRefusal, RouterOf, IdsOf;
    StandsAt(w, guard);
    OwnAreFresh(guard);
    FreshAreUnnamed(w, guard);
    LoweredRoutesOnce(w, guard, handlers);
    LoweredIsListed(w, guard, handlers);
    var spec := Lowered(w, guard, handlers).spec;
    var router := RouterOf(w.spec, id);
    if router.Some? {
      CallsAreNotRouters(w, guard, router.value, id);
      NodesAre(w, guard, handlers, router.value);
      RoutesAre(w, guard, handlers, router.value, id);
      RouterIs(spec, router.value, id);
    } else {
      RouterRoutes(w.spec, id);
      forall s | s in spec.nodes ensures !RoutesTo(spec.nodes[s], id) {
        RoutesAre(w, guard, handlers, s, id);
        if IsRefusal(guard, id) {
          RefusalIsFresh(w, guard, id);
        }
      }
      RouterNone(spec, id);
    }
  }

  lemma CallsAreNotRouters(w: World, guard: Guard, r: Id, id: Id)
    requires Standing(w, guard) && r in w.spec.nodes && RoutesTo(w.spec.nodes[r], id)
    ensures r != guard.id
  {
    hide FreshIds, CatchesKey, TargetsOf;
  }

  lemma MadeIsRouted(w: World, guard: Guard, handlers: GuardHandlers)
    requires w.Sound() && Standing(w, guard)
    ensures RouterOf(Lowered(w, guard, handlers).spec, IdsOf(guard).made) == RouterOf(w.spec, guard.id)
  {
    hide RoutesTo, FreshIds, Standing, Ranked, Lowered, IsRefusal, RouterOf, IdsOf;
    StandsAt(w, guard);
    IdsAreDifferent(guard);
    OwnAreFresh(guard);
    FreshAreUnnamed(w, guard);
    LoweredRoutesOnce(w, guard, handlers);
    LoweredIsListed(w, guard, handlers);
    var spec, made := Lowered(w, guard, handlers).spec, IdsOf(guard).made;
    var router := RouterOf(w.spec, guard.id);
    if router.Some? {
      CallsAreNotRouters(w, guard, router.value, guard.id);
      NodesAre(w, guard, handlers, router.value);
      RoutesAre(w, guard, handlers, router.value, made);
      RouterIs(spec, router.value, made);
    } else {
      RouterRoutes(w.spec, guard.id);
      forall s | s in spec.nodes ensures !RoutesTo(spec.nodes[s], made) {
        RoutesAre(w, guard, handlers, s, made);
        if IsRefusal(guard, made) {
          RefusalIsFresh(w, guard, made);
        }
      }
      RouterNone(spec, made);
    }
  }

  lemma OwnIsUnrouted(w: World, guard: Guard, handlers: GuardHandlers, id: Id)
    requires w.Sound() && Standing(w, guard)
    requires (guard.arity.One? && id == IdsOf(guard).check) || (guard.arity.Many? && id == guard.id)
    ensures RouterOf(Lowered(w, guard, handlers).spec, id) == None
  {
    hide RoutesTo, FreshIds, Standing, Ranked, Lowered, IsRefusal, RouterOf, IdsOf;
    StandsAt(w, guard);
    IdsAreDifferent(guard);
    OwnAreFresh(guard);
    FreshAreUnnamed(w, guard);
    var spec := Lowered(w, guard, handlers).spec;
    forall s | s in spec.nodes ensures !RoutesTo(spec.nodes[s], id) {
      RoutesAre(w, guard, handlers, s, id);
      if IsRefusal(guard, id) {
        RefusalIsFresh(w, guard, id);
      }
      if s in w.spec.nodes && id in FreshIds(guard) {
        NothingRoutesFresh(w, guard, s, id);
      }
    }
    RouterNone(spec, id);
  }

  // ---- catchers ---------------------------------------------------------------------------------

  lemma SentCatchesSame(node: Node, from: Id, to: Id, id: Id)
    ensures CatchesKey(Rerouted(node, from, to), id) <==> CatchesKey(node, id)
  {
    if node.Switch? {
      var sent := SentCatches(node.catches, from, to);
      assert |sent| == |node.catches| && forall i :: 0 <= i < |sent| ==> sent[i].0 == node.catches[i].0;
    }
  }

  /** What the guard adds catches nothing. */
  lemma AddedCatchNothing(w: World, guard: Guard, handlers: GuardHandlers, s: Id, id: Id)
    requires w.Sound() && Standing(w, guard) && s in Lowered(w, guard, handlers).spec.nodes
    ensures CatchesKey(Lowered(w, guard, handlers).spec.nodes[s], id) <==>
      s in w.spec.nodes && s != guard.id && CatchesKey(w.spec.nodes[s], id)
  {
    hide AddedNodes, AddedIds, Rerouted, NodeRefs, Named, IsRefusal, Lowered, WellFormed;
    StandsAt(w, guard);
    NodesAre(w, guard, handlers, s);
    OwnAreFresh(guard);
    FreshAreUnnamed(w, guard);
    FreshOrThere(guard, s);
    if s in w.spec.nodes && s != guard.id {
      SentCatchesSame(w.spec.nodes[s], guard.id, IdsOf(guard).made, id);
    } else if s != IdsOf(guard).made {
      AddedAre(guard, handlers, s);
      if !(guard.arity.One? && s == IdsOf(guard).check) {
        OthersRouteNowhere(guard, handlers, s, id);
      }
    }
  }

  lemma {:induction false} CatcherInTail(spec: Spec, order: seq<Id>, tail: seq<Id>, id: Id)
    requires forall s :: s in tail && s in spec.nodes ==> !CatchesKey(spec.nodes[s], id)
    ensures CatcherIn(spec, order + tail, id) == CatcherIn(spec, order, id)
    decreases |tail|
  {
    hide CatchesKey;
    if tail == [] {
      assert order + tail == order;
    } else {
      var last := |tail| - 1;
      assert (order + tail)[..|order + tail| - 1] == order + tail[..last];
      CatcherInTail(spec, order, tail[..last], id);
    }
  }

  lemma {:induction false} WithoutLast(order: seq<Id>, id: Id)
    requires order != []
    ensures var last := |order| - 1;
      Without(order, id) == Without(order[..last], id) + if order[last] == id then [] else [order[last]]
    decreases |order|
  {
    if |order| > 1 {
      WithoutLast(order[1..], id);
      assert order[1..][..|order| - 2] == order[..|order| - 1][1..];
    } else {
      assert order[..0] == [] && order[1..] == [];
    }
  }

  lemma {:induction false} CatcherInWithout(w: World, guard: Guard, handlers: GuardHandlers, order: seq<Id>, id: Id)
    requires w.Sound() && Standing(w, guard) && forall s :: s in order ==> s in w.spec.nodes
    ensures CatcherIn(Lowered(w, guard, handlers).spec, Without(order, guard.id), id) == CatcherIn(w.spec, order, id)
    decreases |order|
  {
    hide Standing, Lowered, CatchesKey, WellFormed;
    StandsAt(w, guard);
    if order != [] {
      var last := |order| - 1;
      CatcherInWithout(w, guard, handlers, order[..last], id);
      WithoutLast(order, guard.id);
      var left := Without(order, guard.id);
      NodesAre(w, guard, handlers, order[last]);
      if order[last] == guard.id {
        CallsCatchNothing(w.spec.nodes[guard.id], id);
        assert left == Without(order[..last], guard.id);
      } else {
        AddedCatchNothing(w, guard, handlers, order[last], id);
        assert left[..|left| - 1] == Without(order[..last], guard.id);
      }
    }
  }

  lemma CallsCatchNothing(node: Node, id: Id)
    requires !node.Switch?
    ensures !CatchesKey(node, id)
  {
  }

  /** Every fault is caught by the switch that caught it. */
  lemma CatchersAre(w: World, guard: Guard, handlers: GuardHandlers, id: Id)
    requires w.Sound() && Standing(w, guard)
    ensures CatcherOf(Lowered(w, guard, handlers).spec, id) == CatcherOf(w.spec, id)
    ensures id in FreshIds(guard) ==> CatcherOf(w.spec, id) == None
  {
    hide CatchesKey, AddedIds, AddedNodes, FreshIds, NodeRefs, Named, Ranked, RoutedOnce, TargetsExist, CatcherIn;
    ListedOnce(w.spec);
    StandsAt(w, guard);
    var spec := Lowered(w, guard, handlers).spec;
    var tail := [IdsOf(guard).made] + AddedIds(guard);
    OwnAreFresh(guard);
    FreshAreUnnamed(w, guard);
    forall s | s in tail && s in spec.nodes ensures !CatchesKey(spec.nodes[s], id) {
      FreshOrThere(guard, s);
      AddedCatchNothing(w, guard, handlers, s, id);
    }
    OrderIs(w, guard, handlers);
    CatcherInTail(spec, Without(w.spec.order, guard.id), tail, id);
    CatcherInWithout(w, guard, handlers, w.spec.order, id);
    if id in FreshIds(guard) {
      assert CatcherOf(w.spec, id) == None;
    }
  }

  lemma OrderIs(w: World, guard: Guard, handlers: GuardHandlers)
    requires w.Ranks() && Standing(w, guard)
    ensures Lowered(w, guard, handlers).spec.order ==
      Without(w.spec.order, guard.id) + ([IdsOf(guard).made] + AddedIds(guard))
  {
    hide AddedIds, AddedNodes, FreshIds, Unnamed, CatchesKey;
  }

  // ---- waits ------------------------------------------------------------------------------------

  /** The nodes a node reads or names. */
  function Reads(spec: Spec, node: Node): set<Id> {
    set ref | ref in NodeRefs(node) + Named(node) && ref !in PSEUDO && ref in spec.nodes
  }

  function Caught(node: Node): set<Id> {
    if node.Switch? then set i | 0 <= i < |node.catches| :: node.catches[i].0 else {}
  }

  lemma WaitsAre(spec: Spec, id: Id)
    requires id in spec.nodes
    ensures var router := RouterOf(spec, id);
      WaitsFor(spec, id) ==
        Reads(spec, spec.nodes[id]) + (if router.Some? then {router.value} else {}) + Caught(spec.nodes[id])
  {
    hide RouterOf, NodeRefs;
  }

  lemma SentReads(node: Node, from: Id, to: Id)
    ensures NodeRefs(Rerouted(node, from, to)) == NodeRefs(node) && Named(Rerouted(node, from, to)) == Named(node)
    ensures Caught(Rerouted(node, from, to)) == Caught(node)
    ensures NodePaths(Rerouted(node, from, to)) == NodePaths(node)
  {
    if node.Switch? {
      var sent := SentCatches(node.catches, from, to);
      assert |sent| == |node.catches| && forall i :: 0 <= i < |sent| ==> sent[i].0 == node.catches[i].0;
      assert (set i | 0 <= i < |sent| :: sent[i].0) == set i | 0 <= i < |node.catches| :: node.catches[i].0;
    }
  }

  /** A node reads what it read: it names nothing the guard adds. */
  lemma ReadsStay(w: World, guard: Guard, handlers: GuardHandlers, id: Id)
    requires w.Sound() && Standing(w, guard) && id in w.spec.nodes
    ensures Reads(Lowered(w, guard, handlers).spec, w.spec.nodes[id]) == Reads(w.spec, w.spec.nodes[id])
  {
    hide Standing, WellFormed, Lowered, NodeRefs, Named, FreshIds, IdsOf, AddedIds;
    StandsAt(w, guard);
    OwnAreFresh(guard);
    var spec, node := Lowered(w, guard, handlers).spec, w.spec.nodes[id];
    forall ref | ref in NodeRefs(node) + Named(node) ensures ref in spec.nodes <==> ref in w.spec.nodes {
      NodesAre(w, guard, handlers, ref);
      AddedAre(guard, handlers, guard.id);
      FreshOrThere(guard, ref);
      NamedIsNotFresh(w, guard, id, ref);
    }
  }

  lemma NamedIsNotFresh(w: World, guard: Guard, id: Id, ref: Id)
    requires Standing(w, guard) && id in w.spec.nodes && ref in NodeRefs(w.spec.nodes[id]) + Named(w.spec.nodes[id])
    ensures ref !in FreshIds(guard)
  {
    hide FreshIds, CatchesKey, NodeRefs, Named;
  }

  /** What was there waits for what it waited for. */
  lemma ThereWaits(w: World, guard: Guard, handlers: GuardHandlers, id: Id)
    requires w.Sound() && Standing(w, guard) && id in w.spec.nodes && id != guard.id
    ensures id in Lowered(w, guard, handlers).spec.nodes
    ensures WaitsFor(Lowered(w, guard, handlers).spec, id) == WaitsFor(w.spec, id)
  {
    hide Standing, WellFormed, Lowered, WaitsFor, Reads, Caught, Rerouted, RouterOf, NodeRefs, Named;
    StandsAt(w, guard);
    var spec := Lowered(w, guard, handlers).spec;
    NodesAre(w, guard, handlers, id);
    WaitsAre(spec, id);
    WaitsAre(w.spec, id);
    ReadsStay(w, guard, handlers, id);
    SentReads(w.spec.nodes[id], guard.id, IdsOf(guard).made);
    SameReads(spec, spec.nodes[id], w.spec.nodes[id]);
    RoutersAre(w, guard, handlers, id);
  }

  lemma SameReads(spec: Spec, one: Node, other: Node)
    requires NodeRefs(one) == NodeRefs(other) && Named(one) == Named(other)
    ensures Reads(spec, one) == Reads(spec, other)
  {
    hide NodeRefs, Named;
  }

  /** The moved node waits for what its site waited for. */
  lemma MadeWaits(w: World, guard: Guard, handlers: GuardHandlers)
    requires w.Sound() && Standing(w, guard)
    ensures IdsOf(guard).made in Lowered(w, guard, handlers).spec.nodes
    ensures WaitsFor(Lowered(w, guard, handlers).spec, IdsOf(guard).made) == WaitsFor(w.spec, guard.id)
  {
    hide Standing, WellFormed, Lowered, WaitsFor, Reads, Caught, RouterOf, IdsOf, AddedIds;
    StandsAt(w, guard);
    var spec, made := Lowered(w, guard, handlers).spec, IdsOf(guard).made;
    IdsAreDifferent(guard);
    NodesAre(w, guard, handlers, made);
    WaitsAre(spec, made);
    WaitsAre(w.spec, guard.id);
    ReadsStay(w, guard, handlers, guard.id);
    RoutersAre(w, guard, handlers, made);
  }

  lemma CheckReads(guard: Guard)
    requires guard.unproved != [] && guard.roots != {}
    ensures NodeRefs(CheckNode(guard, IdsOf(guard))) == {IdsOf(guard).made}
    ensures Named(CheckNode(guard, IdsOf(guard))) == {} && Caught(CheckNode(guard, IdsOf(guard))) == {}
  {
    hide IdsOf, FailedRules, ViolatedId;
    var made := IdsOf(guard).made;
    var inputs := map root | root in guard.roots :: Ref(made, [root]);
    var root :| root in guard.roots;
    assert root in inputs && RefsOf(inputs[root]) == {made};
    assert RefsOf(Object(inputs)) == {made};
  }

  lemma NoRefs(members: map<string, Source>)
    requires forall key :: key in members ==> RefsOf(members[key]) == {}
    ensures RefsOf(Object(members)) == {}
  {
    forall ref ensures ref !in RefsOf(Object(members)) {}
  }

  lemma OkReads(guard: Guard, handlers: GuardHandlers)
    ensures NodeRefs(OkNode(IdsOf(guard).made, handlers)) == {IdsOf(guard).made}
    ensures NodeRefs(GuardMap(IdsOf(guard).made, guard.nested)) == {IdsOf(guard).made}
    ensures Named(OkNode(IdsOf(guard).made, handlers)) == {} && Named(GuardMap(IdsOf(guard).made, guard.nested)) == {}
  {
    hide IdsOf;
    var inputs := map["value" := Ref(IdsOf(guard).made, [])];
    assert "value" in inputs && IdsOf(guard).made in RefsOf(inputs["value"]);
    assert RefsOf(Object(inputs)) == {IdsOf(guard).made};
    NoRefs(map[]);
  }

  lemma RefusalReads(one: Unproved, shape: string, handlers: GuardHandlers)
    ensures NodeRefs(ViolatedNode(one, shape, handlers)) == {} && Named(ViolatedNode(one, shape, handlers)) == {}
  {
    NoRefs(ViolatedNode(one, shape, handlers).inputs);
  }

  lemma ReadsOnly(spec: Spec, node: Node, id: Id)
    requires NodeRefs(node) == {id} && Named(node) == {} && id in spec.nodes && id !in PSEUDO
    ensures Reads(spec, node) == {id}
  {
    hide NodeRefs, Named;
  }

  lemma ReadsNone(spec: Spec, node: Node)
    requires NodeRefs(node) == {} && Named(node) == {}
    ensures Reads(spec, node) == {}
  {
    hide NodeRefs, Named;
  }

  /** The guard's switch waits for the moved node; its value for both; its refusals for the switch alone. */
  lemma OwnWaits(w: World, guard: Guard, handlers: GuardHandlers, id: Id)
    requires w.Sound() && Standing(w, guard) && id in AddedIds(guard)
    ensures var spec, ids := Lowered(w, guard, handlers).spec, IdsOf(guard);
      id in spec.nodes && ids.made in spec.nodes &&
      (id == guard.id ==> WaitsFor(spec, id) == if guard.arity.One? then {ids.made, ids.check} else {ids.made}) &&
      (guard.arity.One? && id == ids.check ==> WaitsFor(spec, id) == {ids.made}) &&
      (IsRefusal(guard, id) ==> WaitsFor(spec, id) == {ids.check})
  {
    hide Standing, WellFormed, Lowered, WaitsFor, Reads, Caught, RouterOf, IdsOf, AddedIds, AddedNodes, OkNode, CheckNode, GuardMap, IsRefusal, FreshIds;
    StandsAt(w, guard);
    var spec, ids := Lowered(w, guard, handlers).spec, IdsOf(guard);
    IdsAreDifferent(guard);
    NodesAre(w, guard, handlers, id);
    NodesAre(w, guard, handlers, ids.made);
    AddedAre(guard, handlers, id);
    OwnAreFresh(guard);
    FreshAreUnnamed(w, guard);
    WaitsAre(spec, id);
    RoutersAre(w, guard, handlers, id);
    CheckIsAdded(guard, handlers);
    if IsRefusal(guard, id) {
      RefusalIsFresh(w, guard, id);
      RefusalWaits(w, guard, handlers, id);
    } else if id == guard.id {
      OkReads(guard, handlers);
      ReadsOnly(spec, spec.nodes[id], ids.made);
      OkCatches(guard, handlers);
    } else {
      CheckReads(guard);
      ReadsOnly(spec, spec.nodes[id], ids.made);
    }
  }

  lemma OkCatches(guard: Guard, handlers: GuardHandlers)
    ensures Caught(OkNode(IdsOf(guard).made, handlers)) == {} && Caught(GuardMap(IdsOf(guard).made, guard.nested)) == {}
  {
  }

  lemma RefusalWaits(w: World, guard: Guard, handlers: GuardHandlers, id: Id)
    requires w.Sound() && Standing(w, guard) && id in AddedIds(guard) && IsRefusal(guard, id)
    ensures id in Lowered(w, guard, handlers).spec.nodes
    ensures Reads(Lowered(w, guard, handlers).spec, Lowered(w, guard, handlers).spec.nodes[id]) == {}
    ensures Caught(Lowered(w, guard, handlers).spec.nodes[id]) == {}
  {
    hide Standing, WellFormed, Lowered, Reads, IdsOf, AddedIds, AddedNodes, ViolatedId, NodeRefs, FreshIds;
    StandsAt(w, guard);
    NodesAre(w, guard, handlers, id);
    var at :| 0 <= at < |guard.unproved| && id == ViolatedId(IdsOf(guard), at);
    RefusalIs(guard, handlers, at);
    RefusalReads(guard.unproved[at], guard.shape, handlers);
    ReadsNone(Lowered(w, guard, handlers).spec, ViolatedNode(guard.unproved[at], guard.shape, handlers));
  }

  // ---- a spec still -----------------------------------------------------------------------------

  lemma RanksAre(w: World, guard: Guard, handlers: GuardHandlers, id: Id)
    requires w.Sound() && Standing(w, guard) && id in Lowered(w, guard, handlers).spec.nodes
    ensures Lowered(w, guard, handlers).Ranks() && Lowered(w, guard, handlers).rank[id] == RankIn(w, guard, id)
  {
    hide Standing, WellFormed, LowerWithOutput, RankIn;
    StandsAt(w, guard);
  }

  lemma ThereRanks(w: World, guard: Guard, handlers: GuardHandlers, id: Id, d: Id)
    requires w.Sound() && Standing(w, guard) && id in w.spec.nodes && d in WaitsFor(w.spec, id)
    ensures d in w.spec.nodes && w.rank[d] < w.rank[id]
    ensures d in Lowered(w, guard, handlers).spec.nodes
    ensures if id == guard.id then RankIn(w, guard, d) < RankIn(w, guard, IdsOf(guard).made)
      else RankIn(w, guard, d) < RankIn(w, guard, id)
  {
    hide Standing, Listed, RoutedOnce, TargetsExist, Lowered, WaitsFor, AddedIds, AddedNodes, FreshIds, IdsOf;
    StandsAt(w, guard);
    IdsAreDifferent(guard);
    OwnAreFresh(guard);
    FreshAreUnnamed(w, guard);
    NodesAre(w, guard, handlers, d);
    CheckIsAdded(guard, handlers);
    if d != guard.id {
      NotCheck(w, guard, d);
    }
    if id != guard.id {
      NotCheck(w, guard, id);
    }
  }

  lemma NotCheck(w: World, guard: Guard, id: Id)
    requires Standing(w, guard) && id in w.spec.nodes && id != guard.id && w.Ranks()
    ensures RankIn(w, guard, id) == 3 * w.rank[id] && id != IdsOf(guard).made
  {
    hide Standing, FreshIds, IdsOf;
    StandsAt(w, guard);
    OwnAreFresh(guard);
    FreshAreUnnamed(w, guard);
  }

  lemma RanksFall(w: World, guard: Guard, handlers: GuardHandlers, id: Id, d: Id)
    requires w.Sound() && Standing(w, guard) && id in Lowered(w, guard, handlers).spec.nodes
    requires d in WaitsFor(Lowered(w, guard, handlers).spec, id)
    ensures d in Lowered(w, guard, handlers).spec.nodes && RankIn(w, guard, d) < RankIn(w, guard, id)
  {
    hide Standing, WellFormed, Lowered, WaitsFor, AddedIds, AddedNodes, IsRefusal, FreshIds, IdsOf;
    StandsAt(w, guard);
    IdsAreDifferent(guard);
    OwnAreFresh(guard);
    FreshAreUnnamed(w, guard);
    NodesAre(w, guard, handlers, id);
    AddedAre(guard, handlers, id);
    CheckIsAdded(guard, handlers);
    if id in AddedIds(guard) {
      OwnWaits(w, guard, handlers, id);
      NodesAre(w, guard, handlers, IdsOf(guard).check);
      if IsRefusal(guard, id) {
        RefusalIsFresh(w, guard, id);
      }
    } else if id == IdsOf(guard).made {
      MadeWaits(w, guard, handlers);
      ThereRanks(w, guard, handlers, guard.id, d);
    } else {
      ThereWaits(w, guard, handlers, id);
      ThereRanks(w, guard, handlers, id, d);
    }
  }

  lemma CheckIsAdded(guard: Guard, handlers: GuardHandlers)
    requires guard.kind.Made? && guard.unproved != []
    ensures guard.arity.One? ==> IdsOf(guard).check in AddedIds(guard)
    ensures guard.id in AddedIds(guard)
    ensures forall id :: IsRefusal(guard, id) ==> guard.arity.One?
  {
    hide AddedIds, IdsOf, AddedNodes;
    AddedAre(guard, handlers, IdsOf(guard).check);
    AddedAre(guard, handlers, guard.id);
  }

  /** With a guard written into it a spec is well formed still, and nothing in it waits for itself. */
  lemma LoweredIsSound(w: World, guard: Guard, handlers: GuardHandlers)
    requires w.Sound() && Standing(w, guard)
    ensures Lowered(w, guard, handlers).Sound()
  {
    hide Standing, WaitsFor, RankIn, LowerWithOutput, RoutedOnce, TargetsExist, Listed;
    StandsAt(w, guard);
    LoweredIsListed(w, guard, handlers);
    LoweredRoutesOnce(w, guard, handlers);
    var w' := Lowered(w, guard, handlers);
    forall id, d | id in w'.spec.nodes && d in WaitsFor(w'.spec, id)
      ensures d in w'.spec.nodes && w'.rank[d] < w'.rank[id]
    {
      RanksFall(w, guard, handlers, id, d);
      RanksAre(w, guard, handlers, id);
      RanksAre(w, guard, handlers, d);
    }
  }
}
