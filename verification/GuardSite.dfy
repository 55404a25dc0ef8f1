/** A made site's guard in the spec it is written into: what routes, catches and waits for what, once it is there. */
module GuardSites {
  import opened Json
  import opened Sources
  import opened Outcomes
  import opened KernelSpec
  import opened Fates
  import opened Guards

  // ---- the ids a guard occupies -----------------------------------------------------------------

  lemma {:induction false} DigitsDiffer(a: nat, b: nat)
    requires Digits(a) == Digits(b)
    ensures a == b
    decreases a
  {
    DigitsEnd(a);
    DigitsEnd(b);
    assert Digits(a)[|Digits(a)| - 1] == Digits(b)[|Digits(b)| - 1];
    if a >= 10 {
      DigitsDiffer(a / 10, b / 10);
    }
  }

  lemma DigitsEnd(n: nat)
    ensures |Digits(n)| >= 1 && (|Digits(n)| == 1 <==> n < 10)
    ensures n >= 10 ==> Digits(n)[..|Digits(n)| - 1] == Digits(n / 10)
    ensures Digits(n)[|Digits(n)| - 1] == ['0', '1', '2', '3', '4', '5', '6', '7', '8', '9'][n % 10]
  {
  }

  lemma ViolatedDiffer(ids: GuardIds, a: nat, b: nat)
    requires ViolatedId(ids, a) == ViolatedId(ids, b)
    ensures a == b
  {
    hide Digits;
    DigitsEnd(a + 1);
    DigitsEnd(b + 1);
    if a > 0 {
      var n := |ids.violated| + 1;
      assert ViolatedId(ids, a)[n..] == Digits(a + 1) && ViolatedId(ids, b)[n..] == Digits(b + 1);
      DigitsDiffer(a + 1, b + 1);
    }
  }

  /** The ids a made site's guard occupies are all different. */
  lemma IdsDiffer(guard: Guard, at: nat)
    requires guard.kind.Made?
    ensures var ids := IdsOf(guard);
      ids.ok == guard.id && ids.made != ids.ok && ids.check != ids.ok && ids.made != ids.check &&
      ViolatedId(ids, at) != ids.ok && ViolatedId(ids, at) != ids.made && ViolatedId(ids, at) != ids.check
  {
    var ids := IdsOf(guard);
    assert |ids.made| == |guard.id| + 5 && |ids.check| == |guard.id| + 6 && |ids.violated| == |guard.id| + 9;
    assert |ViolatedId(ids, at)| >= |guard.id| + 9;
  }

  /** The ids a guard adds that no authored node has. */
  function FreshIds(guard: Guard): set<Id> {
    if guard.kind.Taken? then set id | id in AddedIds(guard)
    else set id | id in [IdsOf(guard).made] + AddedIds(guard) && id != guard.id
  }

  // ---- where a guard may stand ------------------------------------------------------------------

  /** Nothing of a spec has or names the ids a guard adds. */
  ghost predicate Unnamed(spec: Spec, id: Id) {
    id !in spec.nodes && id !in PSEUDO && (spec.output.Some? ==> id !in spec.output.value) &&
    forall n :: n in spec.nodes ==>
      id !in NodeRefs(spec.nodes[n]) && id !in Named(spec.nodes[n]) && !CatchesKey(spec.nodes[n], id)
  }

  /** A made site: a call or a map whose value was not given, in a spec where nothing has or names the guard's ids. */
  ghost predicate Standing(w: World, guard: Guard) {
    guard.kind.Made? && guard.unproved != [] && guard.roots != {} &&
    guard.id in w.spec.nodes && !w.spec.nodes[guard.id].Switch? && guard.id !in w.supplied.values &&
    (forall id {:trigger id in FreshIds(guard)} :: id in FreshIds(guard) ==>
      Unnamed(w.spec, id) && id !in w.supplied.values)
  }

  function RankIn(w: World, guard: Guard, id: Id): nat
    requires w.Ranks() && guard.id in w.spec.nodes
  {
    var at := 3 * w.rank[guard.id];
    if id == IdsOf(guard).made then at
    else if guard.arity.One? && id == IdsOf(guard).check then at + 1
    else if id in w.spec.nodes && id != guard.id then 3 * w.rank[id]
    else at + 2
  }

  function Lowered(w: World, guard: Guard, handlers: GuardHandlers): World
    requires w.Ranks() && guard.kind.Made? && guard.id in w.spec.nodes && guard.unproved != []
  {
    var spec := LowerWithOutput(w.spec, guard, handlers);
    World(spec, map id | id in spec.nodes :: RankIn(w, guard, id), w.handlers, w.supplied)
  }

  // ---- the nodes --------------------------------------------------------------------------------

  lemma {:induction false} RefusalsAre(guard: Guard, ids: GuardIds, handlers: GuardHandlers, count: nat)
    requires count <= |guard.unproved|
    ensures forall id :: id in RefusalNodes(guard, ids, handlers, count) <==>
      exists at :: 0 <= at < count && id == ViolatedId(ids, at)
    ensures forall at :: 0 <= at < count ==>
      ViolatedId(ids, at) in RefusalNodes(guard, ids, handlers, count) &&
      RefusalNodes(guard, ids, handlers, count)[ViolatedId(ids, at)] ==
        ViolatedNode(guard.unproved[at], guard.shape, handlers)
  {
    hide ViolatedNode, ViolatedId;
    if count > 0 {
      RefusalsAre(guard, ids, handlers, count - 1);
      var before, now := RefusalNodes(guard, ids, handlers, count - 1), RefusalNodes(guard, ids, handlers, count);
      forall at | 0 <= at < count - 1
        ensures ViolatedId(ids, at) in now && now[ViolatedId(ids, at)] == before[ViolatedId(ids, at)]
      {
        if ViolatedId(ids, at) == ViolatedId(ids, count - 1) {
          ViolatedDiffer(ids, at, count - 1);
        }
      }
    }
  }

  /** The refusal of one rule. */
  predicate IsRefusal(guard: Guard, id: Id) {
    guard.arity.One? && exists at :: 0 <= at < |guard.unproved| && id == ViolatedId(IdsOf(guard), at)
  }

  lemma AddedAre(guard: Guard, handlers: GuardHandlers, id: Id)
    requires guard.kind.Made? && guard.unproved != []
    ensures id in AddedNodes(guard, handlers) <==> id in AddedIds(guard)
    ensures id in AddedIds(guard) <==>
      id == guard.id || (guard.arity.One? && id == IdsOf(guard).check) || IsRefusal(guard, id)
    ensures guard.arity.One? ==>
      AddedNodes(guard, handlers)[guard.id] == OkNode(IdsOf(guard).made, handlers) &&
      AddedNodes(guard, handlers)[IdsOf(guard).check] == CheckNode(guard, IdsOf(guard))
    ensures guard.arity.Many? ==> AddedNodes(guard, handlers)[guard.id] == GuardMap(IdsOf(guard).made, guard.nested)
  {
    hide OkNode, CheckNode, ViolatedId, RefusalNodes;
    var ids := IdsOf(guard);
    IdsDiffer(guard, 0);
    RefusalsAre(guard, ids, handlers, |guard.unproved|);
    forall at | 0 <= at < |guard.unproved|
      ensures ViolatedId(ids, at) != ids.ok && ViolatedId(ids, at) != ids.check && ViolatedId(ids, at) != ids.made
    {
      IdsDiffer(guard, at);
    }
    forall at | 0 <= at < |guard.unproved| ensures ViolatedIds(ids, |guard.unproved|)[at] == ViolatedId(ids, at) {}
  }

  lemma RefusalIs(guard: Guard, handlers: GuardHandlers, at: nat)
    requires guard.kind.Made? && guard.arity.One? && at < |guard.unproved|
    ensures ViolatedId(IdsOf(guard), at) in AddedNodes(guard, handlers)
    ensures AddedNodes(guard, handlers)[ViolatedId(IdsOf(guard), at)] ==
      ViolatedNode(guard.unproved[at], guard.shape, handlers)
  {
    hide OkNode, CheckNode, ViolatedId, RefusalNodes, ViolatedNode;
    RefusalsAre(guard, IdsOf(guard), handlers, |guard.unproved|);
  }

  /** The kinds of node a lowered spec has: one that was there, the one moved aside, and the guard's own. */
  lemma NodesAre(w: World, guard: Guard, handlers: GuardHandlers, id: Id)
    requires w.Ranks() && Standing(w, guard)
    ensures var w', made := Lowered(w, guard, handlers), IdsOf(guard).made;
      (id in w'.spec.nodes <==> (id in w.spec.nodes && id != guard.id) || id == made || id in AddedIds(guard)) &&
      (id in w.spec.nodes && id != guard.id ==>
        w'.spec.nodes[id] == Rerouted(w.spec.nodes[id], guard.id, made) && id !in AddedIds(guard) && id != made) &&
      (id == made ==> w'.spec.nodes[id] == w.spec.nodes[guard.id] && id !in AddedIds(guard)) &&
      (id in AddedIds(guard) ==> id in AddedNodes(guard, handlers) && w'.spec.nodes[id] == AddedNodes(guard, handlers)[id])
  {
    hide AddedNodes, AddedIds, NodeRefs, Named, CatchesKey, Rerouted;
    AddedAre(guard, handlers, id);
    var made := IdsOf(guard).made;
    IdsDiffer(guard, 0);
    assert made in FreshIds(guard);
    MadeIsNotAdded(guard, handlers);
    if id in AddedIds(guard) && id != guard.id {
      assert id in FreshIds(guard);
    }
    assert Rerouted(w.spec.nodes[guard.id], guard.id, made) == w.spec.nodes[guard.id] by { CallsStay(w.spec.nodes[guard.id], guard.id, made); }
  }

  lemma CallsStay(node: Node, from: Id, to: Id)
    requires !node.Switch?
    ensures Rerouted(node, from, to) == node
  {
  }

  lemma MadeIsNotAdded(guard: Guard, handlers: GuardHandlers)
    requires guard.kind.Made? && guard.unproved != []
    ensures IdsOf(guard).made !in AddedIds(guard)
  {
    hide ViolatedId;
    var made := IdsOf(guard).made;
    AddedAre(guard, handlers, made);
    IdsDiffer(guard, 0);
    forall at | 0 <= at < |guard.unproved| ensures made != ViolatedId(IdsOf(guard), at) {
      IdsDiffer(guard, at);
    }
  }

  // ---- what routes what -------------------------------------------------------------------------

  lemma SentRoutes(node: Node, from: Id, to: Id, t: Id)
    requires from != to && !RoutesTo(node, to)
    ensures RoutesTo(Rerouted(node, from, to), t) <==>
      (t == to && RoutesTo(node, from)) || (t != from && t != to && RoutesTo(node, t))
  {
    if node.Switch? {
      assert (var sent := Rerouted(node, from, to);
            |TargetsOf(sent)| == |TargetsOf(node)| &&
            forall i :: 0 <= i < |TargetsOf(node)| ==> TargetsOf(sent)[i] == Sent(TargetsOf(node)[i], from, to)) by {
        var sent := Rerouted(node, from, to);
        assert |RuleTargets(sent.rules)| == |RuleTargets(node.rules)| && |CatchTargets(sent.catches)| == |CatchTargets(node.catches)|;
      }
      var sent := Rerouted(node, from, to);
      hide TargetsOf, Rerouted;
      if t in TargetsOf(sent) {
        var i :| 0 <= i < |TargetsOf(sent)| && TargetsOf(sent)[i] == t;
        assert TargetsOf(node)[i] in TargetsOf(node);
      }
      if t == to && from in TargetsOf(node) {
        var i :| 0 <= i < |TargetsOf(node)| && TargetsOf(node)[i] == from;
        assert TargetsOf(sent)[i] == to;
      }
      if t != from && t != to && t in TargetsOf(node) {
        var i :| 0 <= i < |TargetsOf(node)| && TargetsOf(node)[i] == t;
        assert TargetsOf(sent)[i] == t;
      }
    }
  }

  lemma CheckRoutes(guard: Guard, t: Id)
    requires guard.unproved != [] && guard.arity.One?
    ensures RoutesTo(CheckNode(guard, IdsOf(guard)), t) <==> t == IdsOf(guard).ok || IsRefusal(guard, t)
  {
    hide ViolatedId, AllHold;
    var ids := IdsOf(guard);
    var node := CheckNode(guard, ids);
    var rules := node.rules;
    var last := |guard.unproved| - 1;
    assert RuleTargets(rules)[0] == ids.ok;
    forall i | 0 < i < |rules| ensures RuleTargets(rules)[i] == ViolatedId(ids, i - 1) {}
    assert CatchTargets(node.catches) == [];
    if t in TargetsOf(node) && t != ids.ok && t != node.fallback {
      var i :| 0 <= i < |rules| && RuleTargets(rules)[i] == t;
      assert t == ViolatedId(ids, i - 1);
    }
    if IsRefusal(guard, t) {
      var at :| 0 <= at < |guard.unproved| && t == ViolatedId(ids, at);
      if at < last {
        assert RuleTargets(rules)[at + 1] == t;
      }
    }
  }

  /** Every node the guard adds but the switch routes nowhere. */
  lemma OthersRouteNowhere(guard: Guard, handlers: GuardHandlers, id: Id, t: Id)
    requires guard.kind.Made? && guard.unproved != [] && id in AddedIds(guard)
    requires !(guard.arity.One? && id == IdsOf(guard).check)
    ensures id in AddedNodes(guard, handlers) && !RoutesTo(AddedNodes(guard, handlers)[id], t)
    ensures !AddedNodes(guard, handlers)[id].Switch?
  {
    hide ViolatedId, AddedNodes, AddedIds;
    AddedAre(guard, handlers, id);
    if id != guard.id {
      var at :| 0 <= at < |guard.unproved| && id == ViolatedId(IdsOf(guard), at);
      RefusalIs(guard, handlers, at);
    }
  }

  /** Who routes whom, in the lowered spec. */
  lemma RoutesAre(w: World, guard: Guard, handlers: GuardHandlers, s: Id, t: Id)
    requires w.Sound() && Standing(w, guard) && s in Lowered(w, guard, handlers).spec.nodes
    ensures RoutesTo(Lowered(w, guard, handlers).spec.nodes[s], t) <==>
      if s in w.spec.nodes && s != guard.id then
        (t == IdsOf(guard).made && RoutesTo(w.spec.nodes[s], guard.id)) ||
        (t != guard.id && t != IdsOf(guard).made && RoutesTo(w.spec.nodes[s], t))
      else guard.arity.One? && s == IdsOf(guard).check && (t == guard.id || IsRefusal(guard, t))
  {
    hide AddedNodes, AddedIds, Rerouted, RoutesTo, NodeRefs, Named, CatchesKey, Ranked, RoutedOnce, Listed, IsRefusal, CheckNode, Lowered;
    NodesAre(w, guard, handlers, s);
    var made := IdsOf(guard).made;
    IdsDiffer(guard, 0);
    MadeIsNotTarget(w, guard, s);
    if s in w.spec.nodes && s != guard.id {
      SentRoutes(w.spec.nodes[s], guard.id, made, t);
    } else if s == made {
      CallsRouteNowhere(w.spec.nodes[guard.id], t);
    } else if guard.arity.One? && s == IdsOf(guard).check {
      AddedAre(guard, handlers, s);
      CheckRoutes(guard, t);
    } else {
      OthersRouteNowhere(guard, handlers, s, t);
    }
  }

  lemma CallsRouteNowhere(node: Node, t: Id)
    requires !node.Switch?
    ensures !RoutesTo(node, t)
  {
  }

  lemma MadeIsNotTarget(w: World, guard: Guard, s: Id)
    requires w.Sound() && Standing(w, guard)
    ensures s in w.spec.nodes ==> !RoutesTo(w.spec.nodes[s], IdsOf(guard).made)
  {
    hide RoutesTo, NodeRefs, Named, CatchesKey, Ranked, RoutedOnce, Listed, AddedIds;
    assert IdsOf(guard).made in FreshIds(guard);
  }
}
