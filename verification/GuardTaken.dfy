/** A guard over a value that is taken as `in`: by a graph from its caller, or by the nested spec one element of a list runs. */
module GuardTaken {
  import opened Json
  import opened Sources
  import opened Outcomes
  import opened KernelSpec
  import opened Kernel
  import opened Fates
  import opened Guards
  import opened GuardSites
  import opened GuardWaits
  import opened GuardFates
  import opened GuardOwn
  import opened GuardLaws
  import opened Meaning

  const IN := "in"
  const CHECK := "in:check"
  const OK := "in:ok"

  /** The guard of one value taken as `in`, by the rules of another. */
  function Taking(guard: Guard): Guard {
    guard.(kind := Taken, arity := One)
  }

  lemma TakenDiffer(guard: Guard, at: nat)
    ensures var id := ViolatedId(IdsOf(Taking(guard)), at); id != CHECK && id != OK && id !in PSEUDO
  {
    assert |ViolatedId(IdsOf(Taking(guard)), at)| >= 11;
  }

  lemma TakenNodes(guard: Guard, handlers: GuardHandlers, id: Id)
    requires guard.unproved != []
    ensures var nodes := GuardNodes(guard, IdsOf(Taking(guard)), handlers);
      (id in nodes <==> id == CHECK || id == OK || IsRefusal(Taking(guard), id)) &&
      CHECK in nodes && nodes[CHECK] == CheckNode(Taking(guard), IdsOf(Taking(guard))) &&
      OK in nodes && nodes[OK] == OkNode(IN, handlers) && (id in nodes ==> id !in PSEUDO) &&
      (IsRefusal(Taking(guard), id) ==> id != CHECK && id != OK)
  {
    hide OkNode, CheckNode, ViolatedId, RefusalNodes;
    var ids := IdsOf(Taking(guard));
    RefusalsAre(guard, ids, handlers, |guard.unproved|);
    forall at | 0 <= at < |guard.unproved|
      ensures ViolatedId(ids, at) != CHECK && ViolatedId(ids, at) != OK && ViolatedId(ids, at) !in PSEUDO
    {
      TakenDiffer(guard, at);
    }
    SameCheck(guard);
  }

  lemma SameCheck(guard: Guard)
    requires guard.unproved != []
    ensures CheckNode(guard, IdsOf(Taking(guard))) == CheckNode(Taking(guard), IdsOf(Taking(guard)))
  {
  }

  lemma TakenRefusal(guard: Guard, handlers: GuardHandlers, at: nat)
    requires guard.unproved != [] && at < |guard.unproved|
    ensures var nodes, id := GuardNodes(guard, IdsOf(Taking(guard)), handlers), ViolatedId(IdsOf(Taking(guard)), at);
      id in nodes && nodes[id] == ViolatedNode(guard.unproved[at], guard.shape, handlers) && IsRefusal(Taking(guard), id)
  {
    hide OkNode, CheckNode, ViolatedId, RefusalNodes, ViolatedNode;
    RefusalsAre(guard, IdsOf(Taking(guard)), handlers, |guard.unproved|);
    TakenDiffer(guard, at);
  }

  /** A spec that holds the nodes of a guard over `in`, which nothing else of it routes to and nothing of it catches. */
  ghost predicate Hosts(w: World, guard: Guard, handlers: GuardHandlers)
    requires guard.unproved != []
  {
    Makes(w.handlers, handlers.make) && Refuses(w.handlers, handlers.refuse) &&
    var nodes := GuardNodes(guard, IdsOf(Taking(guard)), handlers);
    (forall id :: id in nodes ==>
      id in w.spec.nodes && w.spec.nodes[id] == nodes[id] && id !in w.supplied.values &&
      CatcherOf(w.spec, id) == None &&
      forall s :: s in w.spec.nodes && s !in nodes ==> !RoutesTo(w.spec.nodes[s], id))
  }

  lemma HostsAt(w: World, guard: Guard, handlers: GuardHandlers, id: Id)
    requires w.Sound() && guard.unproved != [] && Hosts(w, guard, handlers) && id in GuardNodes(guard, IdsOf(Taking(guard)), handlers)
    ensures id in w.spec.nodes && w.spec.nodes[id] == GuardNodes(guard, IdsOf(Taking(guard)), handlers)[id]
    ensures id !in w.supplied.values && CatcherOf(w.spec, id) == None
  {
    hide WellFormed, GuardNodes, RoutesTo, CatcherOf;
  }

  lemma HostsUnrouted(w: World, guard: Guard, handlers: GuardHandlers, id: Id, s: Id)
    requires w.Sound() && guard.unproved != [] && Hosts(w, guard, handlers) && id in GuardNodes(guard, IdsOf(Taking(guard)), handlers)
    requires s in w.spec.nodes && s !in GuardNodes(guard, IdsOf(Taking(guard)), handlers)
    ensures !RoutesTo(w.spec.nodes[s], id)
  {
    hide WellFormed, GuardNodes, RoutesTo, CatcherOf;
  }

  lemma TakenRoutes(w: World, guard: Guard, handlers: GuardHandlers, id: Id)
    requires w.Sound() && guard.unproved != [] && Hosts(w, guard, handlers) && id in GuardNodes(guard, IdsOf(Taking(guard)), handlers)
    ensures RouterOf(w.spec, id) == if id == CHECK then None else Some(CHECK)
  {
    hide WellFormed, GuardNodes, RoutesTo, RouterOf, CatcherOf, IsRefusal, CheckNode, OkNode, Hosts;
    TakenNodes(guard, handlers, id);
    HostsAt(w, guard, handlers, CHECK);
    CheckRoutes(Taking(guard), id);
    WellRouted(w);
    if id == CHECK {
      forall s | s in w.spec.nodes ensures !RoutesTo(w.spec.nodes[s], id) {
        if s in GuardNodes(guard, IdsOf(Taking(guard)), handlers) {
          HostsAt(w, guard, handlers, s);
          TakenNodes(guard, handlers, s);
          if s != CHECK {
            TakenCallsRoute(guard, handlers, s, id);
          }
        } else {
          HostsUnrouted(w, guard, handlers, id, s);
        }
      }
      RouterNone(w.spec, id);
    } else {
      RouterIs(w.spec, CHECK, id);
    }
  }

  lemma WellRouted(w: World)
    requires w.Sound()
    ensures Listed(w.spec) && RoutedOnce(w.spec)
  {
    hide Listed, RoutedOnce, Ranked, TargetsExist;
  }

  lemma TakenCallsRoute(guard: Guard, handlers: GuardHandlers, s: Id, t: Id)
    requires guard.unproved != [] && s in GuardNodes(guard, IdsOf(Taking(guard)), handlers) && s != CHECK
    ensures !RoutesTo(GuardNodes(guard, IdsOf(Taking(guard)), handlers)[s], t)
  {
    hide GuardNodes, ViolatedId;
    TakenNodes(guard, handlers, s);
    if s != OK {
      var at :| 0 <= at < |guard.unproved| && s == ViolatedId(IdsOf(Taking(guard)), at);
      TakenRefusal(guard, handlers, at);
    }
  }

  lemma InIsRoot(w: World)
    requires w.Sound()
    ensures IN !in w.spec.nodes
  {
    hide Listed, RoutedOnce, Ranked, TargetsExist;
    assert IN in PSEUDO;
  }

  lemma TakenReads(guard: Guard, handlers: GuardHandlers)
    requires guard.unproved != []
    ensures NodeRefs(CheckNode(Taking(guard), IdsOf(Taking(guard)))) == if guard.roots == {} then {} else {IN}
    ensures NodeRefs(OkNode(IN, handlers)) == {IN} && Named(OkNode(IN, handlers)) == {}
    ensures Caught(OkNode(IN, handlers)) == {} && Caught(CheckNode(Taking(guard), IdsOf(Taking(guard)))) == {}
    ensures Named(CheckNode(Taking(guard), IdsOf(Taking(guard)))) == {}
  {
    OkReads(Taking(guard), handlers);
    OkCatches(Taking(guard), handlers);
    if guard.roots == {} {
      NoRefs(CheckNode(Taking(guard), IdsOf(Taking(guard))).inputs);
    } else {
      CheckReads(Taking(guard));
    }
  }

  /** The switch waits for nothing, and the value and the refusals for the switch alone. */
  lemma TakenWaits(w: World, guard: Guard, handlers: GuardHandlers, id: Id)
    requires w.Sound() && guard.unproved != [] && Hosts(w, guard, handlers) && id in GuardNodes(guard, IdsOf(Taking(guard)), handlers)
    ensures id in w.spec.nodes && WaitsFor(w.spec, id) == if id == CHECK then {} else {CHECK}
  {
    hide WellFormed, GuardNodes, RouterOf, CheckNode, OkNode, Hosts, WaitsFor, ViolatedId, ViolatedNode, NodeRefs, Named, Caught;
    HostsAt(w, guard, handlers, id);
    TakenNodes(guard, handlers, id);
    TakenRoutes(w, guard, handlers, id);
    TakenReads(guard, handlers);
    InIsRoot(w);
    WaitsAre(w.spec, id);
    if id != CHECK && id != OK {
      var at :| 0 <= at < |guard.unproved| && id == ViolatedId(IdsOf(Taking(guard)), at);
      TakenRefusal(guard, handlers, at);
      RefusalReads(guard.unproved[at], guard.shape, handlers);
      RefusalCatches(guard.unproved[at], guard.shape, handlers);
    }
  }

  lemma RefusalCatches(one: Unproved, shape: string, handlers: GuardHandlers)
    ensures Caught(ViolatedNode(one, shape, handlers)) == {}
  {
  }

  /** A node that waits for nothing and that nothing routes runs, once its roots are supplied. */
  lemma FreeFate(w: World, id: Id)
    requires w.Sound() && id in w.spec.nodes && WaitsFor(w.spec, id) == {} && RouterOf(w.spec, id) == None
    requires id !in w.supplied.values
    ensures FateOf(w, id) ==
      if RootsSupplied(w.spec.nodes[id], w.supplied.values) then Comes(w, id, FateValues(w, map[]), {}) else Stuck
  {
    hide WellFormed, FateOf, FatesBefore, WaitsFor, Comes, RouterOf, CatcherOf, NodeRefs, FateValues, RootsSupplied;
    FateIsJudged(w, id);
    assert FatesBefore(w, id) == map[];
    assert FateBroke(w, id, map[]) == {};
  }

  /** A node routed by a switch it waits for alone runs if it was chosen and its roots are supplied. */
  lemma ChosenFate(w: World, id: Id, router: Id)
    requires w.Sound() && id in w.spec.nodes && router in w.spec.nodes && WaitsFor(w.spec, id) == {router}
    requires RouterOf(w.spec, id) == Some(router) && id !in w.supplied.values && CatcherOf(w.spec, router) == None
    ensures FatesBefore(w, id) == map[router := FateOf(w, router)]
    ensures FateOf(w, router).Ran? && RootsSupplied(w.spec.nodes[id], w.supplied.values) ==>
      FateOf(w, id) ==
        if FateOf(w, router).selected == Some(id) then Comes(w, id, FateValues(w, FatesBefore(w, id)), {}) else Cut
    ensures FateOf(w, router).Ran? && FateOf(w, router).selected != Some(id) ==> FateOf(w, id) == Cut
    ensures !FateOf(w, router).Ran? ==> FateOf(w, id).Cut? || FateOf(w, id).Stuck?
    ensures FateOf(w, router).Stuck? ==> FateOf(w, id).Stuck?
  {
    hide WellFormed, FateOf, FatesBefore, WaitsFor, Comes, RouterOf, CatcherOf, NodeRefs, FateValues, RootsSupplied;
    FateIsJudged(w, id);
    var fates := FatesBefore(w, id);
    assert router in fates;
    assert fates == map[router := FateOf(w, router)];
    assert FateBroke(w, id, fates) == {};
  }

  /** The switch of a guard over `in` routes by the value that was taken. */
  lemma TakenCheck(w: World, guard: Guard, handlers: GuardHandlers)
    requires w.Sound() && guard.unproved != [] && Hosts(w, guard, handlers)
    ensures CHECK in w.spec.nodes
    ensures IN in w.supplied.values ==>
      var at := FirstFailing(guard.unproved, InputsAt(guard, w.supplied.values[IN]));
      var to := if at == |guard.unproved| then OK else ViolatedId(IdsOf(Taking(guard)), at);
      FateOf(w, CHECK) == Ran(Str(to), Some(to))
    ensures IN !in w.supplied.values && guard.roots != {} ==> FateOf(w, CHECK).Stuck?
  {
    hide WellFormed, GuardNodes, RouterOf, CheckNode, OkNode, Hosts, WaitsFor, FateOf, NodeRefs, FirstFailing, ViolatedId, CatcherOf, RouteOf;
    TakenNodes(guard, handlers, CHECK);
    HostsAt(w, guard, handlers, CHECK);
    TakenWaits(w, guard, handlers, CHECK);
    TakenRoutes(w, guard, handlers, CHECK);
    TakenReads(guard, handlers);
    FreeFate(w, CHECK);
    CheckIsSwitch(Taking(guard));
    if IN in w.supplied.values {
      assert FateValues(w, map[]) == w.supplied.values;
      assert InputsAt(Taking(guard), w.supplied.values[IN]) == InputsAt(guard, w.supplied.values[IN]) &&
        Verdict(Taking(guard), w.supplied.values[IN]) == Verdict(guard, w.supplied.values[IN]);
      CheckRoute(Taking(guard), w.supplied.values[IN], w.supplied.values);
    }
  }

  lemma TakenOkComes(w: World, guard: Guard, handlers: GuardHandlers, values: Values)
    requires w.Sound() && guard.unproved != [] && Hosts(w, guard, handlers) && IN in values
    ensures OK in w.spec.nodes && Comes(w, OK, values, {}) == Ran(values[IN], None)
  {
    hide WellFormed, GuardNodes, Refuses, RoutesTo, CatcherOf;
    TakenNodes(guard, handlers, OK);
    var inputs := map["value" := Ref(IN, [])];
    assert ReadSource(inputs["value"], values) == Some(values[IN]);
    assert "value" in inputs && "value" in ReadAll(inputs, values) && ReadAll(inputs, values)["value"] == values[IN];
    assert OkNode(IN, handlers) == Call(handlers.make, inputs, {});
  }

  /** What the guard lets through: the value taken, where every rule holds of it. */
  lemma TakenOk(w: World, guard: Guard, handlers: GuardHandlers)
    requires w.Sound() && guard.unproved != [] && Hosts(w, guard, handlers)
    ensures OK in w.spec.nodes
    ensures IN in w.supplied.values ==>
      FateOf(w, OK) == if Verdict(guard, w.supplied.values[IN]).Answer? then Ran(w.supplied.values[IN], None) else Cut
    ensures IN !in w.supplied.values && guard.roots != {} ==> FateOf(w, OK).Stuck?
  {
    hide WellFormed, GuardNodes, RouterOf, CheckNode, OkNode, Hosts, WaitsFor, FateOf, NodeRefs, FirstFailing, ViolatedId, CatcherOf, Comes, FatesBefore;
    TakenNodes(guard, handlers, OK);
    HostsAt(w, guard, handlers, OK);
    HostsAt(w, guard, handlers, CHECK);
    TakenWaits(w, guard, handlers, OK);
    TakenRoutes(w, guard, handlers, OK);
    TakenReads(guard, handlers);
    TakenCheck(w, guard, handlers);
    ChosenFate(w, OK, CHECK);
    if IN in w.supplied.values {
      InIsRoot(w);
      var values := FateValues(w, FatesBefore(w, OK));
      assert values[IN] == w.supplied.values[IN];
      TakenOkComes(w, guard, handlers, values);
      TakenDiffer(guard, FirstFailing(guard.unproved, InputsAt(guard, w.supplied.values[IN])));
    }
  }

  lemma TakenRefuses(w: World, guard: Guard, handlers: GuardHandlers, at: nat, values: Values)
    requires w.Sound() && guard.unproved != [] && Hosts(w, guard, handlers) && at < |guard.unproved|
    ensures var id := ViolatedId(IdsOf(Taking(guard)), at);
      id in w.spec.nodes && Comes(w, id, values, {}) == Broke(Refused(INVARIANT, guard.unproved[at].message))
  {
    hide WellFormed, GuardNodes, Makes, RoutesTo, CatcherOf, ViolatedId, ViolatedNode;
    TakenRefusal(guard, handlers, at);
    RefusalInputs(guard.unproved[at], guard.shape, handlers, values);
  }

  /** Of the refusals, the first failing rule's refuses, and no other runs. */
  lemma TakenRefusalFate(w: World, guard: Guard, handlers: GuardHandlers, at: nat)
    requires w.Sound() && guard.unproved != [] && Hosts(w, guard, handlers) && at < |guard.unproved|
    ensures var id := ViolatedId(IdsOf(Taking(guard)), at);
      id in w.spec.nodes &&
      (IN in w.supplied.values ==>
        FateOf(w, id) ==
          if FirstFailing(guard.unproved, InputsAt(guard, w.supplied.values[IN])) == at then
            Broke(Refused(INVARIANT, guard.unproved[at].message))
          else Cut) &&
      (IN !in w.supplied.values && guard.roots != {} ==> FateOf(w, id).Stuck?)
  {
    hide WellFormed, GuardNodes, RouterOf, CheckNode, OkNode, Hosts, WaitsFor, FateOf, NodeRefs, FirstFailing, ViolatedId, CatcherOf, Comes, FatesBefore, ViolatedNode, FateValues;
    var id := ViolatedId(IdsOf(Taking(guard)), at);
    TakenRefusal(guard, handlers, at);
    TakenNodes(guard, handlers, id);
    TakenNodes(guard, handlers, CHECK);
    HostsAt(w, guard, handlers, id);
    HostsAt(w, guard, handlers, CHECK);
    TakenWaits(w, guard, handlers, id);
    TakenRoutes(w, guard, handlers, id);
    RefusalReads(guard.unproved[at], guard.shape, handlers);
    TakenCheck(w, guard, handlers);
    ChosenFate(w, id, CHECK);
    TakenRefuses(w, guard, handlers, at, FateValues(w, FatesBefore(w, id)));
    if IN in w.supplied.values {
      var first := FirstFailing(guard.unproved, InputsAt(guard, w.supplied.values[IN]));
      if first != at && ViolatedId(IdsOf(Taking(guard)), first) == id {
        ViolatedDiffer(IdsOf(Taking(guard)), first, at);
      }
    }
  }
}
