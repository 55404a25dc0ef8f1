/** The nested spec one element of a guarded list runs through: it comes to the element's verdict. */
module GuardNested {
  import opened Json
  import opened Sources
  import opened Outcomes
  import opened KernelSpec
  import opened Kernel
  import opened Fates
  import opened Guards
  import opened GuardSites
  import opened GuardWaits
  import opened GuardFates
  import opened GuardOwn
  import opened GuardLaws
  import opened GuardTaken
  import opened Meaning

  /** The nested spec, handed an element whole as `in`. */
  function Nested(guard: Guard, handlers: GuardHandlers, h: Handlers, element: Json): World
    requires guard.unproved != []
  {
    var spec := GuardSpec(guard, handlers);
    World(spec, map id | id in spec.nodes :: if id == CHECK then 0 else 1, h, Supplied(map[IN := element], map[]))
  }

  lemma NestedOrder(guard: Guard, handlers: GuardHandlers)
    requires guard.unproved != []
    ensures Listed(GuardSpec(guard, handlers))
  {
    hide ViolatedId, GuardNodes;
    ListedOnce(GuardSpec(guard, handlers));
    var spec, ids := GuardSpec(guard, handlers), IdsOf(Taking(guard));
    var count := |guard.unproved|;
    forall id ensures id in spec.order <==> id in spec.nodes {
      TakenNodes(guard, handlers, id);
      if id in spec.order && id != CHECK && id != OK {
        var i :| 0 <= i < |spec.order| && spec.order[i] == id;
        assert id == ViolatedId(ids, i - 2);
      }
      if IsRefusal(Taking(guard), id) {
        var at :| 0 <= at < count && id == ViolatedId(ids, at);
        assert spec.order[at + 2] == id;
      }
    }
    forall i, j | 0 <= i < j < |spec.order| ensures spec.order[i] != spec.order[j] {
      if j >= 2 {
        TakenDiffer(guard, j - 2);
      }
      if i >= 2 && ViolatedId(ids, i - 2) == ViolatedId(ids, j - 2) {
        ViolatedDiffer(ids, i - 2, j - 2);
      }
    }
  }

  lemma NestedRoutes(guard: Guard, handlers: GuardHandlers, s: Id, t: Id)
    requires guard.unproved != [] && s in GuardSpec(guard, handlers).nodes
    ensures RoutesTo(GuardSpec(guard, handlers).nodes[s], t) <==> s == CHECK && (t == OK || IsRefusal(Taking(guard), t))
    ensures s != CHECK ==> !GuardSpec(guard, handlers).nodes[s].Switch?
    ensures !CatchesKey(GuardSpec(guard, handlers).nodes[s], t)
  {
    hide GuardNodes, RoutesTo, CheckNode, OkNode, ViolatedId;
    TakenNodes(guard, handlers, s);
    if s == CHECK {
      CheckRoutes(Taking(guard), t);
      CheckCatchesNothing(guard, t);
    } else {
      TakenCallsRoute(guard, handlers, s, t);
      TakenCalls(guard, handlers, s);
    }
  }

  lemma CheckCatchesNothing(guard: Guard, t: Id)
    requires guard.unproved != []
    ensures !CatchesKey(CheckNode(Taking(guard), IdsOf(Taking(guard))), t)
  {
  }

  lemma TakenCalls(guard: Guard, handlers: GuardHandlers, s: Id)
    requires guard.unproved != [] && s in GuardNodes(guard, IdsOf(Taking(guard)), handlers) && s != CHECK
    ensures !GuardNodes(guard, IdsOf(Taking(guard)), handlers)[s].Switch?
  {
    hide GuardNodes, ViolatedId;
    TakenNodes(guard, handlers, s);
    if s != OK {
      var at :| 0 <= at < |guard.unproved| && s == ViolatedId(IdsOf(Taking(guard)), at);
      TakenRefusal(guard, handlers, at);
    }
  }

  /** Without a router but the switch, a node of the nested spec waits for it alone, and it for nothing. */
  lemma NestedWaits(guard: Guard, handlers: GuardHandlers, id: Id, d: Id)
    requires guard.unproved != [] && id in GuardSpec(guard, handlers).nodes && d in WaitsFor(GuardSpec(guard, handlers), id)
    ensures d == CHECK && id != CHECK
  {
    hide GuardNodes, RouterOf, CheckNode, OkNode, WaitsFor, ViolatedId, ViolatedNode, NodeRefs, Named, Caught, RoutesTo;
    var spec := GuardSpec(guard, handlers);
    WaitsAre(spec, id);
    TakenNodes(guard, handlers, id);
    TakenReads(guard, handlers);
    NestedRouter(guard, handlers, id);
    assert IN in PSEUDO;
    if id != CHECK && id != OK {
      var at :| 0 <= at < |guard.unproved| && id == ViolatedId(IdsOf(Taking(guard)), at);
      TakenRefusal(guard, handlers, at);
      RefusalReads(guard.unproved[at], guard.shape, handlers);
      RefusalCatches(guard.unproved[at], guard.shape, handlers);
    }
  }

  lemma NestedRouter(guard: Guard, handlers: GuardHandlers, id: Id)
    requires guard.unproved != [] && id in GuardSpec(guard, handlers).nodes
    ensures RouterOf(GuardSpec(guard, handlers), id).Some? ==> RouterOf(GuardSpec(guard, handlers), id).value == CHECK
    ensures id == CHECK ==> RouterOf(GuardSpec(guard, handlers), id) == None
  {
    hide GuardNodes, RouterOf, RoutesTo;
    var spec := GuardSpec(guard, handlers);
    var router := RouterOf(spec, id);
    if router.Some? {
      NestedRoutes(guard, handlers, router.value, id);
    }
    TakenNodes(guard, handlers, id);
    if id == CHECK {
      forall s | s in spec.nodes ensures !RoutesTo(spec.nodes[s], id) {
        NestedRoutes(guard, handlers, s, id);
      }
      RouterNone(spec, id);
    }
  }

  lemma NestedIsSound(guard: Guard, handlers: GuardHandlers, h: Handlers, element: Json)
    requires guard.unproved != []
    ensures Nested(guard, handlers, h, element).Sound()
  {
    hide GuardNodes, RoutesTo, WaitsFor, Listed, ViolatedIds;
    var w := Nested(guard, handlers, h, element);
    NestedOrder(guard, handlers);
    assert RoutedOnce(w.spec) && TargetsExist(w.spec) by { NestedRoutesOnce(guard, handlers); }
    forall id | id in w.spec.nodes ensures id !in PSEUDO {
      TakenNodes(guard, handlers, id);
    }
    TakenNodes(guard, handlers, CHECK);
    forall id, d | id in w.spec.nodes && d in WaitsFor(w.spec, id) ensures d in w.spec.nodes && w.rank[d] < w.rank[id] {
      NestedWaits(guard, handlers, id, d);
    }
  }

  lemma NestedRoutesOnce(guard: Guard, handlers: GuardHandlers)
    requires guard.unproved != []
    ensures RoutedOnce(GuardSpec(guard, handlers)) && TargetsExist(GuardSpec(guard, handlers))
  {
    hide GuardNodes, RoutesTo, ViolatedIds;
    var spec := GuardSpec(guard, handlers);
    forall s, s', t | s in spec.nodes && s' in spec.nodes && RoutesTo(spec.nodes[s], t) && RoutesTo(spec.nodes[s'], t)
      ensures s == s'
    {
      NestedRoutes(guard, handlers, s, t);
      NestedRoutes(guard, handlers, s', t);
    }
    forall s, t | s in spec.nodes && RoutesTo(spec.nodes[s], t) ensures t in spec.nodes {
      NestedRoutes(guard, handlers, s, t);
      TakenNodes(guard, handlers, t);
    }
  }

  lemma NestedHosts(guard: Guard, handlers: GuardHandlers, h: Handlers, element: Json)
    requires guard.unproved != [] && Makes(h, handlers.make) && Refuses(h, handlers.refuse)
    ensures Nested(guard, handlers, h, element).Sound() && Hosts(Nested(guard, handlers, h, element), guard, handlers)
  {
    hide GuardNodes, RoutesTo, CatcherOf, Makes, Refuses, ViolatedIds;
    var w := Nested(guard, handlers, h, element);
    NestedIsSound(guard, handlers, h, element);
    forall id | id in w.spec.nodes ensures id !in w.supplied.values && CatcherOf(w.spec, id) == None {
      TakenNodes(guard, handlers, id);
      assert CatcherOf(GuardSpec(guard, handlers), id) == None by {
        hide CatcherIn, CatchesKey;
        var catcher := CatcherOf(GuardSpec(guard, handlers), id);
        if catcher.Some? {
          NestedRoutes(guard, handlers, catcher.value, id);
        }
      }
    }
  }

  /** What becomes of each node of the nested spec. */
  lemma NestedFates(guard: Guard, handlers: GuardHandlers, h: Handlers, element: Json, id: Id)
    requires guard.unproved != [] && Makes(h, handlers.make) && Refuses(h, handlers.refuse)
    requires id in GuardSpec(guard, handlers).nodes
    ensures var w := Nested(guard, handlers, h, element);
      var at := FirstFailing(guard.unproved, InputsAt(guard, element));
      w.Sound() &&
      (id == OK ==> FateOf(w, id) == if at == |guard.unproved| then Ran(element, None) else Cut) &&
      (id == CHECK ==> FateOf(w, id).Ran?) &&
      (id != OK && id != CHECK ==>
        FateOf(w, id) ==
          if at < |guard.unproved| && id == ViolatedId(IdsOf(Taking(guard)), at) then Broke(Verdict(guard, element)) else Cut)
  {
    hide GuardNodes, FateOf, Hosts, Makes, Refuses, ViolatedId, FirstFailing, GuardSpec;
    var w := Nested(guard, handlers, h, element);
    NestedHosts(guard, handlers, h, element);
    TakenOk(w, guard, handlers);
    TakenCheck(w, guard, handlers);
    NestedIs(guard, handlers, id);
    if id != OK && id != CHECK {
      var at :| 0 <= at < |guard.unproved| && id == ViolatedId(IdsOf(Taking(guard)), at);
      TakenRefusalFate(w, guard, handlers, at);
      var first := FirstFailing(guard.unproved, InputsAt(guard, element));
      if ViolatedId(IdsOf(Taking(guard)), first) == id {
        ViolatedDiffer(IdsOf(Taking(guard)), first, at);
      }
    }
  }

  lemma NestedIs(guard: Guard, handlers: GuardHandlers, id: Id)
    requires guard.unproved != []
    ensures id in GuardSpec(guard, handlers).nodes <==> id == CHECK || id == OK || IsRefusal(Taking(guard), id)
  {
    hide GuardNodes, ViolatedIds;
    TakenNodes(guard, handlers, id);
  }

  /**
   * The nested spec comes to the element's verdict: done with the element where every rule holds of it, else failed,
   * and by the refusal of the first rule it breaks and nothing else.
   */
  lemma NestedMeans(guard: Guard, handlers: GuardHandlers, h: Handlers, element: Json)
    requires guard.unproved != [] && Makes(h, handlers.make) && Refuses(h, handlers.refuse)
    ensures var w := Nested(guard, handlers, h, element);
      w.Sound() && (Fails(w) <==> !Verdict(guard, element).Answer?) &&
      (!Fails(w) ==> Means(w).status.RunDone? && Means(w).output == Some(element)) &&
      (forall id :: id in w.spec.nodes && EndsRun(w, id) ==> FateOf(w, id) == Broke(Verdict(guard, element)))
  {
    hide GuardNodes, FateOf, Makes, Refuses, ViolatedId, FirstFailing, CatcherOf, ViolatedIds, Means, WellFormed;
    var w := Nested(guard, handlers, h, element);
    NestedIsSound(guard, handlers, h, element);
    var at := FirstFailing(guard.unproved, InputsAt(guard, element));
    forall id | id in w.spec.nodes && EndsRun(w, id) ensures FateOf(w, id) == Broke(Verdict(guard, element)) {
      NestedFates(guard, handlers, h, element, id);
    }
    if at < |guard.unproved| {
      var id := ViolatedId(IdsOf(Taking(guard)), at);
      assert ViolatedId(IdsOf(Taking(guard)), at) in GuardSpec(guard, handlers).nodes by {
        TakenRefusal(guard, handlers, at);
      }
      NestedFates(guard, handlers, h, element, id);
      TakenDiffer(guard, at);
      FailsAt(w, id);
    } else {
      NestedDoesNotFail(guard, handlers, h, element);
      NestedAnswers(guard, handlers, h, element);
    }
  }

  lemma NestedAnswers(guard: Guard, handlers: GuardHandlers, h: Handlers, element: Json)
    requires guard.unproved != [] && Makes(h, handlers.make) && Refuses(h, handlers.refuse)
    requires FirstFailing(guard.unproved, InputsAt(guard, element)) == |guard.unproved|
    ensures var w := Nested(guard, handlers, h, element);
      w.Sound() && Means(w).status.RunDone? && Means(w).output == Some(element)
  {
    hide GuardNodes, FateOf, Makes, Refuses, ViolatedId, FirstFailing, CatcherOf, FateReport, ViolatedIds, Fails, WellFormed;
    var w := Nested(guard, handlers, h, element);
    NestedIsSound(guard, handlers, h, element);
    NestedIs(guard, handlers, OK);
    NestedFates(guard, handlers, h, element, OK);
    NestedDoesNotFail(guard, handlers, h, element);
    assert FirstFated(w, ([OK] + ViolatedIds(IdsOf(Taking(guard)), |guard.unproved|))) == Some(([OK] + ViolatedIds(IdsOf(Taking(guard)), |guard.unproved|))[0]) by {
      hide Answered;
    }
  }

  lemma NestedDoesNotFail(guard: Guard, handlers: GuardHandlers, h: Handlers, element: Json)
    requires guard.unproved != [] && Makes(h, handlers.make) && Refuses(h, handlers.refuse)
    requires FirstFailing(guard.unproved, InputsAt(guard, element)) == |guard.unproved|
    ensures Nested(guard, handlers, h, element).Sound() && !Fails(Nested(guard, handlers, h, element))
  {
    hide GuardNodes, FateOf, Makes, Refuses, ViolatedId, FirstFailing, CatcherOf, ViolatedIds;
    var w := Nested(guard, handlers, h, element);
    NestedIsSound(guard, handlers, h, element);
    forall id | id in w.spec.nodes ensures !EndsRun(w, id) {
      NestedFates(guard, handlers, h, element, id);
    }
  }

  // ---- the handler that runs it -----------------------------------------------------------------

  /** What a node that runs a spec is handed back: its output, or the failure of a node that ended it. */
  ghost predicate HandsBack(w: World, outcome: Outcome)
    requires w.Ranks()
  {
    if Fails(w) then exists id :: id in w.spec.nodes && EndsRun(w, id) && FateOf(w, id) == Broke(outcome)
    else Means(w).output.Some? && outcome == Answer(Means(w).output.value)
  }

  /** One element run through the nested spec hands this back. */
  ghost predicate NestedHandsBack(guard: Guard, handlers: GuardHandlers, h: Handlers, element: Json, outcome: Outcome)
    requires guard.unproved != []
  {
    Nested(guard, handlers, h, element).Sound() && HandsBack(Nested(guard, handlers, h, element), outcome)
  }

  /** A handler runs the nested spec with what it is handed as `in`, by the handlers it is one of. */
  ghost predicate RunsNested(h: Handlers, name: string, guard: Guard, handlers: GuardHandlers)
    requires guard.unproved != []
  {
    name in h && forall p: seq<string>, i: Inputs :: "in" in i ==>
      NestedHandsBack(guard, handlers, h, i["in"], h[name](p, i))
  }

  /** One element's run hands back its verdict and nothing else. */
  lemma VerdictIsHandedBack(guard: Guard, handlers: GuardHandlers, h: Handlers, element: Json, outcome: Outcome)
    requires guard.unproved != [] && Makes(h, handlers.make) && Refuses(h, handlers.refuse)
    ensures NestedHandsBack(guard, handlers, h, element, outcome) <==> outcome == Verdict(guard, element)
  {
    hide GuardNodes, FateOf, EndsRun, Makes, Refuses, FirstFailing, Means, WellFormed, InputsAt, Nested;
    NestedMeans(guard, handlers, h, element);
    var w := Nested(guard, handlers, h, element);
    if Fails(w) {
      var id :| id in w.spec.nodes && EndsRun(w, id);
      assert FateOf(w, id) == Broke(Verdict(guard, element));
    }
  }

  /** The handler a guarded list's elements run through comes to their verdicts exactly where it runs the nested spec. */
  lemma RunningNestedNests(h: Handlers, guard: Guard, handlers: GuardHandlers)
    requires guard.unproved != [] && Makes(h, handlers.make) && Refuses(h, handlers.refuse)
    ensures RunsNested(h, guard.nested, guard, handlers) <==> Nests(h, guard.nested, guard)
  {
    hide Makes, Refuses, NestedHandsBack, Verdict;
    if guard.nested in h {
      forall p: seq<string>, i: Inputs | "in" in i
        ensures NestedHandsBack(guard, handlers, h, i["in"], h[guard.nested](p, i)) <==>
          h[guard.nested](p, i) == Verdict(guard, i["in"])
      {
        VerdictIsHandedBack(guard, handlers, h, i["in"], h[guard.nested](p, i));
      }
    }
  }
}
