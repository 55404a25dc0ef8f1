/** What becomes of the node moved aside, and of the guard's own nodes: the value it lets through, or the refusal. */
module GuardOwn {
  import opened Json
  import opened Sources
  import opened Outcomes
  import opened KernelSpec
  import opened Fates
  import opened Guards
  import opened GuardSites
  import opened GuardWaits
  import opened GuardFates
  import opened Steps
  import MapPool

  // ---- the moved node ---------------------------------------------------------------------------

  /** The same outcome, but for what a fault says: a map names itself in one. */
  predicate SameOutcome(one: Outcome, other: Outcome) {
    one == other || (one.Fault? && other.Fault?)
  }

  /** The same fate, but for what a fault says. */
  predicate SameFate(one: Fate, other: Fate) {
    one == other || (one.Broke? && other.Broke? && SameOutcome(one.failure, other.failure))
  }

  lemma InvokedAlike(w: World, guard: Guard, handlers: GuardHandlers, name: string, p: seq<string>, p': seq<string>, i: Inputs)
    requires Handled(w, guard, handlers) && RunsBy(w.spec, guard.id, name)
    ensures Invoke(w.handlers, name, p, i) == Invoke(w.handlers, name, p', i)
  {
    hide FreshIds, Makes, Refuses, Nests;
  }

  lemma ElementsUnseeded(w: World, guard: Guard, handlers: GuardHandlers, id: Id, i: nat)
    requires Handled(w, guard, handlers) && (id == guard.id || id in FreshIds(guard))
    ensures (id, i) !in w.supplied.elements
  {
    hide FreshIds, Makes, Refuses, Nests, Placeless;
  }

  lemma ElementsAlike(w: World, guard: Guard, handlers: GuardHandlers, i: nat, shared: Inputs, item: Json)
    requires Standing(w, guard) && Handled(w, guard, handlers) && w.spec.nodes[guard.id].Map?
    ensures var node, made, elements := w.spec.nodes[guard.id], IdsOf(guard).made, w.supplied.elements;
      ElementResult(node, w.handlers, guard.id, i, shared, item, elements) ==
      ElementResult(node, w.handlers, made, i, shared, item, elements)
  {
    hide Standing, Handled, FreshIds, IdsOf, Invoke, ElementInputs;
    StandsAt(w, guard);
    OwnAreFresh(guard);
    var node, made := w.spec.nodes[guard.id], IdsOf(guard).made;
    ElementsUnseeded(w, guard, handlers, guard.id, i);
    ElementsUnseeded(w, guard, handlers, made, i);
    if node.each.Some? {
      InvokedAlike(w, guard, handlers, node.each.value, [guard.id, Digits(i)], [made, Digits(i)],
                   ElementInputs(node.bind, shared, item));
    }
  }

  lemma SitesAlike(w: World, guard: Guard, handlers: GuardHandlers, shared: Inputs, items: seq<Json>)
    requires Standing(w, guard) && Handled(w, guard, handlers) && w.spec.nodes[guard.id].Map?
    ensures var node, made, elements := w.spec.nodes[guard.id], IdsOf(guard).made, w.supplied.elements;
      SameOutcome(MapPool.MapOutcome(SiteOf(node, w.handlers, guard.id, shared, items, elements)),
                  MapPool.MapOutcome(SiteOf(node, w.handlers, made, shared, items, elements)))
  {
    hide Standing, Handled, FreshIds, IdsOf, ElementResult, MapPool.ShownAll;
    StandsAt(w, guard);
    var node, made, elements := w.spec.nodes[guard.id], IdsOf(guard).made, w.supplied.elements;
    var one, other := SiteOf(node, w.handlers, guard.id, shared, items, elements), SiteOf(node, w.handlers, made, shared, items, elements);
    forall i | 0 <= i < |items| ensures one.own[i] == other.own[i] {
      ElementsAlike(w, guard, handlers, i, shared, items[i]);
    }
    assert one.own == other.own;
    assert SameOutcome(MapPool.Collect(one.id, MapPool.Reached(one), one.collects), MapPool.Collect(other.id, MapPool.Reached(one), one.collects)) by {
      hide Digits;
    }
  }

  lemma OutcomesAlike(w: World, guard: Guard, handlers: GuardHandlers, values: Values)
    requires Standing(w, guard) && Handled(w, guard, handlers)
    ensures guard.id in w.spec.nodes && !w.spec.nodes[guard.id].Switch?
    ensures SameOutcome(
      NodeOutcome(w.spec.nodes[guard.id], w.handlers, guard.id, values, w.supplied.elements),
      NodeOutcome(w.spec.nodes[guard.id], w.handlers, IdsOf(guard).made, values, w.supplied.elements))
  {
    hide Standing, Handled, FreshIds, IdsOf, SiteOf, MapPool.MapOutcome, Invoke;
    StandsAt(w, guard);
    var node := w.spec.nodes[guard.id];
    if node.Call? {
      InvokedAlike(w, guard, handlers, node.handler, [guard.id], [IdsOf(guard).made], ReadAll(node.inputs, values));
    } else {
      var over := ReadSource(node.over, values);
      if over.Some? && over.value.Arr? {
        SitesAlike(w, guard, handlers, ReadAll(node.inputs, values), over.value.items);
      }
    }
  }

  lemma MadeRuns(w: World, guard: Guard, handlers: GuardHandlers, fates: map<Id, Fate>, fates': map<Id, Fate>)
    requires w.Sound() && Standing(w, guard) && Match(w, guard, fates, fates') && guard.id !in fates && Selecting(w, fates)
    ensures var w', made := Lowered(w, guard, handlers), IdsOf(guard).made;
      made in w'.spec.nodes && (IsCut(w', made, fates') <==> IsCut(w, guard.id, fates)) &&
      (Runs(w', made, fates') <==> Runs(w, guard.id, fates))
  {
    hide Standing, WellFormed, LowerWithOutput, RouterOf, IdsOf, RoutesTo, NodeRefs, CatcherOf;
    StandsAt(w, guard);
    var w', made := Lowered(w, guard, handlers), IdsOf(guard).made;
    NodesAre(w, guard, handlers, made);
    RoutersAre(w, guard, handlers, made);
    // Nothing the guarded node waits for has a fault the node could catch.
    assert (var spec, made := Lowered(w, guard, handlers).spec, IdsOf(guard).made;
          (forall d :: d in fates' ==> Meets(spec, made, d, fates'[d])) <==>
          (forall d :: d in fates ==> Meets(w.spec, guard.id, d, fates[d]))) by {
      hide Lowered;
      StandsAt(w, guard);
      OwnAreFresh(guard);
      FreshAreUnnamed(w, guard);
      var spec, made := Lowered(w, guard, handlers).spec, IdsOf(guard).made;
      forall d | d in fates ensures Meets(spec, made, d, fates'[d]) <==> Meets(w.spec, guard.id, d, fates[d]) {
        CatchersAre(w, guard, handlers, d);
        CallsAreNotCatchers(w, guard, d);
      }
    }
    assert (var w', made := Lowered(w, guard, handlers), IdsOf(guard).made;
          (IsChosen(w', made, fates') <==> IsChosen(w, guard.id, fates)) &&
          (IsPassedOver(w', made, fates') <==> IsPassedOver(w, guard.id, fates))) by {
      StandsAt(w, guard);
      IdsAreDifferent(guard);
      var made := IdsOf(guard).made;
      RoutersAre(w, guard, handlers, made);
      var router := RouterOf(w.spec, guard.id);
      if router.Some? && router.value in fates && fates[router.value].Ran? && fates[router.value].selected.Some? {
        MadeIsNotTarget(w, guard, router.value);
      }
    }
    hide Match, Meets, IsChosen, IsPassedOver, Selecting;
    assert (exists d :: d in fates && fates[d].Cut?) <==> (exists d :: d in fates' && fates'[d].Cut?) by {
      assert forall d :: d in fates ==> (fates'[d].Cut? <==> fates[d].Cut?);
    }
  }

  lemma CallsAreNotCatchers(w: World, guard: Guard, d: Id)
    requires Standing(w, guard)
    ensures CatcherOf(w.spec, d) != Some(guard.id)
    ensures CatcherOf(w.spec, d).Some? ==> CatcherOf(w.spec, d).value in w.spec.nodes
  {
    hide FreshIds, Unnamed, CatcherIn;
  }

  lemma MadeComes(w: World, guard: Guard, handlers: GuardHandlers, values: Values, broke: set<Id>, broke': set<Id>)
    requires w.Sound() && Standing(w, guard) && Handled(w, guard, handlers)
    ensures var w', made := Lowered(w, guard, handlers), IdsOf(guard).made;
      made in w'.spec.nodes && SameFate(Comes(w, guard.id, values, broke), Comes(w', made, values, broke'))
  {
    hide Standing, Handled, WellFormed, LowerWithOutput, IdsOf, NodeOutcome, AddedNodes, AddedIds;
    StandsAt(w, guard);
    NodesAre(w, guard, handlers, IdsOf(guard).made);
    OutcomesAlike(w, guard, handlers, values);
  }

  lemma MadeJudge(w: World, guard: Guard, handlers: GuardHandlers, fates: map<Id, Fate>, fates': map<Id, Fate>)
    requires w.Sound() && Standing(w, guard) && Handled(w, guard, handlers)
    requires Match(w, guard, fates, fates') && guard.id !in fates && Selecting(w, fates) && ReadsNoChoice(w, guard, guard.id, fates)
    ensures var w', made := Lowered(w, guard, handlers), IdsOf(guard).made;
      made in w'.spec.nodes && SameFate(Judge(w, guard.id, fates), Judge(w', made, fates'))
  {
    hide Standing, Handled, WellFormed, LowerWithOutput, IdsOf, Comes, IsCut, Runs, Match, Selecting, ReadsNoChoice, FateValues, FateBroke, NodeRefs, AgreeOn, FreshIds;
    StandsAt(w, guard);
    OwnAreFresh(guard);
    FreshAreUnnamed(w, guard);
    var w', made := Lowered(w, guard, handlers), IdsOf(guard).made;
    MadeRuns(w, guard, handlers, fates, fates');
    ThereValues(w, guard, handlers, guard.id, fates, fates');
    MadeComes(w, guard, handlers, FateValues(w', fates'), FateBroke(w, guard.id, fates), FateBroke(w', made, fates'));
    ComesAlike(w, guard.id, FateValues(w, fates), FateValues(w', fates'), FateBroke(w, guard.id, fates));
  }

  /** The node moved aside comes to what it came to where it stood. */
  lemma MadeFate(w: World, guard: Guard, handlers: GuardHandlers)
    requires Guardable(w, guard, handlers) && Lowered(w, guard, handlers).Sound()
    ensures IdsOf(guard).made in Lowered(w, guard, handlers).spec.nodes
    ensures SameFate(FateOf(w, guard.id), FateOf(Lowered(w, guard, handlers), IdsOf(guard).made))
  {
    hide Standing, Handled, Clear, WellFormed, Lowered, FateOf, FatesBefore, Judge, WaitsFor, MovedFate, Selecting, SameFate, IdsOf, ReadsNoChoice;
    StandsAt(w, guard);
    ClearReads(w, guard, guard.id);
    var w', made := Lowered(w, guard, handlers), IdsOf(guard).made;
    MadeWaits(w, guard, handlers);
    FateIsJudged(w, guard.id);
    FateIsJudged(w', made);
    FatesSelect(w, guard.id);
    WaitsComeBefore(w, guard.id);
    forall d | d in FatesBefore(w, guard.id)
      ensures d != guard.id && FatesBefore(w', made)[d] == MovedFate(guard, FatesBefore(w, guard.id)[d])
    {
      ThereFate(w, guard, handlers, d);
    }
    MadeJudge(w, guard, handlers, FatesBefore(w, guard.id), FatesBefore(w', made));
  }

  // ---- the switch -------------------------------------------------------------------------------

  /** A node that waits for one other alone, which no fault of it is caught from, and which nothing routes. */
  lemma WaitsForOne(w: World, id: Id, d: Id)
    requires w.Sound() && id in w.spec.nodes && d in w.spec.nodes && WaitsFor(w.spec, id) == {d}
    requires RouterOf(w.spec, id) == None && CatcherOf(w.spec, d) == None && NodeRefs(w.spec.nodes[id]) !! PSEUDO
    requires id !in w.supplied.values
    ensures match FateOf(w, d)
      case Cut => FateOf(w, id).Cut?
      case Broke(_) => FateOf(w, id).Stuck?
      case Stuck => FateOf(w, id).Stuck?
      case _ => FateOf(w, id) == Comes(w, id, FateValues(w, FatesBefore(w, id)), {})
    ensures FatesBefore(w, id) == map[d := FateOf(w, d)]
  {
    hide WellFormed, FateOf, FatesBefore, WaitsFor, Comes, RouterOf, CatcherOf, NodeRefs, FateValues;
    FateIsJudged(w, id);
    var fates := FatesBefore(w, id);
    assert fates == map[d := FateOf(w, d)];
    assert d in fates && fates[d] == FateOf(w, d);
    assert FateBroke(w, id, fates) == {};
  }

  /** The switch routes to the value where every rule holds of it, else to the refusal of the first that does not. */
  lemma CheckRoute(guard: Guard, value: Json, values: Values)
    requires guard.unproved != []
    requires IdsOf(guard).made in values && values[IdsOf(guard).made] == value
    ensures var at := FirstFailing(guard.unproved, InputsAt(guard, value));
      RouteOf(CheckNode(guard, IdsOf(guard)), values, {}) ==
        if at == |guard.unproved| then IdsOf(guard).ok else ViolatedId(IdsOf(guard), at)
  {
    hide ViolatedId, FirstFailing;
    var ids := IdsOf(guard);
    var node := CheckNode(guard, ids);
    var inputs := InputsAt(guard, value);
    var sources := map root | root in guard.roots :: Ref(ids.made, [root]);
    assert ReadAll(node.inputs, values) == inputs by {
      assert node.inputs == sources;
      assert forall root :: root in sources ==> ReadSource(sources[root], values) == ReadPath(Some(value), [root]);
    }
    RulesRoute(guard, inputs);
  }

  lemma RulesRoute(guard: Guard, inputs: Inputs)
    requires guard.unproved != []
    ensures var node, at := CheckNode(guard, IdsOf(guard)), FirstFailing(guard.unproved, inputs);
      (match RuleRoute(node.rules, inputs) case Some(t) => t case None => node.fallback) ==
        if at == |guard.unproved| then IdsOf(guard).ok else ViolatedId(IdsOf(guard), at)
  {
    hide ViolatedId;
    var ids, at := IdsOf(guard), FirstFailing(guard.unproved, inputs);
    var node := CheckNode(guard, ids);
    assert AllHold(guard.unproved, inputs) <==> at == |guard.unproved|;
    if at < |guard.unproved| {
      assert node.rules[1..] == FailedRules(guard.unproved, ids);
      FailedRoute(guard, inputs, 0);
      assert FailedRules(guard.unproved, ids)[0..] == FailedRules(guard.unproved, ids);
    }
  }

  /** Of the rules that ask what failed, the first that holds is the first failing rule's; with none, it is the last. */
  lemma {:induction false} FailedRoute(guard: Guard, inputs: Inputs, from: nat)
    requires guard.unproved != [] && from <= FirstFailing(guard.unproved, inputs) < |guard.unproved|
    ensures var ids, at := IdsOf(guard), FirstFailing(guard.unproved, inputs);
      from <= |guard.unproved| - 1 &&
      RuleRoute(FailedRules(guard.unproved, ids)[from..], inputs) ==
        if at < |guard.unproved| - 1 then Some(ViolatedId(ids, at)) else None
    decreases |guard.unproved| - from
  {
    hide ViolatedId, FirstFailing;
    var ids, at := IdsOf(guard), FirstFailing(guard.unproved, inputs);
    var rules := FailedRules(guard.unproved, ids);
    if from < |rules| {
      assert rules[from..][0] == rules[from] && rules[from..][1..] == rules[from + 1..];
      if from < at {
        FailedRoute(guard, inputs, from + 1);
      }
    }
  }

  /** What becomes of the guard's switch, from what becomes of the moved node. */
  lemma CheckFate(w: World, guard: Guard, handlers: GuardHandlers)
    requires Placed(w, guard, handlers) && Lowered(w, guard, handlers).Sound() && guard.arity.One?
    requires IdsOf(guard).made in Lowered(w, guard, handlers).spec.nodes
    ensures IdsOf(guard).check in Lowered(w, guard, handlers).spec.nodes
    ensures var w', ids := Lowered(w, guard, handlers), IdsOf(guard);
      match FateOf(w', ids.made)
      case Ran(value, _) =>
        var at := FirstFailing(guard.unproved, InputsAt(guard, value));
        var to := if at == |guard.unproved| then guard.id else ViolatedId(ids, at);
        FateOf(w', ids.check) == Ran(Str(to), Some(to))
      case Cut => FateOf(w', ids.check).Cut?
      case Broke(_) => FateOf(w', ids.check).Stuck?
      case Stuck => FateOf(w', ids.check).Stuck?
      case Given => true
  {
    hide Standing, Handled, WellFormed, LowerWithOutput, FateOf, WaitsFor, IdsOf, AddedIds, AddedNodes, CheckNode, FirstFailing, FreshIds, RouterOf, CatcherOf, NodeRefs, FatesBefore, RouteOf, ViolatedId;
    StandsAt(w, guard);
    var w', ids := Lowered(w, guard, handlers), IdsOf(guard);
    IdsAreDifferent(guard);
    OwnAreFresh(guard);
    FreshAreUnnamed(w, guard);
    CheckIsAdded(guard, handlers);
    OwnWaits(w, guard, handlers, ids.check);
    RoutersAre(w, guard, handlers, ids.check);
    CatchersAre(w, guard, handlers, ids.made);
    NodesAre(w, guard, handlers, ids.check);
    AddedAre(guard, handlers, ids.check);
    CheckReads(guard);
    WaitsForOne(w', ids.check, ids.made);
    if FateOf(w', ids.made).Ran? {
      var values := FateValues(w', FatesBefore(w', ids.check));
      assert values[ids.made] == FateOf(w', ids.made).value;
      CheckRoute(guard, FateOf(w', ids.made).value, values);
      CheckIsSwitch(guard);
    }
  }

  lemma CheckIsSwitch(guard: Guard)
    requires guard.unproved != []
    ensures CheckNode(guard, IdsOf(guard)).Switch?
  {
  }

  // ---- the value, and the refusals --------------------------------------------------------------

  /** A node its router chose or passed over, that waits besides for one other and whose faults nothing catches. */
  lemma RoutedFate(w: World, id: Id, router: Id, other: Id)
    requires w.Sound() && id in w.spec.nodes && router in w.spec.nodes && other in w.spec.nodes
    requires WaitsFor(w.spec, id) == {other, router} && RouterOf(w.spec, id) == Some(router)
    requires NodeRefs(w.spec.nodes[id]) !! PSEUDO && id !in w.supplied.values && FateOf(w, router).Ran?
    requires CatcherOf(w.spec, other) == None && CatcherOf(w.spec, router) == None
    requires FateOf(w, other).Ran?
    ensures FatesBefore(w, id) == map[other := FateOf(w, other), router := FateOf(w, router)]
    ensures FateOf(w, id) ==
      if FateOf(w, router).selected == Some(id) then Comes(w, id, FateValues(w, FatesBefore(w, id)), {}) else Cut
  {
    hide WellFormed, FateOf, FatesBefore, WaitsFor, Comes, RouterOf, CatcherOf, NodeRefs, FateValues;
    FateIsJudged(w, id);
    var fates := FatesBefore(w, id);
    assert other in fates && router in fates;
    assert fates == map[other := FateOf(w, other), router := FateOf(w, router)];
    assert FateBroke(w, id, fates) == {};
    assert RootsSupplied(w.spec.nodes[id], w.supplied.values);
  }

  /** A routed node whose router did not run comes to nothing: it is cut off with what is, and stuck with what is not. */
  lemma UnroutedFate(w: World, id: Id, router: Id, other: Id)
    requires w.Sound() && id in w.spec.nodes && router in w.spec.nodes && other in w.spec.nodes
    requires WaitsFor(w.spec, id) == {other, router} && RouterOf(w.spec, id) == Some(router)
    requires id !in w.supplied.values && !FateOf(w, router).Ran?
    ensures FateOf(w, id) == if FateOf(w, router).Cut? || FateOf(w, other).Cut? then Cut else Stuck
  {
    hide WellFormed, FateOf, FatesBefore, WaitsFor, Comes, RouterOf, CatcherOf, NodeRefs, FateValues, FateBroke, RootsSupplied, Meets;
    FateIsJudged(w, id);
    var fates := FatesBefore(w, id);
    assert other in fates && router in fates;
  }

  lemma OkComes(w: World, guard: Guard, handlers: GuardHandlers, value: Json, values: Values)
    requires w.Sound() && Standing(w, guard) && Handled(w, guard, handlers) && guard.arity.One?
    requires IdsOf(guard).made in values && values[IdsOf(guard).made] == value
    ensures guard.id in Lowered(w, guard, handlers).spec.nodes
    ensures Comes(Lowered(w, guard, handlers), guard.id, values, {}) == Ran(value, None)
  {
    hide Standing, WellFormed, LowerWithOutput, AddedIds, AddedNodes, FreshIds, IdsOf, Refuses, Nests, Placeless;
    StandsAt(w, guard);
    CheckIsAdded(guard, handlers);
    NodesAre(w, guard, handlers, guard.id);
    AddedAre(guard, handlers, guard.id);
    var made := IdsOf(guard).made;
    var inputs := map["value" := Ref(made, [])];
    assert ReadSource(inputs["value"], values) == Some(value);
    assert "value" in inputs && "value" in ReadAll(inputs, values) && ReadAll(inputs, values)["value"] == value;
    assert OkNode(made, handlers) == Call(handlers.make, inputs, {});
  }

  lemma RefusalComes(w: World, guard: Guard, handlers: GuardHandlers, at: nat, values: Values)
    requires w.Sound() && Standing(w, guard) && Handled(w, guard, handlers) && guard.arity.One? && at < |guard.unproved|
    ensures ViolatedId(IdsOf(guard), at) in Lowered(w, guard, handlers).spec.nodes
    ensures Comes(Lowered(w, guard, handlers), ViolatedId(IdsOf(guard), at), values, {}) ==
      Broke(Refused(INVARIANT, guard.unproved[at].message))
  {
    hide Standing, WellFormed, LowerWithOutput, AddedIds, AddedNodes, FreshIds, IdsOf, Makes, Nests, Placeless, ViolatedId;
    StandsAt(w, guard);
    var id := ViolatedId(IdsOf(guard), at);
    assert IsRefusal(guard, id);
    AddedAre(guard, handlers, id);
    NodesAre(w, guard, handlers, id);
    RefusalIs(guard, handlers, at);
    RefusalInputs(guard.unproved[at], guard.shape, handlers, values);
  }

  lemma RefusalInputs(one: Unproved, shape: string, handlers: GuardHandlers, values: Values)
    ensures var node := ViolatedNode(one, shape, handlers);
      node.Call? && node.handler == handlers.refuse &&
      var inputs := ReadAll(node.inputs, values);
      "reason" in inputs && "message" in inputs && inputs["reason"] == Str(INVARIANT) && inputs["message"] == Str(one.message)
  {
    RefusalIsGiven(one, shape, handlers, values);
  }

  /** The call behind a rule's refusal reads nothing and is given three things: the reason, the rule's message and the shape. */
  lemma RefusalIsGiven(one: Unproved, shape: string, handlers: GuardHandlers, values: Values)
    ensures var node := ViolatedNode(one, shape, handlers);
      node.Call? && node.handler == handlers.refuse && ReadAll(node.inputs, values) ==
        map["reason" := Str("invariant"), "message" := Str(one.message), "type" := Str(shape)]
  {
    var inputs := ViolatedNode(one, shape, handlers).inputs;
    assert "reason" in inputs && ReadSource(inputs["reason"], values) == Some(Str("invariant"));
    assert "message" in inputs && ReadSource(inputs["message"], values) == Some(Str(one.message));
    assert "type" in inputs && ReadSource(inputs["type"], values) == Some(Str(shape));
  }

  lemma MadeIsPlain(w: World, guard: Guard, handlers: GuardHandlers)
    requires Placed(w, guard, handlers) && Lowered(w, guard, handlers).Sound()
    requires IdsOf(guard).made in Lowered(w, guard, handlers).spec.nodes
    ensures var fate := FateOf(Lowered(w, guard, handlers), IdsOf(guard).made);
      !fate.Given? && (fate.Ran? ==> fate.selected.None?)
  {
    hide Standing, Handled, WellFormed, LowerWithOutput, FateOf, IdsOf, AddedIds, AddedNodes, FreshIds, TargetsOf;
    StandsAt(w, guard);
    OwnAreFresh(guard);
    FreshAreUnnamed(w, guard);
    var w', made := Lowered(w, guard, handlers), IdsOf(guard).made;
    NodesAre(w, guard, handlers, made);
    GivenIsSupplied(w', made);
    FateSelects(w', made);
  }

  /** What the guard of one value lets through, from what becomes of the moved node. */
  lemma OkFate(w: World, guard: Guard, handlers: GuardHandlers)
    requires Placed(w, guard, handlers) && Lowered(w, guard, handlers).Sound() && guard.arity.One?
    requires IdsOf(guard).made in Lowered(w, guard, handlers).spec.nodes
    ensures guard.id in Lowered(w, guard, handlers).spec.nodes
    ensures var w' := Lowered(w, guard, handlers);
      match FateOf(w', IdsOf(guard).made)
      case Ran(value, _) => FateOf(w', guard.id) == if Verdict(guard, value).Answer? then Ran(value, None) else Cut
      case Cut => FateOf(w', guard.id).Cut?
      case _ => FateOf(w', guard.id).Stuck?
  {
    hide Standing, Handled, WellFormed, LowerWithOutput, FateOf, WaitsFor, IdsOf, AddedIds, AddedNodes, FirstFailing, FreshIds, RouterOf, CatcherOf, NodeRefs, FatesBefore, Comes, ViolatedId, OkNode, CheckNode;
    StandsAt(w, guard);
    var w', ids := Lowered(w, guard, handlers), IdsOf(guard);
    IdsAreDifferent(guard);
    OwnAreFresh(guard);
    FreshAreUnnamed(w, guard);
    CheckIsAdded(guard, handlers);
    OwnWaits(w, guard, handlers, guard.id);
    RoutersAre(w, guard, handlers, guard.id);
    CatchersAre(w, guard, handlers, ids.made);
    CatchersAre(w, guard, handlers, ids.check);
    NodesAre(w, guard, handlers, guard.id);
    AddedAre(guard, handlers, guard.id);
    OkReads(guard, handlers);
    MadeIsPlain(w, guard, handlers);
    CheckFate(w, guard, handlers);
    if FateOf(w', ids.made).Ran? {
      RoutedFate(w', guard.id, ids.check, ids.made);
      var value, values := FateOf(w', ids.made).value, FateValues(w', FatesBefore(w', guard.id));
      assert values[ids.made] == value;
      OkComes(w, guard, handlers, value, values);
      RefusalsAreOthers(guard, FirstFailing(guard.unproved, InputsAt(guard, value)));
    } else {
      UnroutedFate(w', guard.id, ids.check, ids.made);
    }
  }

  lemma RefusalsAreOthers(guard: Guard, at: nat)
    requires guard.kind.Made?
    ensures ViolatedId(IdsOf(guard), at) != guard.id
  {
    IdsDiffer(guard, at);
  }

  /** What becomes of a refusal: it refuses if its rule is the first that fails of a value that was made. */
  lemma RefusalFate(w: World, guard: Guard, handlers: GuardHandlers, at: nat)
    requires Placed(w, guard, handlers) && Lowered(w, guard, handlers).Sound() && guard.arity.One? && at < |guard.unproved|
    requires IdsOf(guard).made in Lowered(w, guard, handlers).spec.nodes
    ensures ViolatedId(IdsOf(guard), at) in Lowered(w, guard, handlers).spec.nodes
    ensures var w', id := Lowered(w, guard, handlers), ViolatedId(IdsOf(guard), at);
      match FateOf(w', IdsOf(guard).made)
      case Ran(value, _) =>
        FateOf(w', id) ==
          if FirstFailing(guard.unproved, InputsAt(guard, value)) == at then Broke(Refused(INVARIANT, guard.unproved[at].message))
          else Cut
      case _ => FateOf(w', id).Cut? || FateOf(w', id).Stuck?
  {
    hide Standing, Handled, WellFormed, LowerWithOutput, FateOf, WaitsFor, IdsOf, AddedIds, AddedNodes, FirstFailing, FreshIds, RouterOf, CatcherOf, NodeRefs, FatesBefore, Comes, ViolatedId, OkNode, CheckNode, ViolatedNode, FateValues;
    StandsAt(w, guard);
    var w', ids, id := Lowered(w, guard, handlers), IdsOf(guard), ViolatedId(IdsOf(guard), at);
    assert IsRefusal(guard, id);
    RefusalIsFresh(w, guard, id);
    OwnAreFresh(guard);
    FreshAreUnnamed(w, guard);
    AddedAre(guard, handlers, id);
    OwnWaits(w, guard, handlers, id);
    RoutersAre(w, guard, handlers, id);
    CatchersAre(w, guard, handlers, ids.check);
    NodesAre(w, guard, handlers, id);
    RefusalIs(guard, handlers, at);
    RefusalReads(guard.unproved[at], guard.shape, handlers);
    MadeIsPlain(w, guard, handlers);
    CheckFate(w, guard, handlers);
    assert {ids.check, ids.check} == {ids.check};
    if FateOf(w', ids.made).Ran? {
      RoutedFate(w', id, ids.check, ids.check);
      RefusalComes(w, guard, handlers, at, FateValues(w', FatesBefore(w', id)));
      var first := FirstFailing(guard.unproved, InputsAt(guard, FateOf(w', ids.made).value));
      RefusalsAreOthers(guard, at);
      if first != at && ViolatedId(ids, first) == id {
        ViolatedDiffer(ids, first, at);
      }
    } else {
      UnroutedFate(w', id, ids.check, ids.check);
    }
  }

  // ---- a list -----------------------------------------------------------------------------------

  lemma ElementVerdict(w: World, guard: Guard, id: Id, from: Id, i: nat, item: Json)
    requires Nests(w.handlers, guard.nested, guard) && (id, i) !in w.supplied.elements
    ensures ElementResult(GuardMap(from, guard.nested), w.handlers, id, i, map[], item, w.supplied.elements) ==
      MapPool.Done(Verdict(guard, item))
  {
    hide Verdict;
    var bind: map<string, Path> := map["in" := []];
    assert "in" in bind && ReadPath(Some(item), bind["in"]) == Some(item);
    assert ElementInputs(Some(bind), map[], item)["in"] == item;
  }

  lemma {:induction false} AllAnswered(results: seq<MapPool.Result>, items: seq<Json>)
    requires |results| == |items| && forall i :: 0 <= i < |items| ==> results[i] == MapPool.Done(Answer(items[i]))
    ensures MapPool.ShownAll(results, false) == items
  {
    if items != [] {
      AllAnswered(results[1..], items[1..]);
    }
  }

  /** An outcome is the verdict on the first element that is refused. */
  ghost predicate FirstRefusal(guard: Guard, items: seq<Json>, outcome: Outcome) {
    exists i :: 0 <= i < |items| && outcome.Refused? && outcome == Verdict(guard, items[i]) && AllPass(guard, items[..i])
  }

  predicate AllPass(guard: Guard, items: seq<Json>) {
    forall i :: 0 <= i < |items| ==> Verdict(guard, items[i]).Answer?
  }

  /** A list's guard answers the list where every element's verdict is itself, else refuses as the first that is not. */
  lemma ListOutcome(w: World, guard: Guard, id: Id, from: Id, values: Values)
    requires Nests(w.handlers, guard.nested, guard) && guard.arity.Many? && from in values
    requires forall i: nat :: (id, i) !in w.supplied.elements
    ensures var outcome := NodeOutcome(GuardMap(from, guard.nested), w.handlers, id, values, w.supplied.elements);
      if Holds(guard, values[from]) then outcome == Answer(values[from])
      else !outcome.Answer? && (values[from].Arr? ==> FirstRefusal(guard, values[from].items, outcome))
  {
    hide FirstFailing, ElementResult, Nests;
    var value := values[from];
    var node := GuardMap(from, guard.nested);
    assert ReadAll(map[], values) == map[];
    if value.Arr? {
      var site := SiteOf(node, w.handlers, id, map[], value.items, w.supplied.elements);
      forall i | 0 <= i < |value.items| ensures site.own[i] == MapPool.Done(Verdict(guard, value.items[i])) {
        ElementVerdict(w, guard, id, from, i, value.items[i]);
      }
      var first := MapPool.FirstDeciding(site.own, false, 0);
      if first.None? {
        assert forall i :: 0 <= i < |value.items| ==> !MapPool.Decides(site.own[i], false);
        assert forall value :: Verdict(guard, value).Answer? ==> Verdict(guard, value) == Answer(value);
        AllAnswered(site.own, value.items);
      } else {
        var i := first.value;
        assert MapPool.Decides(site.own[i], false);
        forall j | 0 <= j < i ensures Verdict(guard, value.items[j]).Answer? {
          assert !MapPool.Decides(site.own[j], false);
        }
        assert AllPass(guard, value.items[..i]);
      }
    }
  }

  lemma HandledNests(w: World, guard: Guard, handlers: GuardHandlers)
    requires Handled(w, guard, handlers) && guard.arity.Many?
    ensures Nests(w.handlers, guard.nested, guard)
  {
    hide FreshIds, Makes, Refuses, Nests, Placeless;
  }

  /** What a list's guard lets through, from what becomes of the moved node. */
  lemma ManyFate(w: World, guard: Guard, handlers: GuardHandlers)
    requires Placed(w, guard, handlers) && Lowered(w, guard, handlers).Sound() && guard.arity.Many?
    requires IdsOf(guard).made in Lowered(w, guard, handlers).spec.nodes
    ensures guard.id in Lowered(w, guard, handlers).spec.nodes
    ensures var w' := Lowered(w, guard, handlers);
      match FateOf(w', IdsOf(guard).made)
      case Ran(value, _) =>
        if Holds(guard, value) then FateOf(w', guard.id) == Ran(value, None)
        else
          FateOf(w', guard.id).Broke? &&
          (value.Arr? ==> FirstRefusal(guard, value.items, FateOf(w', guard.id).failure))
      case Cut => FateOf(w', guard.id).Cut?
      case _ => FateOf(w', guard.id).Stuck?
  {
    hide Standing, Handled, WellFormed, LowerWithOutput, FateOf, WaitsFor, IdsOf, AddedIds, AddedNodes, FreshIds, RouterOf, CatcherOf, NodeRefs, FatesBefore, Verdict, NodeOutcome, Holds;
    StandsAt(w, guard);
    var w', ids := Lowered(w, guard, handlers), IdsOf(guard);
    OwnAreFresh(guard);
    FreshAreUnnamed(w, guard);
    CheckIsAdded(guard, handlers);
    OwnWaits(w, guard, handlers, guard.id);
    RoutersAre(w, guard, handlers, guard.id);
    CatchersAre(w, guard, handlers, ids.made);
    NodesAre(w, guard, handlers, guard.id);
    AddedAre(guard, handlers, guard.id);
    OkReads(guard, handlers);
    MadeIsPlain(w, guard, handlers);
    WaitsForOne(w', guard.id, ids.made);
    if FateOf(w', ids.made).Ran? {
      var values := FateValues(w', FatesBefore(w', guard.id));
      assert values[ids.made] == FateOf(w', ids.made).value;
      forall i: nat ensures (guard.id, i) !in w.supplied.elements {
        ElementsUnseeded(w, guard, handlers, guard.id, i);
      }
      HandledNests(w, guard, handlers);
      ListOutcome(w, guard, guard.id, ids.made, values);
    }
  }
}
