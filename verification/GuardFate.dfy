/** What becomes of the nodes of a spec once one of its values is guarded: of those that were there, and of the moved one. */
module GuardFates {
  import opened Json
  import opened Sources
  import opened Outcomes
  import opened KernelSpec
  import opened Fates
  import opened Guards
  import opened GuardSites
  import opened GuardWaits
  import opened Steps
  import MapPool

  // ---- what a guard is lowered for --------------------------------------------------------------

  /** The fields a rule is tried on, read off the value. */
  function InputsAt(guard: Guard, value: Json): Inputs {
    map root | root in guard.roots && ReadPath(Some(value), [root]).Some? :: ReadPath(Some(value), [root]).value
  }

  function FirstFailing(unproved: seq<Unproved>, inputs: Inputs): (at: nat)
    ensures at <= |unproved|
    ensures at < |unproved| ==> !unproved[at].holds(inputs)
    ensures forall i :: 0 <= i < at ==> unproved[i].holds(inputs)
    decreases |unproved|
  {
    if unproved == [] || !unproved[0].holds(inputs) then 0
    else
      var rest := FirstFailing(unproved[1..], inputs);
      assert forall i :: 0 < i < rest + 1 ==> unproved[i] == unproved[1..][i - 1];
      rest + 1
  }

  /** What a value is to come to: itself where every rule holds of it, else the refusal of the first that does not. */
  function Verdict(guard: Guard, value: Json): Outcome {
    var at := FirstFailing(guard.unproved, InputsAt(guard, value));
    if at == |guard.unproved| then Answer(value) else Refused(INVARIANT, guard.unproved[at].message)
  }

  /** Every rule holds of a value, or of every element of it where the site holds a list. */
  predicate Holds(guard: Guard, value: Json) {
    if guard.arity.One? then Verdict(guard, value).Answer?
    else value.Arr? && forall i :: 0 <= i < |value.items| ==> Verdict(guard, value.items[i]).Answer?
  }

  /** The handler behind `make` answers its value. */
  ghost predicate Makes(h: Handlers, name: string) {
    name in h && forall p: seq<string>, i: Inputs :: "value" in i ==> h[name](p, i) == Answer(i["value"])
  }

  /** The handler behind `refuse` refuses with the reason and the message it is given. */
  ghost predicate Refuses(h: Handlers, name: string) {
    name in h && forall p: seq<string>, i: Inputs ::
      "reason" in i && "message" in i && i["reason"].Str? && i["message"].Str? ==>
        h[name](p, i) == Refused(i["reason"].s, i["message"].s)
  }

  /** The handler a list site's elements run through comes to each element's verdict. */
  ghost predicate Nests(h: Handlers, name: string, guard: Guard) {
    name in h && forall p: seq<string>, i: Inputs :: "in" in i ==> h[name](p, i) == Verdict(guard, i["in"])
  }

  /** A handler does not heed where it runs. */
  ghost predicate Placeless(h: Handlers, name: string) {
    name in h ==> forall p: seq<string>, p': seq<string>, i: Inputs :: h[name](p, i) == h[name](p', i)
  }

  /** What the compiler's own handlers do, that the guarded node's heeds not where it runs, and that none of it is replayed. */
  ghost predicate Handled(w: World, guard: Guard, handlers: GuardHandlers) {
    Makes(w.handlers, handlers.make) && Refuses(w.handlers, handlers.refuse) &&
    (guard.arity.Many? ==> Nests(w.handlers, guard.nested, guard)) &&
    (forall name :: RunsBy(w.spec, guard.id, name) ==> Placeless(w.handlers, name)) &&
    (forall key {:trigger key in w.supplied.elements} :: key in w.supplied.elements ==> key.0 != guard.id && key.0 !in FreshIds(guard))
  }

  predicate RunsBy(spec: Spec, id: Id, name: string) {
    id in spec.nodes &&
    match spec.nodes[id]
    case Call(handler, _, _) => handler == name
    case Map(each, _, _, _, _, _, _, _, _) => each == Some(name)
    case _ => false
  }

  /** A guard that can be lowered at its site. */
  ghost predicate Placed(w: World, guard: Guard, handlers: GuardHandlers) {
    w.Sound() && Standing(w, guard) && Handled(w, guard, handlers)
  }

  /** A switch that ran and chose a node. */
  predicate Chose(w: World, id: Id, to: Id)
    requires w.Ranks() && id in w.spec.nodes
  {
    FateOf(w, id).Ran? && FateOf(w, id).selected == Some(to)
  }

  /** No node reads a node, and no candidate is it. */
  ghost predicate Unread(spec: Spec, id: Id) {
    (forall n :: n in spec.nodes ==> id !in NodeRefs(spec.nodes[n])) && (spec.output.Some? ==> id !in spec.output.value)
  }

  /** A list site whose fault some switch catches answers lists. */
  ghost predicate MakesLists(w: World, guard: Guard)
    requires w.Ranks() && guard.id in w.spec.nodes
  {
    guard.arity.Many? && CatcherOf(w.spec, guard.id).Some? && FateOf(w, guard.id).Ran? ==> FateOf(w, guard.id).value.Arr?
  }

  /** What a switch that chose the guarded node answers, which is the name of its choice, is read by none. */
  ghost predicate Clear(w: World, guard: Guard)
    requires w.Ranks() && guard.id in w.spec.nodes
  {
    (forall r {:trigger Chose(w, r, guard.id)} :: r in w.spec.nodes && Chose(w, r, guard.id) ==> Unread(w.spec, r)) &&
    MakesLists(w, guard)
  }

  /** A guard that can be lowered where nobody notices the moved node's name. */
  ghost predicate Guardable(w: World, guard: Guard, handlers: GuardHandlers) {
    Placed(w, guard, handlers) && Clear(w, guard)
  }

  // ---- how fates correspond ---------------------------------------------------------------------

  /** A switch that routed to the guarded node routes to where it moved; nothing else is changed. */
  function MovedFate(guard: Guard, fate: Fate): Fate {
    if fate.Ran? && fate.selected == Some(guard.id) then Ran(Str(IdsOf(guard).made), Some(IdsOf(guard).made)) else fate
  }

  /** The guard stands for the node: what it answered, the guard answers; what broke the run, breaks it before. */
  predicate StandsForNode(fate: Fate, fate': Fate) {
    (fate == fate' && !fate.Given?) || (fate.Broke? && (fate'.Stuck? || fate'.Broke?))
  }

  /** A fault of the guarded node that a switch catches: it is the moved node's now, and nothing catches that. */
  predicate LosesCatch(w: World, guard: Guard, fate: Fate) {
    fate.Broke? && CatcherOf(w.spec, guard.id).Some?
  }

  ghost predicate Match(w: World, guard: Guard, fates: map<Id, Fate>, fates': map<Id, Fate>) {
    fates'.Keys == fates.Keys &&
    forall d :: d in fates ==>
      if d == guard.id then StandsForNode(fates[d], fates'[d]) && !LosesCatch(w, guard, fates[d])
      else fates'[d] == MovedFate(guard, fates[d])
  }

  /** Only a switch selects, and what it selects is one of its targets. */
  ghost predicate Selecting(w: World, fates: map<Id, Fate>) {
    forall d {:trigger d in fates} {:trigger fates[d]} :: d in fates && fates[d].Ran? && fates[d].selected.Some? ==>
      d in w.spec.nodes && RoutesTo(w.spec.nodes[d], fates[d].selected.value)
  }

  lemma ComesSelects(w: World, id: Id, values: Values, broke: set<Id>)
    requires id in w.spec.nodes
    ensures var fate := Comes(w, id, values, broke);
      fate.Ran? && fate.selected.Some? ==> RoutesTo(w.spec.nodes[id], fate.selected.value)
  {
    hide RouteOf, TargetsOf, NodeOutcome;
    if w.spec.nodes[id].Switch? {
      RouteIsTarget(w.spec.nodes[id], values, broke);
    }
  }

  lemma FateSelects(w: World, id: Id)
    requires w.Sound() && id in w.spec.nodes
    ensures var fate := FateOf(w, id);
      fate.Ran? && fate.selected.Some? ==> RoutesTo(w.spec.nodes[id], fate.selected.value)
  {
    hide FateOf, FatesBefore, WellFormed, IsCut, Runs, Comes, RoutesTo, FateValues, FateBroke, WaitsFor;
    FateIsJudged(w, id);
    ComesSelects(w, id, FateValues(w, FatesBefore(w, id)), FateBroke(w, id, FatesBefore(w, id)));
  }

  lemma FatesSelect(w: World, id: Id)
    requires w.Sound() && id in w.spec.nodes
    ensures Selecting(w, FatesBefore(w, id)) && FatesBefore(w, id).Keys == WaitsFor(w.spec, id)
  {
    hide FateOf, FatesBefore, WellFormed, Judge, RoutesTo, WaitsFor;
    FateIsJudged(w, id);
    forall d | d in FatesBefore(w, id) && FatesBefore(w, id)[d].Ran? && FatesBefore(w, id)[d].selected.Some?
      ensures d in w.spec.nodes && RoutesTo(w.spec.nodes[d], FatesBefore(w, id)[d].selected.value)
    {
      FateSelects(w, d);
    }
  }

  // ---- what was there ---------------------------------------------------------------------------

  lemma ThereCut(w: World, guard: Guard, handlers: GuardHandlers, id: Id, fates: map<Id, Fate>, fates': map<Id, Fate>)
    requires w.Sound() && Standing(w, guard) && id in w.spec.nodes && id != guard.id && Match(w, guard, fates, fates')
    requires Selecting(w, fates)
    ensures var w' := Lowered(w, guard, handlers);
      (IsCut(w', id, fates') <==> IsCut(w, id, fates)) && (IsChosen(w', id, fates') <==> IsChosen(w, id, fates))
  {
    hide Standing, WellFormed, Lowered, RouterOf, IdsOf, RoutesTo;
    StandsAt(w, guard);
    RoutersAre(w, guard, handlers, id);
    OwnAreFresh(guard);
    FreshAreUnnamed(w, guard);
    assert forall d :: d in fates ==> (fates'[d].Cut? <==> fates[d].Cut?);
    var router := RouterOf(w.spec, id);
    if router.Some? {
      RoutersRoute(w.spec, id);
    }
  }

  lemma ThereMeets(w: World, guard: Guard, handlers: GuardHandlers, id: Id, fates: map<Id, Fate>, fates': map<Id, Fate>)
    requires w.Sound() && Standing(w, guard) && Match(w, guard, fates, fates')
    ensures var spec := Lowered(w, guard, handlers).spec;
      (forall d :: d in fates' ==> Meets(spec, id, d, fates'[d])) <==> (forall d :: d in fates ==> Meets(w.spec, id, d, fates[d]))
  {
    hide Standing, WellFormed, Lowered, CatcherOf, IdsOf;
    StandsAt(w, guard);
    var spec := Lowered(w, guard, handlers).spec;
    forall d | d in fates ensures Meets(spec, id, d, fates'[d]) <==> Meets(w.spec, id, d, fates[d]) {
      CatchersAre(w, guard, handlers, d);
    }
  }

  lemma ThereRoots(w: World, guard: Guard, handlers: GuardHandlers, id: Id)
    requires w.Sound() && Standing(w, guard) && id in w.spec.nodes && id != guard.id
    ensures id in Lowered(w, guard, handlers).spec.nodes
    ensures NodeRefs(Lowered(w, guard, handlers).spec.nodes[id]) == NodeRefs(w.spec.nodes[id])
  {
    hide Standing, WellFormed, Lowered, IdsOf, NodeRefs, Rerouted, AddedNodes, AddedIds;
    StandsAt(w, guard);
    NodesAre(w, guard, handlers, id);
    SentReads(w.spec.nodes[id], guard.id, IdsOf(guard).made);
  }

  lemma ThereRuns(w: World, guard: Guard, handlers: GuardHandlers, id: Id, fates: map<Id, Fate>, fates': map<Id, Fate>)
    requires w.Sound() && Standing(w, guard) && id in w.spec.nodes && id != guard.id && Match(w, guard, fates, fates')
    requires Selecting(w, fates)
    ensures id in Lowered(w, guard, handlers).spec.nodes
    ensures Runs(Lowered(w, guard, handlers), id, fates') <==> Runs(w, id, fates)
  {
    hide Standing, WellFormed, LowerWithOutput, Meets, IsChosen, IsCut, NodeRefs, Match, Selecting;
    StandsAt(w, guard);
    ThereRoots(w, guard, handlers, id);
    ThereCut(w, guard, handlers, id, fates, fates');
    ThereMeets(w, guard, handlers, id, fates, fates');
  }

  lemma ThereBroke(w: World, guard: Guard, handlers: GuardHandlers, id: Id, fates: map<Id, Fate>, fates': map<Id, Fate>)
    requires w.Sound() && Standing(w, guard) && id in w.spec.nodes && Match(w, guard, fates, fates')
    ensures FateBroke(Lowered(w, guard, handlers), id, fates') == FateBroke(w, id, fates)
  {
    hide Standing, WellFormed, Lowered, CatcherOf, IdsOf;
    StandsAt(w, guard);
    forall d | d in fates
      ensures d in FateBroke(Lowered(w, guard, handlers), id, fates') <==> d in FateBroke(w, id, fates)
    {
      CatchersAre(w, guard, handlers, d);
    }
  }

  /** A node reads no switch that chose the guarded node. */
  ghost predicate ReadsNoChoice(w: World, guard: Guard, id: Id, fates: map<Id, Fate>)
    requires id in w.spec.nodes
  {
    forall r :: r in fates && fates[r].Ran? && fates[r].selected == Some(guard.id) ==> r !in NodeRefs(w.spec.nodes[id])
  }

  lemma ClearReads(w: World, guard: Guard, id: Id)
    requires w.Sound() && guard.id in w.spec.nodes && Clear(w, guard) && id in w.spec.nodes
    ensures ReadsNoChoice(w, guard, id, FatesBefore(w, id))
  {
    hide WellFormed, FateOf, FatesBefore, Judge, WaitsFor, NodeRefs, MakesLists;
    FateIsJudged(w, id);
    forall r | r in FatesBefore(w, id) && FatesBefore(w, id)[r].Ran? && FatesBefore(w, id)[r].selected == Some(guard.id)
      ensures r !in NodeRefs(w.spec.nodes[id])
    {
      assert Chose(w, r, guard.id);
    }
  }

  /** A node that reads no name of a branch that was renamed reads the values it read. */
  lemma ThereValues(w: World, guard: Guard, handlers: GuardHandlers, id: Id, fates: map<Id, Fate>, fates': map<Id, Fate>)
    requires w.Sound() && Standing(w, guard) && id in w.spec.nodes && Match(w, guard, fates, fates')
    requires ReadsNoChoice(w, guard, id, fates)
    ensures AgreeOn(NodeRefs(w.spec.nodes[id]), FateValues(w, fates), FateValues(Lowered(w, guard, handlers), fates'))
  {
    hide Standing, WellFormed, LowerWithOutput, NodeRefs, IdsOf, RoutesTo;
    StandsAt(w, guard);
    var w' := Lowered(w, guard, handlers);
    forall ref | ref in NodeRefs(w.spec.nodes[id])
      ensures Lookup(FateValues(w, fates), ref) == Lookup(FateValues(w', fates'), ref)
    {
    }
  }

  lemma {:induction false} RuleRouteSent(rules: seq<Rule>, inputs: Inputs, from: Id, to: Id)
    ensures RuleRoute(SentRules(rules, from, to), inputs) ==
      match RuleRoute(rules, inputs) case Some(t) => Some(Sent(t, from, to)) case None => None
    decreases |rules|
  {
    if rules != [] {
      assert SentRules(rules, from, to)[1..] == SentRules(rules[1..], from, to);
      RuleRouteSent(rules[1..], inputs, from, to);
    }
  }

  lemma {:induction false} CaughtRouteSent(catches: seq<(Id, Id)>, broke: set<Id>, from: Id, to: Id)
    ensures CaughtRoute(SentCatches(catches, from, to), broke) ==
      match CaughtRoute(catches, broke) case Some(t) => Some(Sent(t, from, to)) case None => None
    decreases |catches|
  {
    if catches != [] {
      assert SentCatches(catches, from, to)[1..] == SentCatches(catches[1..], from, to);
      CaughtRouteSent(catches[1..], broke, from, to);
    }
  }

  lemma RouteSent(node: Node, values: Values, broke: set<Id>, from: Id, to: Id)
    requires node.Switch?
    ensures RouteOf(Rerouted(node, from, to), values, broke) == Sent(RouteOf(node, values, broke), from, to)
  {
    hide SentRules, SentCatches, CaughtRoute, RuleRoute;
    CaughtRouteSent(node.catches, broke, from, to);
    RuleRouteSent(node.rules, ReadAll(node.inputs, values), from, to);
  }

  /** Over the same values a node that was there comes to what it came to, but that it routes where the node moved. */
  lemma ThereComes(w: World, guard: Guard, handlers: GuardHandlers, id: Id, values: Values, broke: set<Id>)
    requires w.Sound() && Standing(w, guard) && id in w.spec.nodes && id != guard.id
    ensures id in Lowered(w, guard, handlers).spec.nodes
    ensures Comes(Lowered(w, guard, handlers), id, values, broke) == MovedFate(guard, Comes(w, id, values, broke))
  {
    hide Standing, WellFormed, LowerWithOutput, RouteOf, NodeOutcome, IdsOf, AddedIds, AddedNodes;
    StandsAt(w, guard);
    NodesAre(w, guard, handlers, id);
    if w.spec.nodes[id].Switch? {
      RouteSent(w.spec.nodes[id], values, broke, guard.id, IdsOf(guard).made);
    }
  }

  lemma ThereJudge(w: World, guard: Guard, handlers: GuardHandlers, id: Id, fates: map<Id, Fate>, fates': map<Id, Fate>)
    requires w.Sound() && Standing(w, guard) && id in w.spec.nodes && id != guard.id && Match(w, guard, fates, fates')
    requires Selecting(w, fates) && ReadsNoChoice(w, guard, id, fates)
    ensures id in Lowered(w, guard, handlers).spec.nodes
    ensures Judge(Lowered(w, guard, handlers), id, fates') == MovedFate(guard, Judge(w, id, fates))
  {
    hide Standing, WellFormed, LowerWithOutput, IdsOf, Comes, IsCut, Runs, Match, Selecting, ReadsNoChoice, FateValues, FateBroke, NodeRefs, AgreeOn;
    StandsAt(w, guard);
    var w' := Lowered(w, guard, handlers);
    ThereCut(w, guard, handlers, id, fates, fates');
    ThereRuns(w, guard, handlers, id, fates, fates');
    ThereValues(w, guard, handlers, id, fates, fates');
    ThereBroke(w, guard, handlers, id, fates, fates');
    ThereComes(w, guard, handlers, id, FateValues(w', fates'), FateBroke(w, id, fates));
    ComesAlike(w, id, FateValues(w, fates), FateValues(w', fates'), FateBroke(w, id, fates));
  }

  /**
   * What was there comes to what it came to, but that its switches route where the guarded node moved: everything
   * that node may wait for, and everything there is where the guard stands for the node.
   */
  lemma {:induction false} ThereFate(w: World, guard: Guard, handlers: GuardHandlers, id: Id)
    requires w.Sound() && Standing(w, guard) && Clear(w, guard) && Lowered(w, guard, handlers).Sound()
    requires id in w.spec.nodes && id != guard.id
    requires w.rank[id] <= w.rank[guard.id] ||
      (guard.id in Lowered(w, guard, handlers).spec.nodes &&
       StandsForNode(FateOf(w, guard.id), FateOf(Lowered(w, guard, handlers), guard.id)) &&
       !LosesCatch(w, guard, FateOf(w, guard.id)))
    ensures id in Lowered(w, guard, handlers).spec.nodes
    ensures FateOf(Lowered(w, guard, handlers), id) == MovedFate(guard, FateOf(w, id))
    decreases w.rank[id]
  {
    hide Standing, Clear, WellFormed, Lowered, FateOf, FatesBefore, Judge, WaitsFor, MovedFate, StandsForNode, LosesCatch, Selecting, ReadsNoChoice;
    StandsAt(w, guard);
    ClearReads(w, guard, id);
    var w' := Lowered(w, guard, handlers);
    ThereWaits(w, guard, handlers, id);
    FateIsJudged(w, id);
    FateIsJudged(w', id);
    FatesSelect(w, id);
    WaitsComeBefore(w, id);
    forall d | d in FatesBefore(w, id)
      ensures if d == guard.id then
          StandsForNode(FatesBefore(w, id)[d], FatesBefore(w', id)[d]) && !LosesCatch(w, guard, FatesBefore(w, id)[d])
        else FatesBefore(w', id)[d] == MovedFate(guard, FatesBefore(w, id)[d])
    {
      if d != guard.id {
        ThereFate(w, guard, handlers, d);
      }
    }
    ThereJudge(w, guard, handlers, id, FatesBefore(w, id), FatesBefore(w', id));
  }
}
