/**
 * What a spec means: one evaluation of its nodes in dependency order, with no scheduler, no time and no interleaving.
 * Every run is held against it.
 */
module Fates {
  import opened Json
  import opened Sources
  import opened Outcomes
  import opened KernelSpec

  /** A spec, an order its nodes can be evaluated in, the handlers it runs, and what it is supplied. */
  datatype World = World(spec: Spec, rank: Rank, handlers: Handlers, supplied: Supplied) {
    ghost predicate Sound() {
      Ranks() && WellFormed(spec, rank)
    }

    predicate Ranks() {
      rank.Keys == spec.nodes.Keys
    }
  }

  /**
   * What becomes of a node: its value was given, it ran (a switch selecting a target), it broke or refused, it was
   * cut off by a route not taken, or it waits for what never comes.
   */
  datatype Fate = Given | Ran(value: Json, selected: Option<Id>) | Broke(failure: Outcome) | Cut | Stuck

  /** What a node leaves of a dependency it waits for: an answer, or a fault that it catches. */
  predicate Meets(spec: Spec, id: Id, d: Id, fate: Fate) {
    fate.Given? || fate.Ran? || (fate.Broke? && fate.failure.Fault? && CatcherOf(spec, d) == Some(id))
  }

  predicate RootsSupplied(node: Node, values: Values) {
    forall ref {:trigger ref in NodeRefs(node)} :: ref in NodeRefs(node) && ref in PSEUDO ==> ref in values
  }

  /** What a node that runs comes to, over the values it reads and the faults it caught. */
  function Comes(w: World, id: Id, values: Values, broke: set<Id>): (fate: Fate)
    requires id in w.spec.nodes
    ensures fate.Ran? || (fate.Broke? && !fate.failure.Answer?)
  {
    var node := w.spec.nodes[id];
    if node.Switch? then
      var to := RouteOf(node, values, broke);
      Ran(Str(to), Some(to))
    else
      match NodeOutcome(node, w.handlers, id, values, w.supplied.elements)
      case Answer(value) => Ran(value, None)
      case failure => Broke(failure)
  }

  /** The values a node reads: what was supplied, and what the nodes it waits for answered. */
  function FateValues(w: World, fates: map<Id, Fate>): Values {
    w.supplied.values + map d | d in fates && fates[d].Ran? :: fates[d].value
  }

  /** The faults a switch catches. */
  function FateBroke(w: World, id: Id, fates: map<Id, Fate>): set<Id> {
    set d | d in fates && fates[d].Broke? && fates[d].failure.Fault? && CatcherOf(w.spec, d) == Some(id)
  }

  predicate IsPassedOver(w: World, id: Id, fates: map<Id, Fate>) {
    var router := RouterOf(w.spec, id);
    router.Some? && router.value in fates && fates[router.value].Ran? && fates[router.value].selected != Some(id)
  }

  /** Cut off: something it waits for is, or the switch that routes it took another way. */
  predicate IsCut(w: World, id: Id, fates: map<Id, Fate>) {
    (exists d :: d in fates && fates[d].Cut?) || IsPassedOver(w, id, fates)
  }

  /** The switch that routes a node, if one does, chose it. */
  predicate IsChosen(w: World, id: Id, fates: map<Id, Fate>) {
    var router := RouterOf(w.spec, id);
    router.Some? ==> router.value in fates && fates[router.value].Ran? && fates[router.value].selected == Some(id)
  }

  /** Everything it waits for left what it needs, its router chose it, and every root it reads is supplied. */
  predicate Runs(w: World, id: Id, fates: map<Id, Fate>)
    requires id in w.spec.nodes
  {
    (forall d :: d in fates ==> Meets(w.spec, id, d, fates[d])) && IsChosen(w, id, fates) &&
    RootsSupplied(w.spec.nodes[id], w.supplied.values)
  }

  function Judge(w: World, id: Id, fates: map<Id, Fate>): Fate
    requires id in w.spec.nodes
  {
    if id in w.supplied.values then Given
    else if IsCut(w, id, fates) then Cut
    else if Runs(w, id, fates) then Comes(w, id, FateValues(w, fates), FateBroke(w, id, fates))
    else Stuck
  }

  /** What becomes of a node: its value is the one supplied, or it is evaluated. */
  function FateOf(w: World, id: Id): Fate
    requires w.Ranks() && id in w.spec.nodes
    decreases w.rank[id], 2
  {
    if id in w.supplied.values then Given else Evaluated(w, id)
  }

  /** A node evaluated. It stands two calls below `FateOf`, so that a fate can be spoken of without unfolding it. */
  function Evaluated(w: World, id: Id): (fate: Fate)
    requires w.Ranks() && id in w.spec.nodes && id !in w.supplied.values
    ensures !fate.Given?
    decreases w.rank[id], 1
  {
    EvaluatedBelow(w, id)
  }

  /** A node evaluated, from what becomes of those it waits for, which all come before it. */
  function EvaluatedBelow(w: World, id: Id): (fate: Fate)
    requires w.Ranks() && id in w.spec.nodes && id !in w.supplied.values
    ensures !fate.Given?
    decreases w.rank[id], 0
  {
    hide WaitsFor, IsCut, Runs;
    Judge(w, id, map d | d in WaitsFor(w.spec, id) && d in w.spec.nodes && w.rank[d] < w.rank[id] :: FateOf(w, d))
  }

  function FatesBefore(w: World, id: Id): map<Id, Fate>
    requires w.Ranks() && id in w.spec.nodes
  {
    hide WaitsFor, FateOf;
    map d | d in WaitsFor(w.spec, id) && d in w.spec.nodes :: FateOf(w, d)
  }

  lemma FateIsJudged(w: World, id: Id)
    requires w.Sound() && id in w.spec.nodes
    ensures FateOf(w, id) == Judge(w, id, FatesBefore(w, id))
    ensures FatesBefore(w, id).Keys == WaitsFor(w.spec, id)
    ensures forall d :: d in FatesBefore(w, id) ==> d in w.spec.nodes && FatesBefore(w, id)[d] == FateOf(w, d)
  {
    hide Judge, WaitsFor;
    var ranked := map d | d in WaitsFor(w.spec, id) && d in w.spec.nodes && w.rank[d] < w.rank[id] :: FateOf(w, d);
    assert ranked == FatesBefore(w, id);
    JudgedGiven(w, id, ranked);
    assert id !in w.supplied.values ==> EvaluatedBelow(w, id) == Judge(w, id, ranked);
  }

  /** What a node waits for comes before it. */
  lemma WaitsComeBefore(w: World, id: Id)
    requires w.Sound() && id in w.spec.nodes
    ensures forall d :: d in WaitsFor(w.spec, id) ==> d in w.spec.nodes && w.rank[d] < w.rank[id]
  {
    hide WaitsFor, RoutedOnce, TargetsExist, Listed;
  }

  /** A node is given exactly where its value is supplied. */
  lemma GivenIsSupplied(w: World, id: Id)
    requires w.Sound() && id in w.spec.nodes
    ensures FateOf(w, id).Given? <==> id in w.supplied.values
  {
    hide FateOf, FatesBefore, WellFormed, Judge, WaitsFor;
    FateIsJudged(w, id);
    JudgedGiven(w, id, FatesBefore(w, id));
  }

  lemma JudgedGiven(w: World, id: Id, fates: map<Id, Fate>)
    requires id in w.spec.nodes
    ensures Judge(w, id, fates).Given? <==> id in w.supplied.values
  {
    hide IsCut, Runs, Comes;
  }

  lemma BrokeIsFailure(w: World, id: Id)
    requires w.Sound() && id in w.spec.nodes
    ensures FateOf(w, id).Broke? ==> !FateOf(w, id).failure.Answer?
  {
    hide FateOf, FatesBefore, WaitsFor, IsCut, Runs, FateValues, FateBroke, NodeOutcome;
    FateIsJudged(w, id);
  }

  /** A node that fails the run: it refused, or broke with no switch to catch it or only one that will never route. */
  predicate EndsRun(w: World, id: Id)
    requires w.Ranks() && id in w.spec.nodes
  {
    var fate := FateOf(w, id);
    var catcher := CatcherOf(w.spec, id);
    fate.Broke? &&
    (fate.failure.Refused? || catcher.None? || FateOf(w, catcher.value).Cut? || FateOf(w, catcher.value).Given?)
  }

  /** Whether the spec fails as it is supplied. */
  ghost predicate Fails(w: World)
    requires w.Ranks()
  {
    exists id :: id in w.spec.nodes && EndsRun(w, id)
  }

  predicate Answered(w: World, id: Id)
    requires w.Ranks() && id in w.spec.nodes
  {
    FateOf(w, id).Given? || FateOf(w, id).Ran?
  }

  function ValueOf(w: World, id: Id): Json
    requires w.Ranks() && id in w.spec.nodes && Answered(w, id)
  {
    if FateOf(w, id).Given? then w.supplied.values[id] else FateOf(w, id).value
  }

  /** A node that waits for one that is cut off is cut off too, unless its value was given. */
  lemma CutSpreads(w: World, id: Id, d: Id)
    requires w.Sound() && id in w.spec.nodes && d in WaitsFor(w.spec, id) && d in w.spec.nodes && FateOf(w, d).Cut?
    ensures FateOf(w, id).Cut? || FateOf(w, id).Given?
  {
    hide FateOf, Runs, WaitsFor, Comes;
    FateIsJudged(w, id);
    assert d in FatesBefore(w, id) && FatesBefore(w, id)[d].Cut?;
  }

  lemma RoutersRoute(spec: Spec, id: Id)
    requires RouterOf(spec, id).Some?
    ensures RouterOf(spec, id).value in spec.nodes && spec.nodes[RouterOf(spec, id).value].Switch?
  {
    hide RouterOf;
  }

  lemma RouterIsWaitedFor(w: World, id: Id)
    requires id in w.spec.nodes
    ensures RouterOf(w.spec, id).Some? ==> RouterOf(w.spec, id).value in WaitsFor(w.spec, id)
  {
    hide RouterOf;
  }

  /** A target its switch did not select is cut off, unless its value was given. */
  lemma UnselectedIsCut(w: World, router: Id, id: Id)
    requires w.Sound() && router in w.spec.nodes && RoutesTo(w.spec.nodes[router], id) && id in w.spec.nodes
    requires FateOf(w, router).Ran? && FateOf(w, router).selected != Some(id)
    ensures FateOf(w, id).Cut? || FateOf(w, id).Given?
  {
    RouterIsUnique(w.spec, w.rank, router, id);
    RouterIsWaitedFor(w, id);
    FateIsJudged(w, id);
    hide FateOf, Runs, WaitsFor, Comes, RoutesTo, RouterOf, WellFormed;
    assert IsPassedOver(w, id, FatesBefore(w, id));
  }
}
