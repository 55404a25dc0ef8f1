/** Replay: what a run answered, supplied to the next, gives the same run without the work. */
module Replay {
  import opened Json
  import opened Sources
  import opened Outcomes
  import opened KernelSpec
  import opened Fates
  import opened Kernel
  import opened Agreement
  import opened RunLaws
  import opened Steps
  import opened Meaning
  import MapPool

  /** The same spec, supplied with values for some of its nodes and some elements of its maps besides. */
  function Seeded(w: World, seeds: Values, elements: map<(Id, nat), Json>): World {
    w.(supplied := Supplied(w.supplied.values + seeds, w.supplied.elements + elements))
  }

  /** An element of a map that ran answered a value. */
  ghost predicate ElementGave(w: World, id: Id, i: nat, value: Json)
    requires w.Ranks()
  {
    id in w.spec.nodes && w.spec.nodes[id].Map? && Runs(w, id, FatesBefore(w, id)) &&
    var values := FateValues(w, FatesBefore(w, id));
    var over := ReadSource(w.spec.nodes[id].over, values);
    over.Some? && over.value.Arr? && i < |over.value.items| &&
    ElementResult(
      w.spec.nodes[id], w.handlers, id, i, ReadAll(w.spec.nodes[id].inputs, values), over.value.items[i],
      w.supplied.elements) == MapPool.Done(Answer(value))
  }

  /** Seeds taken from a run: values its calls and maps answered, and elements of its maps. */
  ghost predicate Recorded(w: World, seeds: Values, elements: map<(Id, nat), Json>)
    requires w.Ranks()
  {
    (forall id :: id in seeds ==>
      id in w.spec.nodes && !w.spec.nodes[id].Switch? && FateOf(w, id).Ran? && FateOf(w, id).value == seeds[id]) &&
    (forall key :: key in elements ==> ElementGave(w, key.0, key.1, elements[key]))
  }

  /** A fate once some nodes are given what they answered. */
  function Refated(fate: Fate, given: bool): Fate {
    if given then Given else fate
  }

  ghost predicate Refates(w: World, seeds: Values, fates: map<Id, Fate>, fates': map<Id, Fate>) {
    fates'.Keys == fates.Keys && forall d :: d in fates ==> fates'[d] == Refated(fates[d], d in seeds)
  }

  lemma SeededRoots(w: World, seeds: Values, elements: map<(Id, nat), Json>, id: Id)
    requires w.Sound() && Recorded(w, seeds, elements) && id in w.spec.nodes
    ensures RootsSupplied(w.spec.nodes[id], Seeded(w, seeds, elements).supplied.values) <==>
      RootsSupplied(w.spec.nodes[id], w.supplied.values)
  {
    hide FateOf, NodeRefs, ElementGave, Ranked, RoutedOnce, TargetsExist, Listed;
  }

  /** Nodes that are given what they answered: none of them is a switch, so none of them routes. */
  ghost predicate Answering(w: World, seeds: Values, fates: map<Id, Fate>) {
    forall d :: d in fates && d in seeds ==>
      fates[d].Ran? && fates[d].value == seeds[d] && d in w.spec.nodes && !w.spec.nodes[d].Switch?
  }

  lemma RecordedAnswers(w: World, seeds: Values, elements: map<(Id, nat), Json>, id: Id)
    requires w.Sound() && Recorded(w, seeds, elements) && id in w.spec.nodes
    ensures Answering(w, seeds, FatesBefore(w, id)) && FatesBefore(w, id).Keys == WaitsFor(w.spec, id)
  {
    hide FateOf, WaitsFor, WellFormed, FatesBefore, Judge, ElementGave;
    FateIsJudged(w, id);
    forall d | d in FatesBefore(w, id) ensures FatesBefore(w, id)[d] == FateOf(w, d) {}
  }

  lemma CutAlike(w: World, seeds: Values, elements: map<(Id, nat), Json>, id: Id, fates: map<Id, Fate>, fates': map<Id, Fate>)
    requires Answering(w, seeds, fates) && Refates(w, seeds, fates, fates')
    ensures IsCut(Seeded(w, seeds, elements), id, fates') <==> IsCut(w, id, fates)
    ensures IsChosen(Seeded(w, seeds, elements), id, fates') <==> IsChosen(w, id, fates)
  {
    hide RouterOf;
    assert forall d :: d in fates ==> (fates'[d].Cut? <==> fates[d].Cut?);
    if RouterOf(w.spec, id).Some? {
      RoutersRoute(w.spec, id);
    }
  }

  lemma MetAlike(w: World, seeds: Values, id: Id, fates: map<Id, Fate>, fates': map<Id, Fate>)
    requires Answering(w, seeds, fates) && Refates(w, seeds, fates, fates')
    ensures (forall d :: d in fates' ==> Meets(w.spec, id, d, fates'[d])) <==>
      (forall d :: d in fates ==> Meets(w.spec, id, d, fates[d]))
  {
    hide CatcherOf;
    assert forall d :: d in fates ==> (Meets(w.spec, id, d, fates'[d]) <==> Meets(w.spec, id, d, fates[d]));
  }

  lemma SeededRuns(w: World, seeds: Values, elements: map<(Id, nat), Json>, id: Id, fates: map<Id, Fate>, fates': map<Id, Fate>)
    requires w.Sound() && Recorded(w, seeds, elements) && id in w.spec.nodes
    requires Answering(w, seeds, fates) && Refates(w, seeds, fates, fates')
    ensures IsCut(Seeded(w, seeds, elements), id, fates') <==> IsCut(w, id, fates)
    ensures Runs(Seeded(w, seeds, elements), id, fates') <==> Runs(w, id, fates)
  {
    hide FateOf, WaitsFor, RouterOf, CatcherOf, RootsSupplied, WellFormed, ElementGave, IsCut, IsChosen, Meets, Answering, Refates, Recorded;
    SeededRoots(w, seeds, elements, id);
    CutAlike(w, seeds, elements, id, fates, fates');
    MetAlike(w, seeds, id, fates, fates');
  }

  lemma SeededBroke(w: World, seeds: Values, elements: map<(Id, nat), Json>, id: Id, fates: map<Id, Fate>, fates': map<Id, Fate>)
    requires Answering(w, seeds, fates) && Refates(w, seeds, fates, fates')
    ensures FateBroke(Seeded(w, seeds, elements), id, fates') == FateBroke(w, id, fates)
  {
    hide CatcherOf;
  }

  lemma SeededValues(w: World, seeds: Values, elements: map<(Id, nat), Json>, id: Id, fates: map<Id, Fate>, fates': map<Id, Fate>)
    requires w.Sound() && id in w.spec.nodes && fates.Keys == WaitsFor(w.spec, id) && seeds.Keys <= w.spec.nodes.Keys
    requires Answering(w, seeds, fates) && Refates(w, seeds, fates, fates')
    ensures AgreeOn(NodeRefs(w.spec.nodes[id]), FateValues(w, fates), FateValues(Seeded(w, seeds, elements), fates'))
  {
    hide FateOf, RouterOf, CatcherOf, NodeRefs, WellFormed, WaitsFor;
    var w' := Seeded(w, seeds, elements);
    forall ref | ref in NodeRefs(w.spec.nodes[id])
      ensures Lookup(FateValues(w, fates), ref) == Lookup(FateValues(w', fates'), ref)
    {
      if ref in w.spec.nodes {
        ReadIsWaitedFor(w, id, ref);
      }
    }
  }

  /** A seeded element is the value it was seeded with, whatever the handlers there are and whatever its map's rule says. */
  lemma SeededElementStands(
      w: World, seeds: Values, elements: map<(Id, nat), Json>, node: Node, h: Handlers, id: Id, i: nat, shared: Inputs, item: Json)
    requires node.Map? && (id, i) in elements
    ensures ElementResult(node, h, id, i, shared, item, Seeded(w, seeds, elements).supplied.elements) ==
      MapPool.Done(Answer(elements[(id, i)]))
    ensures Seeded(w, seeds, elements).supplied.elements - elements.Keys == w.supplied.elements - elements.Keys
  {
  }

  /** Elements given what they answered leave a map's elements as they were. */
  lemma SeededSite(
      node: Node, h: Handlers, id: Id, shared: Inputs, items: seq<Json>, was: map<(Id, nat), Json>, elements: map<(Id, nat), Json>)
    requires node.Map?
    requires forall i: nat :: i < |items| && (id, i) in elements ==>
      ElementResult(node, h, id, i, shared, items[i], was) == MapPool.Done(Answer(elements[(id, i)]))
    ensures MapPool.MapOutcome(SiteOf(node, h, id, shared, items, was + elements)) ==
      MapPool.MapOutcome(SiteOf(node, h, id, shared, items, was))
  {
    hide MapPool.Collect, Kept;
    var one, other := SiteOf(node, h, id, shared, items, was), SiteOf(node, h, id, shared, items, was + elements);
    forall i | 0 <= i < |items| ensures other.own[i] == one.own[i] {
      assert (id, i) in elements ==>
        ElementResult(node, h, id, i, shared, items[i], was) == MapPool.Done(Answer(elements[(id, i)]));
    }
    assert one.own == other.own;
  }

  lemma SeededOutcome(w: World, seeds: Values, elements: map<(Id, nat), Json>, id: Id)
    requires w.Sound() && Recorded(w, seeds, elements) && id in w.spec.nodes && !w.spec.nodes[id].Switch?
    ensures var values := FateValues(w, FatesBefore(w, id));
      NodeOutcome(w.spec.nodes[id], w.handlers, id, values, w.supplied.elements + elements) ==
      NodeOutcome(w.spec.nodes[id], w.handlers, id, values, w.supplied.elements)
  {
    hide FateOf, FatesBefore, FateValues, WellFormed, SiteOf, MapPool.MapOutcome, ElementResult, Runs;
    var node, values := w.spec.nodes[id], FateValues(w, FatesBefore(w, id));
    if node.Map? {
      var over, shared := ReadSource(node.over, values), ReadAll(node.inputs, values);
      if over.Some? && over.value.Arr? {
        forall i: nat | i < |over.value.items| && (id, i) in elements
          ensures ElementResult(node, w.handlers, id, i, shared, over.value.items[i], w.supplied.elements) ==
            MapPool.Done(Answer(elements[(id, i)]))
        {
          assert ElementGave(w, id, i, elements[(id, i)]);
        }
        SeededSite(node, w.handlers, id, shared, over.value.items, w.supplied.elements, elements);
      }
    }
  }

  lemma SeededComes(w: World, seeds: Values, elements: map<(Id, nat), Json>, id: Id, fates': map<Id, Fate>)
    requires w.Sound() && Recorded(w, seeds, elements) && id in w.spec.nodes
    requires Refates(w, seeds, FatesBefore(w, id), fates')
    ensures var w', fates := Seeded(w, seeds, elements), FatesBefore(w, id);
      Comes(w', id, FateValues(w', fates'), FateBroke(w', id, fates')) ==
      Comes(w, id, FateValues(w, fates), FateBroke(w, id, fates))
  {
    hide FateOf, FatesBefore, FateValues, FateBroke, WellFormed, NodeOutcome, RouteOf, Refates, NodeRefs, ElementGave, WaitsFor, Answering, Comes, AgreeOn;
    var w', fates := Seeded(w, seeds, elements), FatesBefore(w, id);
    RecordedAnswers(w, seeds, elements, id);
    assert seeds.Keys <= w.spec.nodes.Keys;
    SeededValues(w, seeds, elements, id, fates, fates');
    SeededBroke(w, seeds, elements, id, fates, fates');
    ComesAlike(w', id, FateValues(w, fates), FateValues(w', fates'), FateBroke(w, id, fates));
    ComesWithElements(w, seeds, elements, id, FateBroke(w, id, fates));
  }

  lemma ComesWithElements(w: World, seeds: Values, elements: map<(Id, nat), Json>, id: Id, broke: set<Id>)
    requires w.Sound() && Recorded(w, seeds, elements) && id in w.spec.nodes
    ensures Comes(Seeded(w, seeds, elements), id, FateValues(w, FatesBefore(w, id)), broke) ==
      Comes(w, id, FateValues(w, FatesBefore(w, id)), broke)
  {
    hide FateOf, FatesBefore, FateValues, WellFormed, NodeOutcome, RouteOf, Recorded;
    if !w.spec.nodes[id].Switch? {
      SeededOutcome(w, seeds, elements, id);
    }
  }

  lemma SeededJudge(w: World, seeds: Values, elements: map<(Id, nat), Json>, id: Id, fates': map<Id, Fate>)
    requires w.Sound() && Recorded(w, seeds, elements) && id in w.spec.nodes
    requires Refates(w, seeds, FatesBefore(w, id), fates')
    ensures Judge(Seeded(w, seeds, elements), id, fates') == Refated(Judge(w, id, FatesBefore(w, id)), id in seeds)
  {
    hide FateOf, FatesBefore, FateValues, FateBroke, WellFormed, Comes, IsCut, Runs, Refates, Recorded, Answering, WaitsFor;
    RecordedAnswers(w, seeds, elements, id);
    SeededRuns(w, seeds, elements, id, FatesBefore(w, id), fates');
    SeededComes(w, seeds, elements, id, fates');
  }

  lemma SeededIsSound(w: World, seeds: Values, elements: map<(Id, nat), Json>)
    requires w.Sound()
    ensures Seeded(w, seeds, elements).Sound()
  {
    hide WellFormed;
  }

  /** Given what they answered, nodes and elements leave every other node its fate. */
  lemma {:induction false} SeededFate(w: World, seeds: Values, elements: map<(Id, nat), Json>, id: Id)
    requires w.Sound() && Recorded(w, seeds, elements) && id in w.spec.nodes
    ensures FateOf(Seeded(w, seeds, elements), id) == Refated(FateOf(w, id), id in seeds)
    decreases w.rank[id]
  {
    hide FateOf, FatesBefore, WellFormed, Recorded, Judge, WaitsFor;
    var w' := Seeded(w, seeds, elements);
    SeededIsSound(w, seeds, elements);
    FateIsJudged(w, id);
    FateIsJudged(w', id);
    WaitsComeBefore(w, id);
    forall d | d in FatesBefore(w, id) ensures FatesBefore(w', id)[d] == Refated(FatesBefore(w, id)[d], d in seeds) {
      SeededFate(w, seeds, elements, d);
    }
    SeededJudge(w, seeds, elements, id, FatesBefore(w', id));
  }

  lemma SeededEnds(w: World, seeds: Values, elements: map<(Id, nat), Json>, id: Id)
    requires w.Sound() && Recorded(w, seeds, elements) && id in w.spec.nodes
    ensures EndsRun(Seeded(w, seeds, elements), id) <==> EndsRun(w, id)
  {
    hide FateOf, WellFormed, CatcherOf, ElementGave;
    SeededFate(w, seeds, elements, id);
    var catcher := CatcherOf(w.spec, id);
    if catcher.Some? {
      assert CatcherOf(w.spec, id).value in w.spec.nodes && w.spec.nodes[CatcherOf(w.spec, id).value].Switch?;
      SeededFate(w, seeds, elements, catcher.value);
    }
  }

  lemma {:induction false} SeededFirst(w: World, seeds: Values, elements: map<(Id, nat), Json>, candidates: seq<Id>)
    requires w.Sound() && Recorded(w, seeds, elements)
    ensures FirstFated(Seeded(w, seeds, elements), candidates) == FirstFated(w, candidates)
    ensures FirstFated(w, candidates).Some? ==> FirstFated(w, candidates).value in w.spec.nodes
  {
    hide FateOf, WellFormed, ElementGave;
    if candidates != [] {
      if candidates[0] in w.spec.nodes {
        SeededFate(w, seeds, elements, candidates[0]);
      }
      SeededFirst(w, seeds, elements, candidates[1..]);
    }
  }

  lemma SeededValue(w: World, seeds: Values, elements: map<(Id, nat), Json>, id: Id)
    requires w.Sound() && Recorded(w, seeds, elements) && id in w.spec.nodes
    ensures Answered(Seeded(w, seeds, elements), id) <==> Answered(w, id)
    ensures Answered(w, id) ==> ValueOf(Seeded(w, seeds, elements), id) == ValueOf(w, id)
  {
    hide FateOf, WellFormed, ElementGave;
    SeededFate(w, seeds, elements, id);
    GivenIsSupplied(w, id);
  }

  lemma SeededNeeds(w: World, seeds: Values, elements: map<(Id, nat), Json>)
    requires w.Sound() && Recorded(w, seeds, elements)
    ensures FateNeeds(Seeded(w, seeds, elements)) == FateNeeds(w)
  {
    hide FateOf, Ranked, RoutedOnce, TargetsExist, Listed, ElementGave, NodePaths;
    var w' := Seeded(w, seeds, elements);
    forall id | id in w.spec.nodes ensures FateOf(w', id).Stuck? <==> FateOf(w, id).Stuck? {
      SeededFate(w, seeds, elements, id);
    }
    assert forall root :: root in PSEUDO ==> (root in w'.supplied.values <==> root in w.supplied.values);
  }

  /**
   * Replay: supplied with any of what its calls, maps and elements answered, a spec comes to the same status, the
   * same output from the same candidate, and the same needs, and its other nodes come to what they came to.
   */
  lemma ReplayMeansTheSame(w: World, seeds: Values, elements: map<(Id, nat), Json>)
    requires w.Sound() && Recorded(w, seeds, elements)
    ensures var one, other := Means(w), Means(Seeded(w, seeds, elements));
      other.status == one.status && other.output == one.output && other.answeredBy == one.answeredBy &&
      other.needs == one.needs
    ensures forall id :: id in w.spec.nodes && id !in seeds ==>
      FateReport(Seeded(w, seeds, elements), id) == FateReport(w, id)
  {
    hide FateOf, WellFormed, FateNeeds, Fails, Recorded, Answered, ValueOf;
    var w' := Seeded(w, seeds, elements);
    SeededIsSound(w, seeds, elements);
    SeededFails(w, seeds, elements);
    SeededNeeds(w, seeds, elements);
    forall id | id in w.spec.nodes && id !in seeds ensures FateReport(w', id) == FateReport(w, id) {
      SeededFate(w, seeds, elements, id);
    }
    if w.spec.output.Some? {
      SeededFirst(w, seeds, elements, w.spec.output.value);
      var answer := FirstFated(w, w.spec.output.value);
      if answer.Some? {
        SeededValue(w, seeds, elements, answer.value);
      }
    }
  }

  lemma SeededFails(w: World, seeds: Values, elements: map<(Id, nat), Json>)
    requires w.Sound() && Recorded(w, seeds, elements)
    ensures Fails(Seeded(w, seeds, elements)) <==> Fails(w)
  {
    hide FateOf, WellFormed, Recorded, EndsRun;
    var w' := Seeded(w, seeds, elements);
    forall id | id in w.spec.nodes ensures EndsRun(w', id) <==> EndsRun(w, id) {
      SeededEnds(w, seeds, elements, id);
    }
  }

  /** A seeded node is never run: in no state of any run is it in flight, and its report stays seeded. */
  lemma SeededNeverRuns(w: World, states: seq<State>, steps: seq<Step>, n: nat, id: Id)
    requires w.Sound() && IsRun(w, states, steps) && n < |states| && id in w.spec.nodes && id in w.supplied.values
    ensures id in states[n].reports && states[n].reports[id].status.Seeded? && id !in states[n].inFlight
    ensures Lookup(states[n].values, id) == Lookup(w.supplied.values, id)
  {
    hide FateOf, WellFormed, Inv, Enabled, After;
    RunKeeps(w, states, steps, n);
    InvShape(w, states[n]);
    assert ShapeAt(w, states[n], id);
  }

  /** A switch is not to be replayed: one that is given selects nothing, and none of its targets ever runs. */
  lemma SeededSwitchStalls(w: World, router: Id, id: Id)
    requires w.Sound() && router in w.spec.nodes && router in w.supplied.values
    requires id in w.spec.nodes && RoutesTo(w.spec.nodes[router], id) && id !in w.supplied.values
    ensures FateOf(w, id).Cut? || FateOf(w, id).Stuck?
  {
    hide FateOf, WellFormed, FatesBefore, IsCut, RouterOf, WaitsFor, RoutesTo;
    RouterIsUnique(w.spec, w.rank, router, id);
    RouterIsWaitedFor(w, id);
    FateIsJudged(w, id);
    GivenIsSupplied(w, router);
    assert !IsChosen(w, id, FatesBefore(w, id));
  }
}
