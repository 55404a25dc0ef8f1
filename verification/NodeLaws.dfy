/** What a node waits for, where it routes and what it comes to, said of the fields it is written with. */
module NodeLaws {
  import opened Json
  import opened Sources
  import opened Outcomes
  import opened KernelSpec
  import opened ReadLaws
  import MapPool

  // ---- what a node reads, and waits for ---------------------------------------------------------

  /** A read written in one of a node's inputs, or in the list it is a map over. */
  predicate Reads(node: Node, ref: string, path: Path) {
    (exists key :: key in node.inputs && Occurs(Ref(ref, path), node.inputs[key])) ||
    (node.Map? && Occurs(Ref(ref, path), node.over))
  }

  lemma NodeReads(node: Node, ref: string)
    ensures ref in NodeRefs(node) <==> exists path :: Reads(node, ref, path)
  {
    RefsAre(Object(node.inputs), ref);
    if node.Map? {
      RefsAre(node.over, ref);
    }
    forall path ensures Reads(node, ref, path) <==>
        Occurs(Ref(ref, path), Object(node.inputs)) || (node.Map? && Occurs(Ref(ref, path), node.over)) {}
  }

  lemma NodeReadsAt(node: Node, ref: string, path: Path)
    ensures (ref, path) in NodePaths(node) <==> Reads(node, ref, path)
  {
    PathsAre(Object(node.inputs), ref, path);
    if node.Map? {
      PathsAre(node.over, ref, path);
    }
  }

  /** A switch routes to where a rule sends it, to its fallback, and to where a fault it catches goes. */
  lemma RoutesToExactly(node: Node, t: Id)
    ensures RoutesTo(node, t) <==>
      node.Switch? && ((exists i :: 0 <= i < |node.rules| && node.rules[i].to == t) || node.fallback == t ||
        exists i :: 0 <= i < |node.catches| && node.catches[i].1 == t)
  {
    if node.Switch? {
      var rules, catches := RuleTargets(node.rules), CatchTargets(node.catches);
      assert forall i :: 0 <= i < |rules| ==> rules[i] == node.rules[i].to;
      assert forall i :: 0 <= i < |catches| ==> catches[i] == node.catches[i].1;
      assert t in TargetsOf(node) <==> t in rules || t == node.fallback || t in catches;
    }
  }

  /**
   * A node waits for exactly: each node it reads, and each that a call or a map lists in `after`, none of them a root;
   * the switch that routes it; and what a switch lists in its `catch`.
   */
  lemma WaitsForExactly(spec: Spec, id: Id, d: Id)
    requires id in spec.nodes
    ensures var node := spec.nodes[id];
      d in WaitsFor(spec, id) <==>
        (d in spec.nodes && d !in {"in", "const", "context"} &&
          ((exists path :: Reads(node, d, path)) || ((node.Call? || node.Map?) && d in node.after))) ||
        RouterOf(spec, id) == Some(d) ||
        (node.Switch? && exists i :: 0 <= i < |node.catches| && node.catches[i].0 == d)
  {
    hide NodeRefs, RouterOf;
    NodeReads(spec.nodes[id], d);
  }

  // ---- where a switch routes --------------------------------------------------------------------

  /** The first of a switch's catches whose fault it caught. */
  ghost predicate FirstCaught(catches: seq<(Id, Id)>, broke: set<Id>, i: int) {
    0 <= i < |catches| && catches[i].0 in broke && forall j :: 0 <= j < i ==> catches[j].0 !in broke
  }

  /** The first of a switch's rules that holds. */
  ghost predicate FirstHolding(rules: seq<Rule>, inputs: Inputs, i: int) {
    0 <= i < |rules| && rules[i].holds(inputs) && forall j :: 0 <= j < i ==> !rules[j].holds(inputs)
  }

  lemma {:induction false} CaughtRouteIsFirst(catches: seq<(Id, Id)>, broke: set<Id>)
    ensures forall i :: FirstCaught(catches, broke, i) ==> CaughtRoute(catches, broke) == Some(catches[i].1)
    ensures (forall i :: 0 <= i < |catches| ==> catches[i].0 !in broke) ==> CaughtRoute(catches, broke) == None
  {
    if catches != [] {
      CaughtRouteIsFirst(catches[1..], broke);
      forall i | FirstCaught(catches, broke, i) && i > 0 ensures FirstCaught(catches[1..], broke, i - 1) {
        assert forall j :: 0 <= j < i - 1 ==> catches[1..][j] == catches[j + 1];
      }
      assert forall i :: 0 < i < |catches| ==> catches[i] == catches[1..][i - 1];
    }
  }

  lemma {:induction false} RuleRouteIsFirst(rules: seq<Rule>, inputs: Inputs)
    ensures forall i :: FirstHolding(rules, inputs, i) ==> RuleRoute(rules, inputs) == Some(rules[i].to)
    ensures (forall i :: 0 <= i < |rules| ==> !rules[i].holds(inputs)) ==> RuleRoute(rules, inputs) == None
  {
    if rules != [] {
      RuleRouteIsFirst(rules[1..], inputs);
      forall i | FirstHolding(rules, inputs, i) && i > 0 ensures FirstHolding(rules[1..], inputs, i - 1) {
        assert forall j :: 0 <= j < i - 1 ==> rules[1..][j] == rules[j + 1];
      }
      assert forall i :: 0 < i < |rules| ==> rules[i] == rules[1..][i - 1];
    }
  }

  /**
   * Where a switch routes: where the first written of the faults it caught goes, whatever its rules say; where it caught
   * none, to the first rule written that holds of what it reads; and where none holds, to its fallback.
   */
  lemma RouteIsFirst(node: Node, values: Values, broke: set<Id>)
    requires node.Switch?
    ensures forall i :: FirstCaught(node.catches, broke, i) ==> RouteOf(node, values, broke) == node.catches[i].1
    ensures (forall i :: 0 <= i < |node.catches| ==> node.catches[i].0 !in broke) ==>
      (forall i :: FirstHolding(node.rules, ReadAll(node.inputs, values), i) ==> RouteOf(node, values, broke) == node.rules[i].to) &&
      ((forall i :: 0 <= i < |node.rules| ==> !node.rules[i].holds(ReadAll(node.inputs, values))) ==>
        RouteOf(node, values, broke) == node.fallback)
  {
    hide FirstCaught, FirstHolding, ReadAll, CaughtRoute, RuleRoute;
    CaughtRouteIsFirst(node.catches, broke);
    RuleRouteIsFirst(node.rules, ReadAll(node.inputs, values));
  }

  // ---- what a call and a map come to ------------------------------------------------------------

  /** What calling a handler comes to: what it answers of where it runs and what it is handed, or a fault where there is none. */
  ghost predicate Calls(h: Handlers, handler: string, path: seq<string>, inputs: Inputs, outcome: Outcome) {
    if handler in h then outcome == h[handler](path, inputs) else outcome == Fault("no handler '" + handler + "'")
  }

  /** A call hands its handler exactly the inputs that yield something, each what its source reads, under its own id. */
  lemma CallComes(node: Node, h: Handlers, id: Id, values: Values, elements: map<(Id, nat), Json>)
    requires node.Call?
    ensures exists inputs: Inputs ::
      Calls(h, node.handler, [id], inputs, NodeOutcome(node, h, id, values, elements)) &&
      forall key :: Lookup(inputs, key) == if key in node.inputs then ReadSource(node.inputs[key], values) else None
  {
    var inputs := ReadAll(node.inputs, values);
    assert Calls(h, node.handler, [id], inputs, NodeOutcome(node, h, id, values, elements));
  }

  /** What a map's rule says of an element beside the shared inputs: a map without one keeps every element. */
  function Judged(node: Node, shared: Inputs, item: Json): Judgement
    requires node.Map?
  {
    if node.judge.Some? then node.judge.value(shared["item" := item]) else Keep
  }

  /**
   * What one element comes to: the value it was seeded with; or it is dropped exactly where the rule drops it; or the
   * fault the rule threw; or, where it is kept, itself where the map runs nothing, and else what its handler comes to,
   * told the element's index and handed it.
   */
  lemma ElementComes(
      node: Node, h: Handlers, id: Id, i: nat, shared: Inputs, item: Json, elements: map<(Id, nat), Json>)
    requires node.Map?
    ensures var came := ElementResult(node, h, id, i, shared, item, elements);
      if (id, i) in elements then came == MapPool.Done(Answer(elements[(id, i)]))
      else
        (came.Dropped? <==> Judged(node, shared, item).Drop?) &&
        (Judged(node, shared, item).Throw? ==> came == MapPool.Done(Fault(Judged(node, shared, item).error))) &&
        (Judged(node, shared, item).Keep? ==>
          (came.Done? &&
            if node.each.None? then came.outcome == Answer(item)
            else Calls(h, node.each.value, [id, Digits(i)], ElementInputs(node.bind, shared, item), came.outcome)))
  {
  }

  /** What a list map reads: a list no longer than its limit. */
  predicate MapsOver(node: Node, values: Values, items: seq<Json>)
    requires node.Map?
  {
    ReadSource(node.over, values) == Some(Arr(items)) && (node.limit.Some? ==> |items| <= node.limit.value)
  }

  /** What an element that answered or failed shows in the answer of a map. */
  predicate Tells(shown: Json, outcome: Outcome, collects: bool) {
    if !collects then outcome == Answer(shown)
    else
      shown.Obj? && "ok" in shown.fields && shown.fields["ok"] == Bool(outcome.Answer?) &&
      match outcome
      case Answer(value) => shown.fields == map["ok" := Bool(true), "value" := value]
      case Fault(error) => shown.fields == map["ok" := Bool(false), "error" := Str(error)]
      case Refused(reason, error) =>
        shown.fields == map["ok" := Bool(false), "error" := Str(error), "reason" := Str(reason)]
  }

  /** Some indices, upwards. */
  ghost predicate Upwards(kept: seq<nat>) {
    forall m, n :: 0 <= m < n < |kept| ==> kept[m] < kept[n]
  }

  /** An answer that shows, in list order, every element of a map that was not dropped, and no other. */
  ghost predicate ShowsKept(results: seq<MapPool.Result>, collects: bool, kept: seq<nat>, out: seq<Json>) {
    Upwards(kept) && |out| == |kept| &&
    (forall i :: 0 <= i < |results| && !results[i].Dropped? ==> i in kept) &&
    forall n :: 0 <= n < |kept| ==>
      kept[n] < |results| && results[kept[n]].Done? && Tells(out[n], results[kept[n]].outcome, collects)
  }

  /** The first of some results that failed. */
  predicate FirstFailed(results: seq<MapPool.Result>, i: nat) {
    i < |results| && results[i].Done? && !results[i].outcome.Answer? &&
    forall j :: 0 <= j < i ==> results[j].Dropped? || (results[j].Done? && results[j].outcome.Answer?)
  }

  lemma ShownTells(result: MapPool.Result, collects: bool)
    requires !result.Cancelled? && !MapPool.Decides(result, collects)
    ensures result.Done? ==>
      |MapPool.Shown(result, collects)| == 1 && Tells(MapPool.Shown(result, collects)[0], result.outcome, collects)
  {
  }

  lemma AnswerShowsKept(id: string, results: seq<MapPool.Result>, collects: bool)
    requires forall i :: 0 <= i < |results| ==> !results[i].Cancelled? && !MapPool.Decides(results[i], collects)
    ensures exists kept, out :: MapPool.Collect(id, results, collects) == Answer(Arr(out)) && ShowsKept(results, collects, kept, out)
  {
    hide MapPool.Decides, MapPool.Shown, Tells;
    var kept, out := MapPool.KeptFrom(results, 0), MapPool.ShownAll(results, collects);
    MapPool.AnswersAreKept(results, collects, 0);
    assert results[0..] == results;
    forall n | 0 <= n < |kept|
      ensures kept[n] < |results| && results[kept[n]].Done? && Tells(out[n], results[kept[n]].outcome, collects)
    {
      ShownTells(results[kept[n]], collects);
    }
    assert ShowsKept(results, collects, kept, out);
  }

  /** What a map's elements come to once they start. */
  function ElementsCome(
      node: Node, h: Handlers, id: Id, values: Values, elements: map<(Id, nat), Json>, items: seq<Json>): seq<MapPool.Result>
    requires node.Map?
  {
    var inputs := ReadAll(node.inputs, values);
    seq(|items|, i requires 0 <= i < |items| => ElementResult(node, h, id, i, inputs, items[i], elements))
  }

  lemma MapIsCollected(node: Node, h: Handlers, id: Id, values: Values, elements: map<(Id, nat), Json>, items: seq<Json>)
    requires node.Map? && MapsOver(node, values, items)
    ensures var results := ElementsCome(node, h, id, values, elements, items);
      NodeOutcome(node, h, id, values, elements) ==
        MapPool.Collect(id, if node.concurrency == Some(0) then [] else results, node.collects)
    ensures forall i :: 0 <= i < |items| ==> !ElementsCome(node, h, id, values, elements, items)[i].Cancelled?
  {
    hide ElementResult, MapPool.Collect;
    var results := ElementsCome(node, h, id, values, elements, items);
    var site := SiteOf(node, h, id, ReadAll(node.inputs, values), items, elements);
    SiteIsValid(node, h, id, ReadAll(node.inputs, values), items, elements);
    assert site.own == results;
    if items == [] {
      assert results == [];
    }
  }

  /**
   * What a map over a list comes to, said of what its elements come to: nothing at all where it is left no worker; else,
   * where failures end it, the failure of the first element that failed, a refusal as it was and a fault named by the
   * element's index; and otherwise the list of what the elements not dropped came to, in list order.
   */
  lemma MapComes(node: Node, h: Handlers, id: Id, values: Values, elements: map<(Id, nat), Json>, items: seq<Json>)
    requires node.Map? && MapsOver(node, values, items)
    ensures var results := ElementsCome(node, h, id, values, elements, items);
      var outcome := NodeOutcome(node, h, id, values, elements);
      if node.concurrency == Some(0) then outcome == Answer(Arr([]))
      else if !node.collects && exists i: nat :: FirstFailed(results, i) then
        forall i: nat :: FirstFailed(results, i) ==>
          outcome == if results[i].outcome.Refused? then results[i].outcome
                     else Fault("map '" + id + "' element " + Digits(i) + ": " + results[i].outcome.error)
      else exists kept, out :: outcome == Answer(Arr(out)) && ShowsKept(results, node.collects, kept, out)
  {
    hide ElementsCome, ShowsKept, NodeOutcome;
    var results := ElementsCome(node, h, id, values, elements, items);
    MapIsCollected(node, h, id, values, elements, items);
    if node.concurrency != Some(0) {
      assert |results| == |items| by { LengthComes(node, h, id, values, elements, items); }
      var first := MapPool.FirstDeciding(results, node.collects, 0);
      if first.None? {
        AnswerShowsKept(id, results, node.collects);
        assert forall i: nat :: !node.collects ==> !FirstFailed(results, i);
      } else {
        assert !node.collects && FirstFailed(results, first.value);
        forall i: nat | FirstFailed(results, i) ensures i == first.value {
          assert MapPool.Decides(results[i], false);
        }
      }
    }
  }

  lemma LengthComes(node: Node, h: Handlers, id: Id, values: Values, elements: map<(Id, nat), Json>, items: seq<Json>)
    requires node.Map?
    ensures |ElementsCome(node, h, id, values, elements, items)| == |items|
  {
    hide ElementResult;
  }

  /** A map over what is no list, or over a list longer than its limit, is a fault before any element starts. */
  lemma MapFaults(node: Node, h: Handlers, id: Id, values: Values, elements: map<(Id, nat), Json>)
    requires node.Map? && forall items :: !MapsOver(node, values, items)
    ensures NodeOutcome(node, h, id, values, elements).Fault?
  {
    var over := ReadSource(node.over, values);
    if over.Some? && over.value.Arr? {
      assert !MapsOver(node, values, over.value.items);
    }
  }

  // ---- a map that only picks --------------------------------------------------------------------

  /** The elements of a list that a rule keeps, in list order. */
  function KeptOf(node: Node, shared: Inputs, items: seq<Json>): seq<Json>
    requires node.Map?
  {
    if items == [] then []
    else (if Judged(node, shared, items[0]).Keep? then [items[0]] else []) + KeptOf(node, shared, items[1..])
  }

  lemma {:induction false} PickedAre(node: Node, shared: Inputs, items: seq<Json>, results: seq<MapPool.Result>)
    requires node.Map? && |results| == |items|
    requires forall i :: 0 <= i < |items| ==>
      results[i] == if Judged(node, shared, items[i]).Keep? then MapPool.Done(Answer(items[i])) else MapPool.Dropped
    ensures MapPool.ShownAll(results, false) == KeptOf(node, shared, items)
  {
    hide Judged;
    if items != [] {
      PickedAre(node, shared, items[1..], results[1..]);
    }
  }

  /** A map that runs nothing, with no seeds and a rule that never throws, answers exactly the elements its rule keeps. */
  lemma MapPicks(node: Node, h: Handlers, id: Id, values: Values, items: seq<Json>)
    requires node.Map? && MapsOver(node, values, items) && node.each.None? && !node.collects && node.concurrency != Some(0)
    requires forall i :: 0 <= i < |items| ==> !Judged(node, ReadAll(node.inputs, values), items[i]).Throw?
    ensures NodeOutcome(node, h, id, values, map[]) == Answer(Arr(KeptOf(node, ReadAll(node.inputs, values), items)))
  {
    hide ReadAll, KeptOf, NodeOutcome;
    var shared, results := ReadAll(node.inputs, values), ElementsCome(node, h, id, values, map[], items);
    MapIsCollected(node, h, id, values, map[], items);
    forall i | 0 <= i < |items|
      ensures results[i] == if Judged(node, shared, items[i]).Keep? then MapPool.Done(Answer(items[i])) else MapPool.Dropped
    {
      ElementComes(node, h, id, i, shared, items[i], map[]);
    }
    PickedAre(node, shared, items, results);
    assert MapPool.FirstDeciding(results, false, 0).None?;
  }
}
