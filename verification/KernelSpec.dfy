/** What the kernel executes: nodes, the sources they read, and what each comes to over settled values. */
module KernelSpec {
  import opened Json
  import opened Sources
  import opened Outcomes
  import MapPool

  type Id = string
  type Inputs = map<string, Json>

  /** A handler answers a function of where it runs and what it is given. */
  type Handlers = map<string, (seq<string>, Inputs) -> Outcome>

  datatype Rule = Rule(holds: Inputs -> bool, to: Id)

  /** What a map's rule makes of an element. */
  datatype Judgement = Keep | Drop | Throw(error: string)

  datatype Node =
    | Call(handler: string, inputs: map<string, Source>, after: set<Id>)
    | Switch(inputs: map<string, Source>, rules: seq<Rule>, fallback: Id, catches: seq<(Id, Id)>)
    | Map(each: Option<string>, over: Source, inputs: map<string, Source>, bind: Option<map<string, Path>>,
          collects: bool, limit: Option<nat>, concurrency: Option<nat>, judge: Option<Inputs -> Judgement>,
          after: set<Id>)

  /** The nodes, the order they are written in, and the output candidates in order. */
  datatype Spec = Spec(nodes: map<Id, Node>, order: seq<Id>, output: Option<seq<Id>>)

  /** What a run is supplied: roots and seeded nodes by name, and seeded elements of maps. */
  datatype Supplied = Supplied(values: Values, elements: map<(Id, nat), Json>)

  // ---- what waits for what ----------------------------------------------------------------------

  function RuleTargets(rules: seq<Rule>): seq<Id> {
    seq(|rules|, i requires 0 <= i < |rules| => rules[i].to)
  }

  function CatchTargets(catches: seq<(Id, Id)>): seq<Id> {
    seq(|catches|, i requires 0 <= i < |catches| => catches[i].1)
  }

  /** Every node a switch can route to: a rule's, the fallback, and where each caught fault goes. */
  function TargetsOf(node: Node): seq<Id>
    requires node.Switch?
  {
    RuleTargets(node.rules) + [node.fallback] + CatchTargets(node.catches)
  }

  predicate CatchesKey(node: Node, id: Id) {
    node.Switch? && exists i :: 0 <= i < |node.catches| && node.catches[i].0 == id
  }

  predicate RoutesTo(node: Node, id: Id) {
    node.Switch? && id in TargetsOf(node)
  }

  /** The switch that routes a node: the last one written that names it. */
  function RouterIn(spec: Spec, order: seq<Id>, id: Id): (router: Option<Id>)
    ensures router.Some? ==>
      router.value in order && router.value in spec.nodes && RoutesTo(spec.nodes[router.value], id)
    ensures router.None? ==> forall s :: s in order && s in spec.nodes ==> !RoutesTo(spec.nodes[s], id)
  {
    if order == [] then None
    else
      var last := order[|order| - 1];
      assert forall s :: s in order ==> s == last || s in order[..|order| - 1];
      if last in spec.nodes && RoutesTo(spec.nodes[last], id) then Some(last)
      else RouterIn(spec, order[..|order| - 1], id)
  }

  function RouterOf(spec: Spec, id: Id): (router: Option<Id>)
    ensures router.Some? ==>
      router.value in spec.order && router.value in spec.nodes && RoutesTo(spec.nodes[router.value], id)
  {
    RouterIn(spec, spec.order, id)
  }

  /** The switch that catches a node's fault: the last one written whose catch names it. */
  function CatcherIn(spec: Spec, order: seq<Id>, id: Id): (catcher: Option<Id>)
    ensures catcher.Some? ==>
      catcher.value in order && catcher.value in spec.nodes && CatchesKey(spec.nodes[catcher.value], id)
  {
    if order == [] then None
    else
      var last := order[|order| - 1];
      if last in spec.nodes && CatchesKey(spec.nodes[last], id) then Some(last)
      else CatcherIn(spec, order[..|order| - 1], id)
  }

  function CatcherOf(spec: Spec, id: Id): (catcher: Option<Id>)
    ensures catcher.Some? ==>
      catcher.value in spec.order && catcher.value in spec.nodes && CatchesKey(spec.nodes[catcher.value], id)
  {
    CatcherIn(spec, spec.order, id)
  }

  /** Every root a node reads. */
  function NodeRefs(node: Node): set<string> {
    RefsOfAll(node.inputs) + if node.Map? then RefsOf(node.over) else {}
  }

  /** Every path a node reads. */
  function NodePaths(node: Node): set<(string, Path)> {
    RootPaths(Object(node.inputs)) + if node.Map? then RootPaths(node.over) else {}
  }

  /** What a node names to wait for without reading it. */
  function Named(node: Node): set<Id> {
    if node.Switch? then {} else node.after
  }

  /** What a node waits for: what it reads, what it names, the switch that routes it, and what it catches. */
  function WaitsFor(spec: Spec, id: Id): set<Id>
    requires id in spec.nodes
  {
    var node := spec.nodes[id];
    (set ref | ref in NodeRefs(node) + Named(node) && ref !in PSEUDO && ref in spec.nodes) +
    (if RouterOf(spec, id).Some? then {RouterOf(spec, id).value} else {}) +
    (if node.Switch? then set i | 0 <= i < |node.catches| :: node.catches[i].0 else {})
  }

  /** The nodes that wait for a node, in the order they are written in. */
  function DependentsIn(spec: Spec, order: seq<Id>, id: Id): (ids: seq<Id>)
    ensures forall d :: d in ids <==> d in order && d in spec.nodes && id in WaitsFor(spec, d)
  {
    if order == [] then []
    else
      var last := order[|order| - 1];
      assert forall s :: s in order <==> s == last || s in order[..|order| - 1];
      DependentsIn(spec, order[..|order| - 1], id) +
      if last in spec.nodes && id in WaitsFor(spec, last) then [last] else []
  }

  function Dependents(spec: Spec, id: Id): seq<Id> {
    DependentsIn(spec, spec.order, id)
  }

  /** A rank that every node's waits come before: what makes a spec acyclic. */
  type Rank = map<Id, nat>

  ghost predicate Ranked(spec: Spec, rank: Rank) {
    rank.Keys == spec.nodes.Keys &&
    forall id, d {:trigger d in WaitsFor(spec, id)} ::
      id in spec.nodes && d in WaitsFor(spec, id) ==> d in spec.nodes && rank[d] < rank[id]
  }

  ghost predicate RoutedOnce(spec: Spec) {
    forall s, s', t {:trigger RoutesTo(spec.nodes[s], t), RoutesTo(spec.nodes[s'], t)} ::
      s in spec.nodes && s' in spec.nodes && RoutesTo(spec.nodes[s], t) && RoutesTo(spec.nodes[s'], t) ==> s == s'
  }

  ghost predicate TargetsExist(spec: Spec) {
    forall s, t {:trigger RoutesTo(spec.nodes[s], t)} ::
      s in spec.nodes && RoutesTo(spec.nodes[s], t) ==> t in spec.nodes
  }

  /** Some ids, each once. */
  predicate Lists(order: seq<Id>, ids: set<Id>) {
    if order == [] then ids == {}
    else
      var last := order[|order| - 1];
      last in ids && Lists(order[..|order| - 1], ids - {last})
  }

  /** The order lists the nodes, each once. */
  ghost predicate Listed(spec: Spec) {
    Lists(spec.order, spec.nodes.Keys)
  }

  lemma {:induction false} ListsAre(order: seq<Id>, ids: set<Id>)
    ensures Lists(order, ids) <==>
      (forall id :: id in order <==> id in ids) && (forall i, j :: 0 <= i < j < |order| ==> order[i] != order[j])
  {
    if order != [] {
      var last, rest := order[|order| - 1], order[..|order| - 1];
      ListsAre(rest, ids - {last});
      assert order == rest + [last];
      forall id ensures id in order <==> id in rest || id == last {}
      if Lists(order, ids) {
        forall i, j | 0 <= i < j < |order| ensures order[i] != order[j] {
          assert order[i] in rest;
        }
      }
    }
  }

  lemma ListedOnce(spec: Spec)
    ensures Listed(spec) <==>
      (forall id :: id in spec.order <==> id in spec.nodes) &&
      (forall i, j :: 0 <= i < j < |spec.order| ==> spec.order[i] != spec.order[j])
  {
    ListsAre(spec.order, spec.nodes.Keys);
  }

  /**
   * What a spec is taken to be: its order lists its nodes once each, every target is one of them, no node takes a
   * root's name, a node is a target of at most one switch, and nothing waits for itself.
   */
  ghost predicate WellFormed(spec: Spec, rank: Rank) {
    Listed(spec) && spec.nodes.Keys !! PSEUDO && TargetsExist(spec) && RoutedOnce(spec) && Ranked(spec, rank)
  }

  lemma RouterIsUnique(spec: Spec, rank: Rank, s: Id, t: Id)
    requires WellFormed(spec, rank) && s in spec.nodes && RoutesTo(spec.nodes[s], t)
    ensures RouterOf(spec, t) == Some(s)
  {
    ListedOnce(spec);
    assert s in spec.order;
  }

  // ---- what a node comes to ---------------------------------------------------------------------

  function Invoke(h: Handlers, name: string, path: seq<string>, inputs: Inputs): Outcome {
    if name in h then h[name](path, inputs) else Fault("no handler '" + name + "'")
  }

  /** What one element's handler takes: the shared inputs, and the element under `item` or through `bind`. */
  function ElementInputs(bind: Option<map<string, Path>>, shared: Inputs, item: Json): Inputs {
    if bind.None? then shared["item" := item]
    else
      var bound := map key | key in bind.value && ReadPath(Some(item), bind.value[key]).Some? ::
        ReadPath(Some(item), bind.value[key]).value;
      shared + bound
  }

  /** What some of the bound fields hold of an element. */
  function Bound(bind: map<string, Path>, item: Json, keys: set<string>): Inputs {
    map key | key in keys && key in bind && ReadPath(Some(item), bind[key]).Some? :: ReadPath(Some(item), bind[key]).value
  }

  lemma BoundMore(bind: map<string, Path>, shared: Inputs, item: Json, keys: set<string>, key: string)
    requires key in bind
    ensures var value := ReadPath(Some(item), bind[key]);
      shared + Bound(bind, item, keys + {key}) ==
        if value.Some? then (shared + Bound(bind, item, keys))[key := value.value] else shared + Bound(bind, item, keys - {key})
  {
    hide ReadPath;
  }

  /** The loop that hands an element on: the shared inputs first, then each field of it that is there. */
  method BindElement(bind: Option<map<string, Path>>, shared: Inputs, item: Json) returns (inputs: Inputs)
    ensures inputs == ElementInputs(bind, shared, item)
  {
    hide ReadPath, Bound, ElementInputs;
    BoundIs(bind, shared, item);
    inputs := shared;
    if bind.None? {
      return inputs["item" := item];
    }
    var done, left := {}, bind.value.Keys;
    while left != {}
      invariant left !! done && left + done == bind.value.Keys
      invariant inputs == shared + Bound(bind.value, item, done)
      decreases |left|
    {
      var key :| key in left;
      BoundMore(bind.value, shared, item, done, key);
      assert done - {key} == done;
      var value := ReadPath(Some(item), bind.value[key]);
      if value.Some? {
        inputs := inputs[key := value.value];
      }
      done, left := done + {key}, left - {key};
    }
    assert done == bind.value.Keys;
  }

  lemma BoundIs(bind: Option<map<string, Path>>, shared: Inputs, item: Json)
    ensures ElementInputs(bind, shared, item) ==
      if bind.None? then shared["item" := item] else shared + Bound(bind.value, item, bind.value.Keys)
    ensures bind.Some? ==> shared + Bound(bind.value, item, {}) == shared
  {
    hide ReadPath;
  }

  function Kept(node: Node, h: Handlers, path: seq<string>, shared: Inputs, item: Json): Outcome
    requires node.Map?
  {
    if node.each.None? then Answer(item)
    else Invoke(h, node.each.value, path, ElementInputs(node.bind, shared, item))
  }

  /** What one element of a map comes to once it starts: seeded, else judged, else answered or run. */
  function ElementResult(
      node: Node, h: Handlers, id: Id, i: nat, shared: Inputs, item: Json, elements: map<(Id, nat), Json>): MapPool.Result
    requires node.Map?
  {
    if (id, i) in elements then MapPool.Done(Answer(elements[(id, i)]))
    else
      var judged := if node.judge.None? then Keep else node.judge.value(shared["item" := item]);
      match judged
      case Throw(error) => MapPool.Done(Fault(error))
      case Drop => MapPool.Dropped
      case Keep => MapPool.Done(Kept(node, h, [id, Digits(i)], shared, item))
  }

  function SiteOf(node: Node, h: Handlers, id: Id, shared: Inputs, items: seq<Json>, elements: map<(Id, nat), Json>): MapPool.Site
    requires node.Map?
  {
    MapPool.Site(id,
      seq(|items|, i requires 0 <= i < |items| => ElementResult(node, h, id, i, shared, items[i], elements)),
      (set i: nat | 0 <= i < |items| && (id, i) in elements),
      node.collects, node.concurrency)
  }

  lemma SiteIsValid(node: Node, h: Handlers, id: Id, shared: Inputs, items: seq<Json>, elements: map<(Id, nat), Json>)
    requires node.Map?
    ensures MapPool.ValidSite(SiteOf(node, h, id, shared, items, elements))
  {
  }

  /** What a call or a map comes to over the values it reads. */
  function NodeOutcome(node: Node, h: Handlers, id: Id, values: Values, elements: map<(Id, nat), Json>): Outcome
    requires !node.Switch?
  {
    var inputs := ReadAll(node.inputs, values);
    if node.Call? then Invoke(h, node.handler, [id], inputs)
    else
      var over := ReadSource(node.over, values);
      if over.None? || !over.value.Arr? then Fault("map '" + id + "': over is not a list")
      else if node.limit.Some? && |over.value.items| > node.limit.value then
        Fault("map '" + id + "': " + Digits(|over.value.items|) + " elements, limit " + Digits(node.limit.value))
      else MapPool.MapOutcome(SiteOf(node, h, id, inputs, over.value.items, elements))
  }

  /** Where a switch sends the first node of its catch whose fault it caught. */
  function CaughtRoute(catches: seq<(Id, Id)>, broke: set<Id>): Option<Id> {
    if catches == [] then None
    else if catches[0].0 in broke then Some(catches[0].1)
    else CaughtRoute(catches[1..], broke)
  }

  function RuleRoute(rules: seq<Rule>, inputs: Inputs): Option<Id> {
    if rules == [] then None
    else if rules[0].holds(inputs) then Some(rules[0].to)
    else RuleRoute(rules[1..], inputs)
  }

  /** Where a switch routes: a caught fault's way, else the first rule that holds, else its fallback. */
  function RouteOf(node: Node, values: Values, broke: set<Id>): Id
    requires node.Switch?
  {
    var caught := CaughtRoute(node.catches, broke);
    var ruled := RuleRoute(node.rules, ReadAll(node.inputs, values));
    if caught.Some? then caught.value else if ruled.Some? then ruled.value else node.fallback
  }

  lemma {:induction false} CaughtRouteIsTarget(catches: seq<(Id, Id)>, broke: set<Id>)
    ensures CaughtRoute(catches, broke).Some? ==> CaughtRoute(catches, broke).value in CatchTargets(catches)
  {
    if catches != [] && catches[0].0 !in broke {
      CaughtRouteIsTarget(catches[1..], broke);
      var rest := CaughtRoute(catches[1..], broke);
      if rest.Some? {
        var i :| 0 <= i < |catches[1..]| && CatchTargets(catches[1..])[i] == rest.value;
        assert CatchTargets(catches)[i + 1] == rest.value;
      }
    } else if catches != [] {
      assert CatchTargets(catches)[0] == catches[0].1;
    }
  }

  lemma {:induction false} RuleRouteIsTarget(rules: seq<Rule>, inputs: Inputs)
    ensures RuleRoute(rules, inputs).Some? ==> RuleRoute(rules, inputs).value in RuleTargets(rules)
  {
    if rules != [] && !rules[0].holds(inputs) {
      RuleRouteIsTarget(rules[1..], inputs);
      var rest := RuleRoute(rules[1..], inputs);
      if rest.Some? {
        var i :| 0 <= i < |rules[1..]| && RuleTargets(rules[1..])[i] == rest.value;
        assert RuleTargets(rules)[i + 1] == rest.value;
      }
    } else if rules != [] {
      assert RuleTargets(rules)[0] == rules[0].to;
    }
  }

  lemma RouteIsTarget(node: Node, values: Values, broke: set<Id>)
    requires node.Switch?
    ensures RouteOf(node, values, broke) in TargetsOf(node)
  {
    CaughtRouteIsTarget(node.catches, broke);
    RuleRouteIsTarget(node.rules, ReadAll(node.inputs, values));
  }

  /** A node sees only the roots it reads. */
  lemma NodeOutcomeDependsOnRefs(node: Node, h: Handlers, id: Id, one: Values, other: Values, elements: map<(Id, nat), Json>)
    requires !node.Switch? && AgreeOn(NodeRefs(node), one, other)
    ensures NodeOutcome(node, h, id, one, elements) == NodeOutcome(node, h, id, other, elements)
  {
    ReadDependsOnRefs(Object(node.inputs), one, other);
    if node.Map? {
      ReadDependsOnRefs(node.over, one, other);
    }
  }

  lemma RouteDependsOnRefs(node: Node, one: Values, other: Values, broke: set<Id>)
    requires node.Switch? && AgreeOn(NodeRefs(node), one, other)
    ensures RouteOf(node, one, broke) == RouteOf(node, other, broke)
  {
    ReadDependsOnRefs(Object(node.inputs), one, other);
  }
}
