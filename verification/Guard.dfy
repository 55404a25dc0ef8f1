/** What a guard is made of, and how it is written into a spec: in place, node by node. */
module Guards {
  import opened Json
  import opened Sources
  import opened Outcomes
  import opened KernelSpec

  /** A site makes its value at a node, or takes it as the graph's own `in`. */
  datatype SiteKind = Made | Taken

  datatype Arity = One | Many

  /** A rule a site was not proved to satisfy, over the fields it reads, and what its refusal says. */
  datatype Unproved = Unproved(holds: Inputs -> bool, message: string)

  /**
   * `id` is the read path of the value; `roots` are the fields its rules read; `nested` is the name a list site's
   * nested spec is registered and run under.
   */
  datatype Guard = Guard(
    kind: SiteKind, id: Id, arity: Arity, shape: string, unproved: seq<Unproved>, roots: set<string>, nested: string)

  datatype GuardIds = GuardIds(made: Id, check: Id, ok: Id, violated: Id)

  /** The handlers behind `make` and `refuse`. */
  datatype GuardHandlers = GuardHandlers(make: string, refuse: string)

  const INVARIANT := "invariant"

  function IdsOf(guard: Guard): GuardIds {
    if guard.kind.Taken? then GuardIds("in", "in:check", "in:ok", "in:violated")
    else GuardIds(guard.id + ":made", guard.id + ":check", guard.id, guard.id + ":violated")
  }

  /** Each rule's own refusal: the first has the frame's id, and the others theirs by number. */
  function ViolatedId(ids: GuardIds, at: nat): Id {
    if at == 0 then ids.violated else ids.violated + ":" + Digits(at + 1)
  }

  function ViolatedIds(ids: GuardIds, count: nat): seq<Id> {
    seq(count, at requires 0 <= at < count => ViolatedId(ids, at))
  }

  // ---- the nodes of a guard ---------------------------------------------------------------------

  /** Every rule holds. */
  predicate AllHold(unproved: seq<Unproved>, inputs: Inputs) {
    forall at :: 0 <= at < |unproved| ==> unproved[at].holds(inputs)
  }

  /** Whether one rule is what did not hold, and then its own refusal. */
  function FailedRule(unproved: seq<Unproved>, ids: GuardIds, at: nat): Rule
    requires at < |unproved|
  {
    Rule(inputs => !unproved[at].holds(inputs), ViolatedId(ids, at))
  }

  function FailedRules(unproved: seq<Unproved>, ids: GuardIds): seq<Rule>
    requires unproved != []
  {
    seq(|unproved| - 1, at requires 0 <= at < |unproved| - 1 => FailedRule(unproved, ids, at))
  }

  function PassRule(unproved: seq<Unproved>, ids: GuardIds): Rule {
    Rule(inputs => AllHold(unproved, inputs), ids.ok)
  }

  /** The switch on the rules: to the value where all hold, else to the refusal of the first that does not. */
  function CheckNode(guard: Guard, ids: GuardIds): Node
    requires guard.unproved != []
  {
    Switch(
      map root | root in guard.roots :: Ref(ids.made, [root]),
      [PassRule(guard.unproved, ids)] + FailedRules(guard.unproved, ids),
      ViolatedId(ids, |guard.unproved| - 1), [])
  }

  /** The call that answers the value once the rules held. */
  function OkNode(from: Id, handlers: GuardHandlers): Node {
    Call(handlers.make, map["value" := Ref(from, [])], {})
  }

  /** The call that refuses where a rule did not hold. */
  function ViolatedNode(one: Unproved, shape: string, handlers: GuardHandlers): Node {
    Call(handlers.refuse,
         map["reason" := Value(Some(Str(INVARIANT))), "message" := Value(Some(Str(one.message))),
             "type" := Value(Some(Str(shape)))],
         {})
  }

  function RefusalNodes(guard: Guard, ids: GuardIds, handlers: GuardHandlers, count: nat): map<Id, Node>
    requires count <= |guard.unproved|
  {
    if count == 0 then map[]
    else
      RefusalNodes(guard, ids, handlers, count - 1)[
        ViolatedId(ids, count - 1) := ViolatedNode(guard.unproved[count - 1], guard.shape, handlers)]
  }

  /** The nodes a guard of one value is. */
  function GuardNodes(guard: Guard, ids: GuardIds, handlers: GuardHandlers): map<Id, Node>
    requires guard.unproved != []
  {
    map[ids.check := CheckNode(guard, ids), ids.ok := OkNode(ids.made, handlers)] +
    RefusalNodes(guard, ids, handlers, |guard.unproved|)
  }

  /** The loops that fill the switch: an input for each field read, then a rule for each that may not hold but the last. */
  method BuildCheck(guard: Guard, ids: GuardIds) returns (node: Node)
    requires guard.unproved != []
    ensures node == CheckNode(guard, ids)
  {
    var inputs: map<string, Source> := map[];
    var left := guard.roots;
    while left != {}
      invariant left <= guard.roots
      invariant inputs == map root | root in guard.roots - left :: Ref(ids.made, [root])
      decreases |left|
    {
      var root :| root in left;
      inputs := inputs[root := Ref(ids.made, [root])];
      left := left - {root};
    }
    var failed: seq<Rule> := [];
    for at := 0 to |guard.unproved| - 1
      invariant |failed| == at && forall i :: 0 <= i < at ==> failed[i] == FailedRule(guard.unproved, ids, i)
    {
      failed := failed + [FailedRule(guard.unproved, ids, at)];
    }
    assert failed == FailedRules(guard.unproved, ids);
    return Switch(inputs, [PassRule(guard.unproved, ids)] + failed, ViolatedId(ids, |guard.unproved| - 1), []);
  }

  lemma RefusalMore(guard: Guard, ids: GuardIds, handlers: GuardHandlers, own: map<Id, Node>, at: nat)
    requires at < |guard.unproved|
    ensures own + RefusalNodes(guard, ids, handlers, at + 1) ==
      (own + RefusalNodes(guard, ids, handlers, at))[
        ViolatedId(ids, at) := ViolatedNode(guard.unproved[at], guard.shape, handlers)]
    ensures own + RefusalNodes(guard, ids, handlers, 0) == own
  {
    hide ViolatedId, ViolatedNode;
  }

  /** The record of nodes: the switch and the value, then each rule's refusal put in. */
  method BuildNodes(guard: Guard, ids: GuardIds, handlers: GuardHandlers) returns (nodes: map<Id, Node>)
    requires guard.unproved != []
    ensures nodes == GuardNodes(guard, ids, handlers)
  {
    hide CheckNode, OkNode, ViolatedId, ViolatedNode, RefusalNodes;
    var check := BuildCheck(guard, ids);
    nodes := map[ids.check := check, ids.ok := OkNode(ids.made, handlers)];
    ghost var own := nodes;
    RefusalMore(guard, ids, handlers, own, 0);
    for at := 0 to |guard.unproved|
      invariant nodes == own + RefusalNodes(guard, ids, handlers, at)
    {
      RefusalMore(guard, ids, handlers, own, at);
      nodes := nodes[ViolatedId(ids, at) := ViolatedNode(guard.unproved[at], guard.shape, handlers)];
    }
  }

  /** The map that runs each element of a list through the guard. */
  function GuardMap(from: Id, nested: string): Node {
    Map(Some(nested), Ref(from, []), map[], Some(map["in" := []]), false, None, None, None, {})
  }

  /** What one guard adds to a spec at its site, in the order it is written. */
  function AddedIds(guard: Guard): seq<Id> {
    var ids := IdsOf(guard);
    if guard.arity.Many? then [ids.ok] else [ids.check, ids.ok] + ViolatedIds(ids, |guard.unproved|)
  }

  function AddedNodes(guard: Guard, handlers: GuardHandlers): map<Id, Node>
    requires guard.unproved != []
  {
    var ids := IdsOf(guard);
    if guard.arity.Many? then map[ids.ok := GuardMap(ids.made, guard.nested)] else GuardNodes(guard, ids, handlers)
  }

  /** A list site's guard, as the nested spec one element runs through. */
  function GuardSpec(guard: Guard, handlers: GuardHandlers): Spec
    requires guard.unproved != []
  {
    var ids := GuardIds("in", "in:check", "in:ok", "in:violated");
    Spec(GuardNodes(guard, ids, handlers), [ids.check, ids.ok] + ViolatedIds(ids, |guard.unproved|),
         Some([ids.ok] + ViolatedIds(ids, |guard.unproved|)))
  }

  // ---- moving a made node aside -----------------------------------------------------------------

  function Sent(t: Id, from: Id, to: Id): Id {
    if t == from then to else t
  }

  function SentRules(rules: seq<Rule>, from: Id, to: Id): seq<Rule> {
    seq(|rules|, i requires 0 <= i < |rules| => rules[i].(to := Sent(rules[i].to, from, to)))
  }

  function SentCatches(catches: seq<(Id, Id)>, from: Id, to: Id): seq<(Id, Id)> {
    seq(|catches|, i requires 0 <= i < |catches| => (catches[i].0, Sent(catches[i].1, from, to)))
  }

  /** A switch's routes to a node, sent to another: its rules, its fallback, and where a fault it catches goes. */
  function Rerouted(node: Node, from: Id, to: Id): Node {
    if !node.Switch? then node
    else
      node.(rules := SentRules(node.rules, from, to), fallback := Sent(node.fallback, from, to),
            catches := SentCatches(node.catches, from, to))
  }

  function ReroutedAll(nodes: map<Id, Node>, from: Id, to: Id): map<Id, Node> {
    map id | id in nodes :: Rerouted(nodes[id], from, to)
  }

  function Without(order: seq<Id>, id: Id): (left: seq<Id>)
    ensures forall n :: n in left <==> n in order && n != id
  {
    if order == [] then [] else (if order[0] == id then [] else [order[0]]) + Without(order[1..], id)
  }

  /** A made node moves to its new id, and whatever routed it follows it there. */
  function MovedAside(spec: Spec, guard: Guard): Spec
    requires guard.id in spec.nodes
  {
    var made := IdsOf(guard).made;
    spec.(
      nodes := ReroutedAll((spec.nodes - {guard.id})[made := spec.nodes[guard.id]], guard.id, made),
      order := Without(spec.order, guard.id) + [made])
  }

  /** One guard written into a spec. */
  function LowerOne(spec: Spec, guard: Guard, handlers: GuardHandlers): Spec
    requires guard.unproved != [] && (guard.kind.Made? ==> guard.id in spec.nodes)
  {
    var moved := if guard.kind.Made? then MovedAside(spec, guard) else spec;
    moved.(nodes := moved.nodes + AddedNodes(guard, handlers), order := moved.order + AddedIds(guard))
  }

  /** The guard's refusals, after its value wherever the graph answered with it. */
  function WithViolated(output: seq<Id>, guard: Guard): seq<Id> {
    var ids := IdsOf(guard);
    if output == [] || guard.arity.Many? then output
    else
      [output[0]] + (if output[0] == ids.ok then ViolatedIds(ids, |guard.unproved|) else []) +
      WithViolated(output[1..], guard)
  }

  function LowerWithOutput(spec: Spec, guard: Guard, handlers: GuardHandlers): Spec
    requires guard.unproved != [] && (guard.kind.Made? ==> guard.id in spec.nodes)
  {
    LowerOne(spec, guard, handlers).(
      output := if spec.output.None? then None else Some(WithViolated(spec.output.value, guard)))
  }
}
