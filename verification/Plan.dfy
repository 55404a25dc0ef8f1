/** What the scheduler knows before anything runs: its tables, built in loops over the spec's nodes. */
module Plans {
  import opened Json
  import opened Sources
  import opened KernelSpec

  datatype Plan = Plan(
    routedBy: map<Id, Id>, dependencies: map<Id, set<Id>>, dependents: map<Id, seq<Id>>, catchers: map<Id, Id>)

  function Get(table: map<Id, Id>, id: Id): Option<Id> {
    if id in table then Some(table[id]) else None
  }

  function Waiting(table: map<Id, seq<Id>>, id: Id): seq<Id> {
    if id in table then table[id] else []
  }

  /** Each table says what the spec says. */
  ghost predicate IsPlanOf(plan: Plan, spec: Spec) {
    (forall id :: Get(plan.routedBy, id) == RouterOf(spec, id)) &&
    plan.dependencies.Keys == spec.nodes.Keys &&
    (forall id :: id in spec.nodes ==> plan.dependencies[id] == WaitsFor(spec, id)) &&
    (forall id :: Waiting(plan.dependents, id) == Dependents(spec, id)) &&
    (forall id :: Get(plan.catchers, id) == CatcherOf(spec, id))
  }

  /** Which switch routes each node: a later switch's word stands. */
  method RoutersOf(spec: Spec) returns (routedBy: map<Id, Id>)
    requires forall id :: id in spec.order ==> id in spec.nodes
    ensures forall t :: Get(routedBy, t) == RouterOf(spec, t)
  {
    routedBy := map[];
    for i := 0 to |spec.order|
      invariant forall t :: Get(routedBy, t) == RouterIn(spec, spec.order[..i], t)
    {
      var id := spec.order[i];
      ghost var before := routedBy;
      assert spec.order[..i + 1][..i] == spec.order[..i] && spec.order[..i + 1][i] == id;
      if spec.nodes[id].Switch? {
        var targets := TargetsOf(spec.nodes[id]);
        for j := 0 to |targets|
          invariant forall t :: Get(routedBy, t) == if t in targets[..j] then Some(id) else Get(before, t)
        {
          assert targets[..j + 1] == targets[..j] + [targets[j]];
          routedBy := routedBy[targets[j] := id];
        }
        assert targets[..|targets|] == targets;
      }
    }
    assert spec.order[..|spec.order|] == spec.order;
  }

  function Keys(catches: seq<(Id, Id)>): (keys: seq<Id>)
    ensures |keys| == |catches| && forall i :: 0 <= i < |keys| ==> keys[i] == catches[i].0
  {
    seq(|catches|, i requires 0 <= i < |catches| => catches[i].0)
  }

  /** Which switch catches each node's fault. */
  method CatchersOf(spec: Spec) returns (catchers: map<Id, Id>)
    requires forall id :: id in spec.order ==> id in spec.nodes
    ensures forall t :: Get(catchers, t) == CatcherOf(spec, t)
  {
    catchers := map[];
    for i := 0 to |spec.order|
      invariant forall t :: Get(catchers, t) == CatcherIn(spec, spec.order[..i], t)
    {
      var id := spec.order[i];
      ghost var before := catchers;
      assert spec.order[..i + 1][..i] == spec.order[..i] && spec.order[..i + 1][i] == id;
      if spec.nodes[id].Switch? {
        var keys := Keys(spec.nodes[id].catches);
        for j := 0 to |keys|
          invariant forall t :: Get(catchers, t) == if t in keys[..j] then Some(id) else Get(before, t)
        {
          assert keys[..j + 1] == keys[..j] + [keys[j]];
          catchers := catchers[keys[j] := id];
        }
        assert keys[..|keys|] == keys;
        assert forall t :: t in keys <==> CatchesKey(spec.nodes[id], t);
      }
    }
    assert spec.order[..|spec.order|] == spec.order;
  }

  /** What one node waits for: what it reads and names, the switch that routes it, and what it catches. */
  method Waits(spec: Spec, routedBy: map<Id, Id>, id: Id) returns (waits: set<Id>)
    requires id in spec.nodes && Get(routedBy, id) == RouterOf(spec, id)
    ensures waits == WaitsFor(spec, id)
  {
    var node := spec.nodes[id];
    waits := set ref | ref in NodeRefs(node) + Named(node) && ref !in PSEUDO && ref in spec.nodes;
    if id in routedBy {
      waits := waits + {routedBy[id]};
    }
    if node.Switch? {
      ghost var before := waits;
      var keys := Keys(node.catches);
      for j := 0 to |keys|
        invariant waits == before + set i | 0 <= i < j :: node.catches[i].0
      {
        waits := waits + {keys[j]};
      }
    }
  }

  function With(d: Id, waits: set<Id>, id: Id): seq<Id> {
    if d in waits then [id] else []
  }

  /** A node is added to those that wait for each node it waits for. */
  method AddTo(dependents: map<Id, seq<Id>>, waits: set<Id>, id: Id) returns (added: map<Id, seq<Id>>)
    ensures forall d :: Waiting(added, d) == Waiting(dependents, d) + With(d, waits, id)
  {
    added := dependents;
    var left := waits;
    while left != {}
      invariant left <= waits
      invariant forall d :: Waiting(added, d) == Waiting(dependents, d) + With(d, waits - left, id)
      decreases left
    {
      var d :| d in left;
      added := added[d := Waiting(added, d) + [id]];
      left := left - {d};
    }
  }

  lemma DependentsStep(spec: Spec, i: nat, d: Id)
    requires i < |spec.order| && spec.order[i] in spec.nodes
    ensures DependentsIn(spec, spec.order[..i + 1], d) ==
      DependentsIn(spec, spec.order[..i], d) + With(d, WaitsFor(spec, spec.order[i]), spec.order[i])
  {
    assert spec.order[..i + 1][..i] == spec.order[..i];
    hide WaitsFor;
  }

  /** The reverse of the dependencies: who waits for each node, in the order they are written in. */
  method Invert(spec: Spec, dependencies: map<Id, set<Id>>) returns (dependents: map<Id, seq<Id>>)
    requires forall id :: id in spec.order ==> id in spec.nodes
    requires dependencies.Keys == spec.nodes.Keys
    requires forall id :: id in spec.nodes ==> dependencies[id] == WaitsFor(spec, id)
    ensures forall d :: Waiting(dependents, d) == Dependents(spec, d)
  {
    hide WaitsFor, With;
    dependents := map[];
    for i := 0 to |spec.order|
      invariant forall d :: Waiting(dependents, d) == DependentsIn(spec, spec.order[..i], d)
    {
      var id := spec.order[i];
      forall d ensures DependentsIn(spec, spec.order[..i + 1], d) ==
          DependentsIn(spec, spec.order[..i], d) + With(d, WaitsFor(spec, id), id)
      {
        DependentsStep(spec, i, d);
      }
      dependents := AddTo(dependents, dependencies[id], id);
    }
    assert spec.order[..|spec.order|] == spec.order;
  }

  /** The routing, dependency and catching tables of a spec. */
  method PlanOf(spec: Spec) returns (plan: Plan)
    requires Listed(spec)
    ensures IsPlanOf(plan, spec)
  {
    hide WaitsFor, RouterOf, Dependents, CatcherOf, Listed;
    assert forall id :: id in spec.order <==> id in spec.nodes by { ListedOnce(spec); }
    var routedBy := RoutersOf(spec);
    var dependencies: map<Id, set<Id>> := map[];
    for i := 0 to |spec.order|
      invariant dependencies.Keys == set id | id in spec.order[..i]
      invariant forall id :: id in dependencies ==> id in spec.nodes && dependencies[id] == WaitsFor(spec, id)
    {
      var id := spec.order[i];
      var waits := Waits(spec, routedBy, id);
      dependencies := dependencies[id := waits];
    }
    assert spec.order[..|spec.order|] == spec.order;
    var dependents := Invert(spec, dependencies);
    var catchers := CatchersOf(spec);
    plan := Plan(routedBy, dependencies, dependents, catchers);
  }
}
