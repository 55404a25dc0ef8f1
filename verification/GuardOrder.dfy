/** Guards written in any order: where the taken site's stands among the others changes only the order of the nodes. */
module GuardOrder {
  import opened Json
  import opened Sources
  import opened KernelSpec
  import opened Fates
  import opened Guards
  import opened GuardSites
  import opened GuardWaits
  import opened GuardTaken
  import opened GuardAliases
  import opened GuardsTogether

  // ---- where a guard fits -----------------------------------------------------------------------

  /** A guard's site is there, a node that is no switch, and none of the ids it adds is, as a node or as a candidate. */
  ghost predicate Fits(spec: Spec, guard: Guard) {
    guard.unproved != [] && (guard.kind.Made? ==> guard.id in spec.nodes && !spec.nodes[guard.id].Switch?) &&
    forall id :: id in FreshIds(guard) ==> id !in spec.nodes && (spec.output.Some? ==> id !in spec.output.value)
  }

  lemma AddedAreIts(guard: Guard, handlers: GuardHandlers, id: Id)
    requires guard.unproved != []
    ensures id in AddedNodes(guard, handlers) <==> id in AddedIds(guard)
    ensures id in AddedIds(guard) <==> (id in FreshIds(guard) && (guard.kind.Made? ==> id != IdsOf(guard).made)) || (guard.kind.Made? && id == guard.id)
    ensures guard.kind.Made? ==> IdsOf(guard).made in FreshIds(guard) && guard.id !in FreshIds(guard)
  {
    hide AddedIds, AddedNodes, IdsOf, ViolatedId;
    if guard.kind.Made? {
      AddedAre(guard, handlers, id);
      CheckIsAdded(guard, handlers);
      OwnAreFresh(guard);
      MadeIsNotAdded(guard, handlers);
    } else {
      AddedTaken(guard, handlers, id);
    }
  }

  /** What a spec with one guard written into it holds. */
  lemma WrittenAre(spec: Spec, guard: Guard, handlers: GuardHandlers, id: Id)
    requires Fits(spec, guard)
    ensures Lowerable(spec, guard)
    ensures var nodes, made := LowerWithOutput(spec, guard, handlers).nodes, IdsOf(guard).made;
      (id in nodes <==> id in spec.nodes || id in FreshIds(guard)) &&
      (id in AddedIds(guard) ==> id in AddedNodes(guard, handlers) && id in nodes && nodes[id] == AddedNodes(guard, handlers)[id]) &&
      (guard.kind.Made? && id == made ==> id in nodes && nodes[id] == spec.nodes[guard.id]) &&
      (id in spec.nodes && id !in AddedIds(guard) ==>
        id in nodes && nodes[id] == if guard.kind.Made? then Rerouted(spec.nodes[id], guard.id, made) else spec.nodes[id])
  {
    hide AddedIds, AddedNodes, IdsOf, FreshIds, Rerouted, WithViolated;
    AddedAreIts(guard, handlers, id);
    if guard.kind.Made? {
      AddedAreIts(guard, handlers, IdsOf(guard).made);
      CallsStay(spec.nodes[guard.id], guard.id, IdsOf(guard).made);
    }
  }

  lemma OutputOn(spec: Spec, guard: Guard, handlers: GuardHandlers, id: Id)
    requires Fits(spec, guard) && Lowerable(spec, guard)
    ensures var output := LowerWithOutput(spec, guard, handlers).output;
      (output.Some? <==> spec.output.Some?) &&
      (output.Some? && id in output.value ==> id in spec.output.value || id in FreshIds(guard)) &&
      (guard.kind.Taken? ==> output == spec.output)
  {
    hide LowerOne, FreshIds, WithViolated;
    if spec.output.Some? {
      if guard.kind.Made? {
        ViolatedOutputs(spec.output.value, guard, id);
      } else {
        OkIsFresh(guard);
        NothingPut(spec.output.value, guard);
      }
    }
  }

  lemma OkIsFresh(guard: Guard)
    requires guard.kind.Taken? && guard.unproved != []
    ensures OK in FreshIds(guard)
  {
    hide AddedIds;
    AddedTaken(guard, GuardHandlers("", ""), OK);
  }

  /** A guard that fits fits once another is written, whose ids do not meet its own. */
  lemma FitsOn(spec: Spec, guard: Guard, handlers: GuardHandlers, other: Guard)
    requires Fits(spec, guard) && Fits(spec, other) && Apart(guard, other)
    ensures Lowerable(spec, guard) && Fits(LowerWithOutput(spec, guard, handlers), other)
  {
    hide AddedIds, AddedNodes, IdsOf, FreshIds, LowerWithOutput;
    var written := LowerWithOutput(spec, guard, handlers);
    forall id | id in FreshIds(other)
      ensures id !in written.nodes && (written.output.Some? ==> id !in written.output.value)
    {
      WrittenAre(spec, guard, handlers, id);
      OutputOn(spec, guard, handlers, id);
    }
    if other.kind.Made? {
      WrittenAre(spec, guard, handlers, other.id);
      AddedAreIts(guard, handlers, other.id);
      CallsStay(spec.nodes[other.id], guard.id, IdsOf(guard).made);
    }
  }

  ghost predicate AllFit(spec: Spec, guards: seq<Guard>) {
    (forall i :: 0 <= i < |guards| ==> Fits(spec, guards[i])) &&
    (forall i, j :: 0 <= i < j < |guards| ==> Apart(guards[i], guards[j]))
  }

  lemma RestFits(spec: Spec, guards: seq<Guard>, handlers: GuardHandlers)
    requires guards != [] && AllFit(spec, guards)
    ensures Fits(spec, guards[0]) && Lowerable(spec, guards[0])
    ensures AllFit(LowerWithOutput(spec, guards[0], handlers), guards[1..])
  {
    hide Fits, LowerWithOutput, Apart;
    assert Fits(spec, guards[0]);
    WrittenAre(spec, guards[0], handlers, "");
    forall i | 0 <= i < |guards[1..]| ensures Fits(LowerWithOutput(spec, guards[0], handlers), guards[1..][i]) {
      assert Apart(guards[0], guards[i + 1]);
      FitsOn(spec, guards[0], handlers, guards[i + 1]);
    }
  }

  // ---- the same nodes ---------------------------------------------------------------------------

  /** The same nodes and the same candidates, in whatever order the nodes are written. */
  ghost predicate Alike(one: Spec, other: Spec) {
    one.nodes == other.nodes && one.output == other.output
  }

  lemma LowerAlike(one: Spec, other: Spec, guard: Guard, handlers: GuardHandlers)
    requires Alike(one, other)
    ensures Lowerable(one, guard) <==> Lowerable(other, guard)
    ensures Lowerable(one, guard) ==> Alike(LowerWithOutput(one, guard, handlers), LowerWithOutput(other, guard, handlers))
  {
    hide AddedNodes, AddedIds, IdsOf, ReroutedAll, WithViolated;
  }

  lemma {:induction false} LowerAllAlike(one: Spec, other: Spec, guards: seq<Guard>, handlers: GuardHandlers)
    requires Alike(one, other)
    ensures Alike(LowerAll(one, guards, handlers), LowerAll(other, guards, handlers))
    decreases |guards|
  {
    hide Alike, LowerWithOutput;
    if guards != [] {
      LowerAlike(one, other, guards[0], handlers);
      LowerAllAlike(
        if Lowerable(one, guards[0]) then LowerWithOutput(one, guards[0], handlers) else one,
        if Lowerable(other, guards[0]) then LowerWithOutput(other, guards[0], handlers) else other,
        guards[1..], handlers);
    }
  }

  lemma ReroutedSame(node: Node, from: Id, to: Id)
    requires !RoutesTo(node, from)
    ensures Rerouted(node, from, to) == node
  {
    if node.Switch? {
      var targets := TargetsOf(node);
      assert forall i :: 0 <= i < |node.rules| ==> targets[i] == node.rules[i].to;
      assert targets[|node.rules|] == node.fallback;
      assert forall i :: 0 <= i < |node.catches| ==> targets[|node.rules| + 1 + i] == node.catches[i].1;
      assert SentRules(node.rules, from, to) == node.rules;
      assert SentCatches(node.catches, from, to) == node.catches;
    }
  }

  /** Nothing a guard over `in` adds routes to a made site, so writing that site's guard next leaves it as it is. */
  lemma TakenIsLeft(made: Guard, taken: Guard, handlers: GuardHandlers, id: Id)
    requires taken.kind.Taken? && taken.unproved != [] && id in AddedIds(taken) && made.id !in FreshIds(taken)
    ensures id in AddedNodes(taken, handlers)
    ensures Rerouted(AddedNodes(taken, handlers)[id], made.id, IdsOf(made).made) == AddedNodes(taken, handlers)[id]
  {
    hide AddedNodes, IdsOf, Rerouted, RoutesTo, FreshIds, ViolatedId, AddedIds;
    AddedRoute(taken, handlers, id, made.id);
    AddedTaken(taken, handlers, made.id);
    AddedAreIts(taken, handlers, made.id);
    ReroutedSame(AddedNodes(taken, handlers)[id], made.id, IdsOf(made).made);
  }

  /** A made site's guard and the taken site's may be written either way round. */
  lemma Swapped(spec: Spec, made: Guard, taken: Guard, handlers: GuardHandlers)
    requires made.kind.Made? && taken.kind.Taken? && Fits(spec, made) && Fits(spec, taken) && Apart(made, taken)
    ensures Lowerable(spec, made) && Lowerable(LowerWithOutput(spec, made, handlers), taken)
    ensures Lowerable(spec, taken) && Lowerable(LowerWithOutput(spec, taken, handlers), made)
    ensures Alike(LowerWithOutput(LowerWithOutput(spec, made, handlers), taken, handlers),
                  LowerWithOutput(LowerWithOutput(spec, taken, handlers), made, handlers))
  {
    hide Fits, AddedIds, AddedNodes, IdsOf, FreshIds, LowerWithOutput, Rerouted;
    FitsOn(spec, made, handlers, taken);
    ApartIsMutual(made, taken);
    FitsOn(spec, taken, handlers, made);
    var a := LowerWithOutput(spec, made, handlers);
    var b := LowerWithOutput(spec, taken, handlers);
    WrittenAre(a, taken, handlers, "");
    WrittenAre(b, made, handlers, "");
    var ab, ba := LowerWithOutput(a, taken, handlers), LowerWithOutput(b, made, handlers);
    forall id ensures (id in ab.nodes <==> id in ba.nodes) && (id in ab.nodes ==> ab.nodes[id] == ba.nodes[id]) {
      SwappedAt(spec, made, taken, handlers, id);
    }
    OutputSwaps(spec, made, taken, handlers);
  }

  lemma ApartIsMutual(one: Guard, other: Guard)
    requires Apart(one, other)
    ensures Apart(other, one)
  {
    hide FreshIds;
  }

  lemma OutputSwaps(spec: Spec, made: Guard, taken: Guard, handlers: GuardHandlers)
    requires made.kind.Made? && taken.kind.Taken? && Fits(spec, made) && Fits(spec, taken) && Apart(made, taken)
    requires Lowerable(spec, made) && Lowerable(LowerWithOutput(spec, made, handlers), taken)
    requires Lowerable(spec, taken) && Lowerable(LowerWithOutput(spec, taken, handlers), made)
    ensures LowerWithOutput(LowerWithOutput(spec, made, handlers), taken, handlers).output ==
      LowerWithOutput(LowerWithOutput(spec, taken, handlers), made, handlers).output
  {
    hide Fits, AddedIds, AddedNodes, IdsOf, FreshIds, LowerOne, WithViolated;
    FitsOn(spec, made, handlers, taken);
    OutputOn(spec, taken, handlers, "");
    OutputOn(LowerWithOutput(spec, made, handlers), taken, handlers, "");
  }

  lemma SwappedAt(spec: Spec, made: Guard, taken: Guard, handlers: GuardHandlers, id: Id)
    requires made.kind.Made? && taken.kind.Taken? && Fits(spec, made) && Fits(spec, taken) && Apart(made, taken)
    requires Lowerable(spec, made) && Lowerable(LowerWithOutput(spec, made, handlers), taken)
    requires Lowerable(spec, taken) && Lowerable(LowerWithOutput(spec, taken, handlers), made)
    ensures var ab := LowerWithOutput(LowerWithOutput(spec, made, handlers), taken, handlers);
      var ba := LowerWithOutput(LowerWithOutput(spec, taken, handlers), made, handlers);
      (id in ab.nodes <==> id in ba.nodes) && (id in ab.nodes ==> ab.nodes[id] == ba.nodes[id])
  {
    hide AddedIds, AddedNodes, IdsOf, FreshIds, LowerWithOutput, Rerouted;
    var a := LowerWithOutput(spec, made, handlers);
    var b := LowerWithOutput(spec, taken, handlers);
    FitsOn(spec, made, handlers, taken);
    ApartIsMutual(made, taken);
    FitsOn(spec, taken, handlers, made);
    WrittenAre(spec, made, handlers, id);
    WrittenAre(spec, taken, handlers, id);
    WrittenAre(spec, taken, handlers, made.id);
    WrittenAre(a, taken, handlers, id);
    WrittenAre(b, made, handlers, id);
    AddedAreIts(made, handlers, id);
    AddedAreIts(taken, handlers, id);
    AddedAreIts(taken, handlers, made.id);
    if id in AddedIds(taken) {
      TakenIsLeft(made, taken, handlers, id);
    }
  }

  /** Wherever the taken site's guard stands among made sites', it may as well stand first. */
  lemma {:induction false} TakenFirstWritten(spec: Spec, before: seq<Guard>, taken: Guard, after: seq<Guard>, handlers: GuardHandlers)
    requires taken.kind.Taken? && AllFit(spec, before + [taken]) && forall i :: 0 <= i < |before| ==> before[i].kind.Made?
    ensures Lowerable(spec, taken)
    ensures Alike(LowerAll(spec, before + [taken] + after, handlers),
                  LowerAll(LowerWithOutput(spec, taken, handlers), before + after, handlers))
    decreases |before|
  {
    hide Alike, Fits, LowerWithOutput, Apart;
    var guards := before + [taken];
    assert Fits(spec, guards[|before|]) && (before != [] ==> Fits(spec, guards[0]) && Apart(guards[0], guards[|before|]));
    hide AllFit;
    WrittenAre(spec, taken, handlers, "");
    if before == [] {
      assert before + [taken] + after == [taken] + after && ([taken] + after)[1..] == after && before + after == after;
      AlikeItself(LowerAll(LowerWithOutput(spec, taken, handlers), after, handlers));
    } else {
      var first, rest := before[0], before[1..];
      assert guards[0] == first && guards[1..] == rest + [taken];
      assert (before + [taken] + after)[0] == first && (before + [taken] + after)[1..] == rest + [taken] + after;
      assert (before + after)[0] == first && (before + after)[1..] == rest + after;
      RestFits(spec, guards, handlers);
      var next := LowerWithOutput(spec, first, handlers);
      TakenFirstWritten(next, rest, taken, after, handlers);
      Swapped(spec, first, taken, handlers);
      LowerAllAlike(LowerWithOutput(next, taken, handlers),
                    LowerWithOutput(LowerWithOutput(spec, taken, handlers), first, handlers), rest + after, handlers);
      AlikeTrans(LowerAll(spec, before + [taken] + after, handlers),
                 LowerAll(LowerWithOutput(next, taken, handlers), rest + after, handlers),
                 LowerAll(LowerWithOutput(spec, taken, handlers), before + after, handlers));
    }
  }

  lemma AlikeItself(spec: Spec)
    ensures Alike(spec, spec)
  {
  }

  lemma AlikeTrans(one: Spec, other: Spec, third: Spec)
    requires Alike(one, other) && Alike(other, third)
    ensures Alike(one, third)
  {
  }

  // ---- the order --------------------------------------------------------------------------------

  lemma ListedOn(spec: Spec, guard: Guard, handlers: GuardHandlers)
    requires Fits(spec, guard) && Listed(spec) && Lowerable(spec, guard)
    ensures Listed(LowerWithOutput(spec, guard, handlers))
  {
    hide Fits, AddedIds, AddedNodes, IdsOf, FreshIds, ReroutedAll, WithViolated;
    ListedOnce(spec);
    ListedOnce(LowerWithOutput(spec, guard, handlers));
    var written := LowerWithOutput(spec, guard, handlers);
    forall id ensures id in written.order <==> id in written.nodes {
      WrittenAre(spec, guard, handlers, id);
      AddedAreIts(guard, handlers, id);
    }
    OrderIsDistinct(spec, guard, handlers);
  }

  lemma OrderIsDistinct(spec: Spec, guard: Guard, handlers: GuardHandlers)
    requires Fits(spec, guard) && Listed(spec) && Lowerable(spec, guard)
    ensures var order := LowerWithOutput(spec, guard, handlers).order; forall i, j :: 0 <= i < j < |order| ==> order[i] != order[j]
  {
    hide AddedIds, AddedNodes, IdsOf, FreshIds, ReroutedAll, WithViolated;
    ListedOnce(spec);
    forall id | id in AddedIds(guard) ensures id in FreshIds(guard) || (guard.kind.Made? && id == guard.id) {
      AddedAreIts(guard, handlers, id);
    }
    if guard.kind.Made? {
      var made := IdsOf(guard).made;
      AddedAreIts(guard, handlers, made);
      FreshIsNotThere(spec, guard, made);
      assert made !in AddedIds(guard) && made !in spec.order;
      AddedDistinct(guard);
      Appended(spec.order, guard.id, made, AddedIds(guard), LowerWithOutput(spec, guard, handlers).order);
    } else {
      TakenAddedDistinct(guard);
      DistinctTogether(spec.order, AddedIds(guard));
    }
  }

  lemma Appended(order: seq<Id>, id: Id, made: Id, added: seq<Id>, all: seq<Id>)
    requires forall i, j :: 0 <= i < j < |order| ==> order[i] != order[j]
    requires forall i, j :: 0 <= i < j < |added| ==> added[i] != added[j]
    requires made !in order && made !in added && forall n :: n in added && n in order ==> n == id
    requires all == Without(order, id) + [made] + added
    ensures forall i, j :: 0 <= i < j < |all| ==> all[i] != all[j]
  {
    WithoutDistinct(order, id);
    DistinctTogether(Without(order, id), [made]);
    forall n | n in Without(order, id) + [made] ensures n !in added {
      assert n == made || (n in order && n != id);
    }
    DistinctTogether(Without(order, id) + [made], added);
  }

  /** What a guard adds catches nothing, and what was there catches what it caught. */
  lemma CatchesOn(spec: Spec, guard: Guard, handlers: GuardHandlers, s: Id, id: Id)
    requires Fits(spec, guard) && Lowerable(spec, guard) && s in LowerWithOutput(spec, guard, handlers).nodes
    ensures CatchesKey(LowerWithOutput(spec, guard, handlers).nodes[s], id) <==>
      s in spec.nodes && s !in AddedIds(guard) && CatchesKey(spec.nodes[s], id)
  {
    hide Fits, AddedIds, AddedNodes, IdsOf, FreshIds, LowerWithOutput, Rerouted, CatchesKey;
    WrittenAre(spec, guard, handlers, s);
    AddedAreIts(guard, handlers, s);
    if s in AddedIds(guard) {
      AddedCatch(guard, handlers, s, id);
    } else if s in spec.nodes {
      SentCatchesSame(spec.nodes[s], guard.id, IdsOf(guard).made, id);
    } else {
      FitsAt(spec, guard);
      CallsCatchNothing(spec.nodes[guard.id], id);
    }
  }

  lemma FitsAt(spec: Spec, guard: Guard)
    requires Fits(spec, guard)
    ensures guard.unproved != [] && (guard.kind.Made? ==> guard.id in spec.nodes && !spec.nodes[guard.id].Switch?)
  {
    hide FreshIds;
  }

  lemma AddedCatch(guard: Guard, handlers: GuardHandlers, s: Id, id: Id)
    requires guard.unproved != [] && s in AddedIds(guard)
    ensures s in AddedNodes(guard, handlers) && !CatchesKey(AddedNodes(guard, handlers)[s], id)
  {
    hide AddedIds, AddedNodes, RoutesTo, ViolatedId;
    if guard.kind.Taken? {
      AddedRoute(guard, handlers, s, id);
    } else {
      AddedAre(guard, handlers, s);
      if guard.arity.One? && s == IdsOf(guard).check {
        assert !CatchesKey(CheckNode(guard, IdsOf(guard)), id);
      } else {
        OthersRouteNowhere(guard, handlers, s, id);
        CallsCatchNothing(AddedNodes(guard, handlers)[s], id);
      }
    }
  }

  lemma {:induction false} CatcherInOn(spec: Spec, guard: Guard, handlers: GuardHandlers, order: seq<Id>, id: Id)
    requires Fits(spec, guard) && Lowerable(spec, guard) && forall s :: s in order ==> s in spec.nodes
    ensures CatcherIn(LowerWithOutput(spec, guard, handlers), if guard.kind.Made? then Without(order, guard.id) else order, id) ==
      CatcherIn(spec, order, id)
    decreases |order|
  {
    hide Fits, LowerWithOutput, CatchesKey, AddedIds, AddedNodes, IdsOf, FreshIds;
    if order != [] {
      var last := |order| - 1;
      var written := LowerWithOutput(spec, guard, handlers);
      CatcherInOn(spec, guard, handlers, order[..last], id);
      WrittenAre(spec, guard, handlers, order[last]);
      CatchesOn(spec, guard, handlers, order[last], id);
      NotAdded(spec, guard, handlers, order[last]);
      if guard.kind.Made? {
        WithoutLast(order, guard.id);
        var left := Without(order, guard.id);
        if order[last] == guard.id {
          FitsAt(spec, guard);
          CallsCatchNothing(spec.nodes[guard.id], id);
          assert left == Without(order[..last], guard.id);
        } else {
          assert left[..|left| - 1] == Without(order[..last], guard.id);
        }
      }
    }
  }

  lemma NotAdded(spec: Spec, guard: Guard, handlers: GuardHandlers, s: Id)
    requires Fits(spec, guard) && s in spec.nodes
    ensures s in AddedIds(guard) ==> guard.kind.Made? && s == guard.id
  {
    hide AddedIds, FreshIds, IdsOf;
    AddedAreIts(guard, handlers, s);
  }

  lemma CatcherOn(spec: Spec, guard: Guard, handlers: GuardHandlers, id: Id)
    requires Fits(spec, guard) && Lowerable(spec, guard) && Listed(spec)
    ensures CatcherOf(LowerWithOutput(spec, guard, handlers), id) == CatcherOf(spec, id)
  {
    hide Fits, CatchesKey, AddedIds, AddedNodes, IdsOf, FreshIds, ReroutedAll, WithViolated, CatcherIn;
    ListedOnce(spec);
    var written := LowerWithOutput(spec, guard, handlers);
    CatcherInOn(spec, guard, handlers, spec.order, id);
    var left := if guard.kind.Made? then Without(spec.order, guard.id) else spec.order;
    var tail := (if guard.kind.Made? then [IdsOf(guard).made] else []) + AddedIds(guard);
    assert written.order == left + tail;
    forall s | s in tail && s in written.nodes ensures !CatchesKey(written.nodes[s], id) {
      CatchesOn(spec, guard, handlers, s, id);
      AddedAreIts(guard, handlers, s);
      if s in FreshIds(guard) {
        FreshIsNotThere(spec, guard, s);
      }
    }
    CatcherInTail(written, left, tail, id);
  }

  lemma FreshIsNotThere(spec: Spec, guard: Guard, id: Id)
    requires Fits(spec, guard) && id in FreshIds(guard)
    ensures id !in spec.nodes
  {
    hide FreshIds;
  }

  /** However many guards are written, the nodes are listed once each, and faults are caught by whom they were. */
  lemma {:induction false} WrittenInOrder(spec: Spec, guards: seq<Guard>, handlers: GuardHandlers)
    requires AllFit(spec, guards) && Listed(spec)
    ensures Listed(LowerAll(spec, guards, handlers)) && AllLowerable(spec, guards, handlers)
    ensures forall id :: CatcherOf(LowerAll(spec, guards, handlers), id) == CatcherOf(spec, id)
    decreases |guards|
  {
    hide AllFit, Fits, LowerWithOutput, Listed, CatcherOf;
    if guards != [] {
      RestFits(spec, guards, handlers);
      var next := LowerWithOutput(spec, guards[0], handlers);
      ListedOn(spec, guards[0], handlers);
      forall id ensures CatcherOf(next, id) == CatcherOf(spec, id) {
        CatcherOn(spec, guards[0], handlers, id);
      }
      WrittenInOrder(next, guards[1..], handlers);
    }
  }
}
