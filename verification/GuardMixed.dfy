/** Every guard of a graph, over what it takes and over what it makes, in whatever order the compiler finds them. */
module GuardsMixed {
  import opened Json
  import opened Sources
  import opened Outcomes
  import opened KernelSpec
  import opened Fates
  import opened Meaning
  import opened Guards
  import opened GuardSites
  import opened GuardWaits
  import opened GuardFates
  import opened GuardOwn
  import opened GuardTaken
  import opened GuardLaws
  import opened GuardsTogether
  import opened GuardAliases
  import opened GuardOrder

  // ---- the order of the nodes -------------------------------------------------------------------

  /** Two worlds but for the order their specs' nodes are written in, in which the same switches catch. */
  ghost predicate SameButOrder(one: World, other: World) {
    Alike(one.spec, other.spec) && one.rank == other.rank && one.handlers == other.handlers && one.supplied == other.supplied &&
    forall id :: CatcherOf(one.spec, id) == CatcherOf(other.spec, id)
  }

  lemma RoutersAlike(one: Spec, other: Spec, id: Id)
    requires Alike(one, other) && Listed(one) && Listed(other) && RoutedOnce(other)
    ensures RoutedOnce(one) && RouterOf(one, id) == RouterOf(other, id)
  {
    hide Listed, RoutesTo, RouterOf;
    assert RoutedOnce(one);
    if s :| s in one.nodes && RoutesTo(one.nodes[s], id) {
      RouterIs(one, s, id);
      RouterIs(other, s, id);
    } else {
      RouterNone(one, id);
      RouterNone(other, id);
    }
  }

  lemma WaitsAlike(one: Spec, other: Spec, id: Id)
    requires Alike(one, other) && Listed(one) && Listed(other) && RoutedOnce(other) && id in one.nodes
    ensures id in other.nodes && WaitsFor(one, id) == WaitsFor(other, id)
  {
    hide Listed, RoutedOnce, RouterOf, NodeRefs;
    RoutersAlike(one, other, id);
  }

  /** A world is as sound as one that differs in the order of its nodes, so they are listed. */
  lemma OrderIsSound(one: World, other: World)
    requires SameButOrder(one, other) && other.Sound() && Listed(one.spec)
    ensures one.Sound()
  {
    hide Listed, WaitsFor, CatcherOf, RoutesTo;
    RoutersAlike(one.spec, other.spec, "");
    forall id | id in one.spec.nodes ensures WaitsFor(one.spec, id) == WaitsFor(other.spec, id) {
      WaitsAlike(one.spec, other.spec, id);
    }
  }

  lemma {:induction false} FateAlike(one: World, other: World, id: Id)
    requires SameButOrder(one, other) && one.Sound() && other.Sound() && id in one.spec.nodes
    ensures id in other.spec.nodes && FateOf(one, id) == FateOf(other, id)
    decreases one.rank[id]
  {
    hide WellFormed, WaitsFor, FateOf, FatesBefore, Judge, CatcherOf;
    SoundIs(one);
    SoundIs(other);
    WaitsAlike(one.spec, other.spec, id);
    FateIsJudged(one, id);
    FateIsJudged(other, id);
    WaitsComeBefore(one, id);
    forall d | d in FatesBefore(one, id) ensures FatesBefore(one, id)[d] == FatesBefore(other, id)[d] {
      FateAlike(one, other, d);
    }
    assert FatesBefore(one, id) == FatesBefore(other, id);
    RoutersAlike(one.spec, other.spec, id);
    JudgeAlike(one, other, id, FatesBefore(one, id));
  }

  lemma SoundIs(w: World)
    requires w.Sound()
    ensures Listed(w.spec) && RoutedOnce(w.spec)
  {
    hide Listed, RoutedOnce, Ranked, TargetsExist;
  }

  lemma JudgeAlike(one: World, other: World, id: Id, fates: map<Id, Fate>)
    requires SameButOrder(one, other) && id in one.spec.nodes && RouterOf(one.spec, id) == RouterOf(other.spec, id)
    ensures id in other.spec.nodes && Judge(one, id, fates) == Judge(other, id, fates)
  {
    hide RouterOf, NodeOutcome, RouteOf;
    assert FateBroke(one, id, fates) == FateBroke(other, id, fates);
    assert forall d :: d in fates ==> (Meets(one.spec, id, d, fates[d]) <==> Meets(other.spec, id, d, fates[d]));
    hide CatcherOf, Meets, FateBroke, RootsSupplied;
  }

  lemma {:induction false} FirstFatedAlike(one: World, other: World, candidates: seq<Id>)
    requires SameButOrder(one, other) && one.Sound() && other.Sound()
    ensures FirstFated(one, candidates) == FirstFated(other, candidates)
    decreases |candidates|
  {
    hide WellFormed, FateOf, CatcherOf;
    if candidates != [] {
      FirstFatedAlike(one, other, candidates[1..]);
      if candidates[0] in one.spec.nodes {
        FateAlike(one, other, candidates[0]);
      }
    }
  }

  lemma EndsAlike(one: World, other: World, id: Id)
    requires SameButOrder(one, other) && one.Sound() && other.Sound() && id in one.spec.nodes
    ensures id in other.spec.nodes && (EndsRun(one, id) <==> EndsRun(other, id))
  {
    hide WellFormed, FateOf, CatcherOf;
    FateAlike(one, other, id);
    if CatcherOf(one.spec, id).Some? {
      CatcherIsThere(one.spec, id);
      FateAlike(one, other, CatcherOf(one.spec, id).value);
    }
  }

  lemma SameNodes(one: World, other: World)
    requires SameButOrder(one, other)
    ensures one.spec.nodes == other.spec.nodes && one.spec.output == other.spec.output && one.supplied == other.supplied
  {
    hide CatcherOf;
  }

  /** A spec's meaning is put together from what becomes of its nodes. */
  lemma MeansBy(one: World, other: World)
    requires one.Ranks() && other.Ranks() && one.spec.nodes == other.spec.nodes && one.spec.output == other.spec.output
    requires one.supplied == other.supplied && (Fails(one) <==> Fails(other))
    requires forall id :: id in one.spec.nodes ==> FateOf(one, id) == FateOf(other, id) && FateReport(one, id) == FateReport(other, id)
    requires one.spec.output.Some? ==> FirstFated(one, one.spec.output.value) == FirstFated(other, one.spec.output.value)
    ensures Means(one) == Means(other)
  {
    hide FateOf, Fails, FateReport, FirstFated, NodePaths;
    assert FateNeeds(one) == FateNeeds(other);
    hide FateNeeds;
    assert (map id | id in one.spec.nodes :: FateReport(one, id)) == map id | id in other.spec.nodes :: FateReport(other, id);
  }

  /** The order its nodes are written in changes nothing of what a spec means. */
  lemma MeansAlike(one: World, other: World)
    requires SameButOrder(one, other) && one.Sound() && other.Sound()
    ensures Means(one) == Means(other) && (Fails(one) <==> Fails(other))
    ensures forall id :: id in one.spec.nodes ==> FateOf(one, id) == FateOf(other, id) && (EndsRun(one, id) <==> EndsRun(other, id))
  {
    hide WellFormed, FateOf, CatcherOf, FirstFated, EndsRun, Means;
    SameNodes(one, other);
    forall id | id in one.spec.nodes
      ensures FateOf(one, id) == FateOf(other, id) && (EndsRun(one, id) <==> EndsRun(other, id))
      ensures FateReport(one, id) == FateReport(other, id)
    {
      FateAlike(one, other, id);
      EndsAlike(one, other, id);
    }
    if one.spec.output.Some? {
      FirstFatedAlike(one, other, one.spec.output.value);
    }
    MeansBy(one, other);
  }

  // ---- a made site beside the taken one ---------------------------------------------------------

  lemma StillFresh(w: World, taken: Guard, handlers: GuardHandlers, id: Id)
    requires w.Sound() && Takes(w, taken, handlers) && Unnamed(w.spec, id) && id !in FreshIds(taken)
    ensures Unnamed(Judged(w, taken, handlers).spec, id)
  {
    hide LowerWithOutput, Takes, WellFormed, NodeRefs, Named, CatchesKey, AddedIds, AddedNodes, RenamedNode;
    TakesAt(w, taken, handlers);
    OkIsFresh(taken);
    var spec := Judged(w, taken, handlers).spec;
    TakenAre(w, taken, handlers, id);
    AddedAreIts(taken, handlers, id);
    TakenOutput(w, taken, handlers);
    forall n | n in spec.nodes
      ensures id !in NodeRefs(spec.nodes[n]) && id !in Named(spec.nodes[n]) && !CatchesKey(spec.nodes[n], id)
    {
      TakenAre(w, taken, handlers, n);
      if n in w.spec.nodes {
        RenamedNodeRefs(w.spec.nodes[n]);
        RenamedRoutes(w.spec.nodes[n], id);
      } else {
        OwnReadsIn(w, taken, handlers, n);
        AddedCatch(taken, handlers, n, id);
      }
    }
  }

  /** What a guard over `in` adds reads nothing else that is authored, and names nothing. */
  lemma OwnReadsIn(w: World, taken: Guard, handlers: GuardHandlers, id: Id)
    requires w.Sound() && Takes(w, taken, handlers) && id in AddedIds(taken)
    ensures id in AddedNodes(taken, handlers)
    ensures NodeRefs(AddedNodes(taken, handlers)[id]) <= {IN} && Named(AddedNodes(taken, handlers)[id]) == {}
  {
    hide Takes, WellFormed, NodeRefs, AddedIds, AddedNodes, GuardNodes, OkNode, CheckNode, GuardMap, ViolatedNode, ViolatedId;
    TakesAt(w, taken, handlers);
    AddedTaken(taken, handlers, id);
    TakenNodes(taken, handlers, id);
    TakenReads(taken, handlers);
    MapReads(taken);
    if taken.arity.One? && id != OK && id != CHECK {
      TakenRefusalReads(taken, handlers, id);
    }
  }

  lemma MapReads(taken: Guard)
    ensures NodeRefs(GuardMap(IN, taken.nested)) == {IN} && Named(GuardMap(IN, taken.nested)) == {}
  {
    var none: map<string, Source> := map[];
    assert RefsOf(Object(none)) == {};
  }

  lemma StillPlaced(w: World, taken: Guard, handlers: GuardHandlers, made: Guard)
    requires w.Sound() && Takes(w, taken, handlers) && Placed(w, made, handlers) && Apart(made, taken)
    ensures Judged(w, taken, handlers).Sound() && Placed(Judged(w, taken, handlers), made, handlers)
  {
    hide LowerWithOutput, Takes, WellFormed, FreshIds, Unnamed, AddedIds, AddedNodes, Makes, Refuses, Nests, Placeless;
    TakesAt(w, taken, handlers);
    TakenIsSound(w, taken, handlers);
    TakenAre(w, taken, handlers, made.id);
    var w' := Judged(w, taken, handlers);
    forall id | id in FreshIds(made) ensures Unnamed(w'.spec, id) && id !in w'.supplied.values {
      StillFresh(w, taken, handlers, id);
    }
    assert forall name :: RunsBy(w'.spec, made.id, name) ==> RunsBy(w.spec, made.id, name);
  }

  /** What chooses a made site once `in` is guarded chose it before. */
  lemma StillClearOf(w: World, taken: Guard, handlers: GuardHandlers, made: Guard)
    requires w.Sound() && Takes(w, taken, handlers) && Judged(w, taken, handlers).Sound() && made.id in w.spec.nodes
    requires Clear(w, made)
    ensures made.id in Judged(w, taken, handlers).spec.nodes && Clear(Judged(w, taken, handlers), made)
  {
    hide LowerWithOutput, Takes, WellFormed, FateOf, AddedIds, AddedNodes, RoutesTo, CatcherOf, Unread, IsRefusal, CatchesKey;
    TakesAt(w, taken, handlers);
    TakenAre(w, taken, handlers, made.id);
    TakenSame(w, taken, handlers, made.id);
    TakenCatchers(w, taken, handlers, made.id);
    var w' := Judged(w, taken, handlers);
    forall r | r in w'.spec.nodes && Chose(w', r, made.id) ensures Unread(w'.spec, r) {
      FateSelects(w', r);
      TakenRoutesAre(w, taken, handlers, r, made.id);
      OwnRouteOwn(w, taken, handlers, made.id);
      TakenSame(w, taken, handlers, r);
      assert Chose(w, r, made.id);
      UnreadStill(w, taken, handlers, r);
    }
  }

  lemma OwnRouteOwn(w: World, taken: Guard, handlers: GuardHandlers, id: Id)
    requires Takes(w, taken, handlers) && id in w.spec.nodes
    ensures id != OK && (taken.arity.One? ==> !IsRefusal(Taking(taken), id))
  {
    hide Takes, AddedIds, IsRefusal;
    TakesAt(w, taken, handlers);
    AddedTaken(taken, handlers, id);
    if id in AddedIds(taken) {
      UnnamedAt(w, taken, handlers, id);
    }
  }

  lemma UnreadStill(w: World, taken: Guard, handlers: GuardHandlers, r: Id)
    requires w.Sound() && Takes(w, taken, handlers) && r in w.spec.nodes && Unread(w.spec, r)
    ensures Unread(Judged(w, taken, handlers).spec, r)
  {
    hide LowerWithOutput, Takes, WellFormed, NodeRefs, AddedIds, AddedNodes, RenamedNode, Named;
    TakesAt(w, taken, handlers);
    OwnRouteOwn(w, taken, handlers, r);
    InIsRoot(w);
    TakenOutput(w, taken, handlers);
    var spec := Judged(w, taken, handlers).spec;
    forall n | n in spec.nodes ensures r !in NodeRefs(spec.nodes[n]) {
      TakenAre(w, taken, handlers, n);
      if n in w.spec.nodes {
        RenamedNodeRefs(w.spec.nodes[n]);
      } else {
        OwnReadsIn(w, taken, handlers, n);
      }
    }
  }

  /** A made site's guard can be lowered once the value taken is guarded. */
  lemma StillGuardableThere(w: World, taken: Guard, handlers: GuardHandlers, made: Guard)
    requires Takes(w, taken, handlers) && Guardable(w, made, handlers) && Apart(made, taken)
    ensures Judged(w, taken, handlers).Sound() && Guardable(Judged(w, taken, handlers), made, handlers)
  {
    hide LowerWithOutput, Takes, WellFormed, Standing, Handled, Clear, Apart;
    TakesAt(w, taken, handlers);
    StandsAt(w, made);
    StillPlaced(w, taken, handlers, made);
    StillClearOf(w, taken, handlers, made);
  }

  /** Where the value taken breaks no rule, a made site's guard trips if it tripped. */
  lemma TripsThere(w: World, taken: Guard, handlers: GuardHandlers, made: Guard)
    requires w.Sound() && Takes(w, taken, handlers) && Judged(w, taken, handlers).Sound() && !TakenBreaks(w, taken)
    requires made.id in w.spec.nodes
    ensures made.id in Judged(w, taken, handlers).spec.nodes
    ensures Trips(Judged(w, taken, handlers), made) <==> Trips(w, made)
  {
    hide LowerWithOutput, Takes, WellFormed, FateOf, TakenBreaks, Holds, CatcherOf;
    TakesAt(w, taken, handlers);
    TakenFate(w, taken, handlers, made.id);
    TakenCatchers(w, taken, handlers, made.id);
  }

  /** What a made site's guard would say once the value taken is guarded it would have said before. */
  lemma SaysThere(w: World, taken: Guard, handlers: GuardHandlers, made: Guard, failure: Outcome)
    requires w.Sound() && Takes(w, taken, handlers) && Judged(w, taken, handlers).Sound() && made.id in w.spec.nodes
    requires made.id in Judged(w, taken, handlers).spec.nodes && Says(Judged(w, taken, handlers), made, failure)
    ensures Says(w, made, failure)
  {
    hide LowerWithOutput, Takes, WellFormed, FateOf, SaysOf, CatcherOf;
    TakesAt(w, taken, handlers);
    TakenSame(w, taken, handlers, made.id);
    TakenCatchers(w, taken, handlers, made.id);
  }

  // ---- every guard of a graph -------------------------------------------------------------------

  /** Every guard stands where it can be lowered, and no two at one site: so at most one of them over `in`. */
  ghost predicate AllPut(w: World, guards: seq<Guard>, handlers: GuardHandlers) {
    (forall i :: 0 <= i < |guards| ==>
      if guards[i].kind.Made? then Guardable(w, guards[i], handlers) else Takes(w, guards[i], handlers)) &&
    (forall i, j :: 0 <= i < j < |guards| ==> Apart(guards[i], guards[j]))
  }

  /** Where the guard over `in` stands, if there is one. */
  function TakenAt(guards: seq<Guard>): (at: Option<nat>)
    ensures at.Some? ==> at.value < |guards| && guards[at.value].kind.Taken?
    ensures at.None? ==> forall i :: 0 <= i < |guards| ==> guards[i].kind.Made?
  {
    if guards == [] then None
    else if guards[0].kind.Taken? then Some(0)
    else
      var rest := TakenAt(guards[1..]);
      assert forall i :: 0 < i < |guards| ==> guards[i] == guards[1..][i - 1];
      if rest.None? then None else Some(rest.value + 1)
  }

  /** The guards but the one over `in`. */
  function Others(guards: seq<Guard>, at: nat): seq<Guard>
    requires at < |guards|
  {
    guards[..at] + guards[at + 1..]
  }

  lemma OthersAreMade(w: World, guards: seq<Guard>, handlers: GuardHandlers, at: nat, i: nat)
    requires AllPut(w, guards, handlers) && at < |guards| && guards[at].kind.Taken? && i < |guards| && i != at
    ensures guards[i].kind.Made? && Guardable(w, guards[i], handlers) && Takes(w, guards[at], handlers)
    ensures Apart(guards[i], guards[at])
  {
    hide Guardable, Takes, FreshIds;
    if i < at {
      assert Apart(guards[i], guards[at]);
    } else {
      assert Apart(guards[at], guards[i]);
    }
    var one, other := guards[i], guards[at];
    TakesAt(w, other, handlers);
    OkIsFresh(other);
    if one.kind.Taken? {
      TakesAt(w, one, handlers);
      OkIsFresh(one);
    }
  }

  lemma OtherIs(guards: seq<Guard>, at: nat, i: nat) returns (k: nat)
    requires at < |guards| && i < |Others(guards, at)|
    ensures k < |guards| && k != at && Others(guards, at)[i] == guards[k] && (k == if i < at then i else i + 1)
  {
    k := if i < at then i else i + 1;
  }

  /** The others can be lowered once the value taken is guarded. */
  lemma OthersGuardable(w: World, guards: seq<Guard>, handlers: GuardHandlers, at: nat)
    requires w.Sound() && AllPut(w, guards, handlers) && at < |guards| && guards[at].kind.Taken?
    ensures Takes(w, guards[at], handlers) && guards[at].unproved != [] && Judged(w, guards[at], handlers).Sound()
    ensures AllGuardable(Judged(w, guards[at], handlers), Others(guards, at), handlers)
  {
    hide WellFormed, Guardable, Takes, LowerWithOutput, Apart, Others;
    assert Takes(w, guards[at], handlers);
    TakesAt(w, guards[at], handlers);
    TakenIsSound(w, guards[at], handlers);
    var w' := Judged(w, guards[at], handlers);
    forall i | 0 <= i < |Others(guards, at)| ensures Guardable(w', Others(guards, at)[i], handlers) {
      var k := OtherIs(guards, at, i);
      OthersAreMade(w, guards, handlers, at, k);
      StillGuardableThere(w, guards[at], handlers, guards[k]);
    }
    forall i, j | 0 <= i < j < |Others(guards, at)| ensures Apart(Others(guards, at)[i], Others(guards, at)[j]) {
      var k := OtherIs(guards, at, i);
      var l := OtherIs(guards, at, j);
      assert Apart(guards[k], guards[l]);
    }
  }

  lemma AllMade(w: World, guards: seq<Guard>, handlers: GuardHandlers)
    requires AllPut(w, guards, handlers) && TakenAt(guards).None?
    ensures AllGuardable(w, guards, handlers)
  {
    hide Guardable, Takes, Apart;
  }

  /** The spec the compiler lowers a graph to before any guard: with one over `in`, every read of it is of the judged value. */
  function Authored(spec: Spec, guards: seq<Guard>): Spec {
    if TakenAt(guards).Some? then RenamedSpec(spec) else spec
  }

  /** The guards one after another as the laws take them: the one over `in` first. */
  ghost function InTurn(w: World, guards: seq<Guard>, handlers: GuardHandlers): (w': World)
    requires w.Sound() && AllPut(w, guards, handlers)
    ensures w'.Sound()
  {
    hide AllPut, AllGuardable, Takes, Others, LowerWithOutput, WellFormed;
    match TakenAt(guards)
    case None =>
      AllMade(w, guards, handlers);
      LoweredAll(w, guards, handlers)
    case Some(at) =>
      OthersGuardable(w, guards, handlers, at);
      LoweredAll(Judged(w, guards[at], handlers), Others(guards, at), handlers)
  }

  /** The world once every guard is written into its spec, as the compiler writes them. */
  ghost function Guarded(w: World, guards: seq<Guard>, handlers: GuardHandlers): World
    requires w.Sound() && AllPut(w, guards, handlers)
  {
    World(LowerAll(Authored(w.spec, guards), guards, handlers), InTurn(w, guards, handlers).rank, w.handlers, w.supplied)
  }

  // ---- as the compiler writes them --------------------------------------------------------------

  lemma MadeFits(w: World, guard: Guard, handlers: GuardHandlers)
    requires Guardable(w, guard, handlers)
    ensures guard.kind.Made? && Fits(w.spec, guard)
  {
    hide Handled, Clear, NodeRefs, Named, CatchesKey, FreshIds;
  }

  lemma TakenFits(w: World, guard: Guard, handlers: GuardHandlers)
    requires Takes(w, guard, handlers)
    ensures guard.kind.Taken? && Fits(w.spec, guard)
  {
    hide Makes, Refuses, Nests, NodeRefs, Named, CatchesKey, FreshIds;
    forall id | id in FreshIds(guard) ensures Unnamed(w.spec, id) {
      AddedAreIts(guard, handlers, id);
    }
  }

  /** Renaming the readers of `in` takes no site from a guard: the same nodes are there, and the same ones are switches. */
  lemma RenamedFits(spec: Spec, guard: Guard)
    requires Fits(spec, guard)
    ensures Fits(RenamedSpec(spec), guard)
  {
    hide FreshIds;
  }

  lemma AllFitRenamed(w: World, guards: seq<Guard>, handlers: GuardHandlers)
    requires w.Ranks() && AllPut(w, guards, handlers)
    ensures AllFit(w.spec, guards) && AllFit(RenamedSpec(w.spec), guards)
  {
    hide Guardable, Takes, Apart, Fits, RenamedSpec;
    forall i | 0 <= i < |guards| ensures Fits(w.spec, guards[i]) && Fits(RenamedSpec(w.spec), guards[i]) {
      if guards[i].kind.Made? {
        MadeFits(w, guards[i], handlers);
      } else {
        TakenFits(w, guards[i], handlers);
      }
      RenamedFits(w.spec, guards[i]);
    }
  }

  lemma RenamedIsListed(w: World)
    requires w.Sound()
    ensures Listed(w.spec) && Listed(RenamedSpec(w.spec))
  {
    hide Ranked, RoutedOnce, TargetsExist, RenamedNode;
    ListedOnce(w.spec);
    ListedOnce(RenamedSpec(w.spec));
  }

  lemma LoweredAllKeeps(w: World, guards: seq<Guard>, handlers: GuardHandlers)
    requires w.Sound() && AllGuardable(w, guards, handlers)
    ensures LoweredAll(w, guards, handlers).handlers == w.handlers && LoweredAll(w, guards, handlers).supplied == w.supplied
    decreases |guards|
  {
    hide WellFormed, Guardable, AllGuardable, Apart, LowerWithOutput;
    if guards != [] {
      RestGuardable(w, guards, handlers);
      LoweredSupplied(w, guards[0], handlers);
      LoweredAllKeeps(Lowered(w, guards[0], handlers), guards[1..], handlers);
    }
  }

  /** Written as the compiler writes them, the guards come to what the laws speak of, but for the order of the nodes. */
  lemma GuardedAlike(w: World, guards: seq<Guard>, handlers: GuardHandlers)
    requires w.Sound() && AllPut(w, guards, handlers)
    ensures Guarded(w, guards, handlers).Sound() && SameButOrder(Guarded(w, guards, handlers), InTurn(w, guards, handlers))
    ensures AllLowerable(Authored(w.spec, guards), guards, handlers)
  {
    hide WellFormed, AllPut, AllGuardable, Takes, Others, LowerWithOutput, Listed, CatcherOf, Alike, AllFit, RenamedSpec, LowerAll, LoweredAll;
    AllFitRenamed(w, guards, handlers);
    RenamedIsListed(w);
    WrittenInOrder(Authored(w.spec, guards), guards, handlers);
    if TakenAt(guards).Some? {
      TakenWritten(w, guards, handlers, TakenAt(guards).value);
    } else {
      AllMade(w, guards, handlers);
      LoweredAllIsLowered(w, guards, handlers);
      LoweredAllKeeps(w, guards, handlers);
      AlikeItself(LowerAll(w.spec, guards, handlers));
    }
    OrderIsSound(Guarded(w, guards, handlers), InTurn(w, guards, handlers));
  }

  lemma TakenWritten(w: World, guards: seq<Guard>, handlers: GuardHandlers, at: nat)
    requires w.Sound() && AllPut(w, guards, handlers) && TakenAt(guards) == Some(at)
    requires Listed(LowerAll(RenamedSpec(w.spec), guards, handlers))
    requires forall id :: CatcherOf(LowerAll(RenamedSpec(w.spec), guards, handlers), id) == CatcherOf(RenamedSpec(w.spec), id)
    ensures SameButOrder(Guarded(w, guards, handlers), InTurn(w, guards, handlers))
  {
    hide WellFormed, AllPut, AllGuardable, Takes, LowerWithOutput, Listed, CatcherOf, Alike, AllFit, Fits, RenamedSpec, LowerAll, LoweredAll;
    var taken, others, renamed := guards[at], Others(guards, at), RenamedSpec(w.spec);
    OthersGuardable(w, guards, handlers, at);
    var judged := Judged(w, taken, handlers);
    LoweredAllIsLowered(judged, others, handlers);
    LoweredAllKeeps(judged, others, handlers);
    AllFitRenamed(w, guards, handlers);
    AtFits(w, guards, handlers, at);
    assert guards == guards[..at] + [taken] + guards[at + 1..];
    TakenFirstWritten(renamed, guards[..at], taken, guards[at + 1..], handlers);
    assert judged.spec == LowerWithOutput(renamed, taken, handlers);
    RenamedIsListed(w);
    SoundIs(judged);
    OthersFit(judged, others, handlers);
    WrittenInOrder(judged.spec, others, handlers);
    forall id ensures CatcherOf(judged.spec, id) == CatcherOf(renamed, id) {
      CatcherOn(renamed, taken, handlers, id);
    }
  }

  lemma AtFits(w: World, guards: seq<Guard>, handlers: GuardHandlers, at: nat)
    requires AllPut(w, guards, handlers) && TakenAt(guards) == Some(at) && AllFit(RenamedSpec(w.spec), guards)
    ensures AllFit(RenamedSpec(w.spec), guards[..at] + [guards[at]]) && Fits(RenamedSpec(w.spec), guards[at])
    ensures forall i :: 0 <= i < at ==> guards[i].kind.Made?
  {
    hide Guardable, Takes, Apart, Fits, RenamedSpec;
    assert guards[..at] + [guards[at]] == guards[..at + 1];
    forall i | 0 <= i < at ensures guards[i].kind.Made? {
      OthersAreMade(w, guards, handlers, at, i);
    }
  }

  lemma OthersFit(w: World, guards: seq<Guard>, handlers: GuardHandlers)
    requires w.Sound() && AllGuardable(w, guards, handlers)
    ensures AllFit(w.spec, guards)
  {
    hide WellFormed, Guardable, Apart, Fits, RenamedSpec;
    forall i | 0 <= i < |guards| ensures Fits(w.spec, guards[i]) {
      assert Guardable(w, guards[i], handlers);
      MadeFits(w, guards[i], handlers);
    }
  }

  // ---- the law ----------------------------------------------------------------------------------

  /** A guard trips: the value taken, or the one made, breaks a rule, or a caught fault is lost. */
  ghost predicate TripsHere(w: World, guard: Guard)
    requires w.Ranks()
  {
    if guard.kind.Taken? then TakenBreaks(w, guard) else guard.id in w.spec.nodes && Trips(w, guard)
  }

  ghost predicate AnyTripsHere(w: World, guards: seq<Guard>)
    requires w.Ranks()
  {
    exists i :: 0 <= i < |guards| && TripsHere(w, guards[i])
  }

  /** What a guard that trips says, of the value taken or of the node it guards. */
  ghost predicate SaysHere(w: World, guard: Guard, failure: Outcome)
    requires w.Ranks()
  {
    if guard.kind.Taken? then IN in w.supplied.values && SaysOf(guard, w.supplied.values[IN], failure)
    else guard.id in w.spec.nodes && Says(w, guard, failure)
  }

  /** A node ends the run with what some guard says. */
  ghost predicate ToldHere(w: World, id: Id, was: World, guards: seq<Guard>)
    requires w.Ranks() && was.Ranks()
  {
    id in w.spec.nodes && EndsRun(w, id) && FateOf(w, id).Broke? &&
    exists i :: 0 <= i < |guards| && SaysHere(was, guards[i], FateOf(w, id).failure)
  }

  /** What a blocked run needs once guarded. */
  function NeedsHere(w: World, guards: seq<Guard>, needs: set<(string, Path)>): set<(string, Path)> {
    if TakenAt(guards).Some? then TakenNeeds(w, guards[TakenAt(guards).value], needs) else needs
  }

  lemma OthersTripHere(w: World, guards: seq<Guard>, handlers: GuardHandlers, at: nat)
    requires w.Sound() && AllPut(w, guards, handlers) && at < |guards| && guards[at].kind.Taken?
    requires Takes(w, guards[at], handlers) && guards[at].unproved != [] && Judged(w, guards[at], handlers).Sound()
    requires !TakenBreaks(w, guards[at])
    ensures AnyTrips(Judged(w, guards[at], handlers), Others(guards, at)) <==> AnyTripsHere(w, guards)
  {
    hide WellFormed, AllPut, Takes, LowerWithOutput, Trips, TakenBreaks, Others;
    var w', others := Judged(w, guards[at], handlers), Others(guards, at);
    if i :| 0 <= i < |others| && TripsAt(w', others, i) {
      var k := OtherIs(guards, at, i);
      TripsThereAt(w, guards, handlers, at, k);
      assert TripsHere(w, guards[k]);
    }
    if k :| 0 <= k < |guards| && TripsHere(w, guards[k]) {
      var i := if k < at then k else k - 1;
      TripsThereAt(w, guards, handlers, at, k);
      OtherAt(guards, at, k);
      assert TripsAt(w', others, i);
    }
  }

  lemma OtherAt(guards: seq<Guard>, at: nat, k: nat)
    requires at < |guards| && k < |guards| && k != at
    ensures var i := if k < at then k else k - 1; 0 <= i < |Others(guards, at)| && Others(guards, at)[i] == guards[k]
  {
  }

  lemma TripsThereAt(w: World, guards: seq<Guard>, handlers: GuardHandlers, at: nat, k: nat)
    requires w.Sound() && AllPut(w, guards, handlers) && at < |guards| && guards[at].kind.Taken? && k < |guards| && k != at
    requires Takes(w, guards[at], handlers) && guards[at].unproved != [] && Judged(w, guards[at], handlers).Sound()
    requires !TakenBreaks(w, guards[at])
    ensures guards[k].kind.Made? && guards[k].id in w.spec.nodes && guards[k].id in Judged(w, guards[at], handlers).spec.nodes
    ensures Trips(Judged(w, guards[at], handlers), guards[k]) <==> Trips(w, guards[k])
  {
    hide WellFormed, AllPut, Takes, LowerWithOutput, Trips, TakenBreaks, Standing, Handled, Clear;
    OthersAreMade(w, guards, handlers, at, k);
    StandsAt(w, guards[k]);
    TripsThere(w, guards[at], handlers, guards[k]);
  }

  lemma MadeTripHere(w: World, guards: seq<Guard>)
    requires w.Ranks() && TakenAt(guards).None?
    ensures AnyTrips(w, guards) <==> AnyTripsHere(w, guards)
  {
    hide Trips;
    forall i | 0 <= i < |guards| ensures TripsAt(w, guards, i) <==> TripsHere(w, guards[i]) {}
  }

  /** Where some guard trips, the run ends with what a guard that trips says. */
  lemma TrippedIsTold(w: World, guards: seq<Guard>, handlers: GuardHandlers) returns (id: Id)
    requires w.Sound() && AllPut(w, guards, handlers) && AnyTripsHere(w, guards)
    ensures ToldHere(InTurn(w, guards, handlers), id, w, guards)
  {
    hide WellFormed, AllPut, AllGuardable, Takes, Others, LowerWithOutput, Holds, TripsHere, FateOf, EndsRun, LoweredAll;
    match TakenAt(guards)
    case None =>
      AllMade(w, guards, handlers);
      MadeTripHere(w, guards);
      id := TrippedRunIsNamed(w, guards, handlers);
      assert ToldHere(LoweredAll(w, guards, handlers), id, w, guards) by {
        hide Says;
        var i :| 0 <= i < |guards| && guards[i].id in w.spec.nodes && EndsSaying(LoweredAll(w, guards, handlers), id, w, guards[i]);
        assert SaysHere(w, guards[i], FateOf(LoweredAll(w, guards, handlers), id).failure);
      }
    case Some(at) =>
      OthersGuardable(w, guards, handlers, at);
      var judged, others := Judged(w, guards[at], handlers), Others(guards, at);
      var last := LoweredAll(judged, others, handlers);
      if TakenBreaks(w, guards[at]) {
        var first := TakenFails(w, guards[at], handlers);
        id := StillNamed(judged, others, handlers, first);
        assert ToldHere(last, id, w, guards) by {
          hide Told, FirstFailing, InputsAt;
          if SameOutcome(FateOf(judged, first).failure, FateOf(last, id).failure) {
            assert SaysHere(w, guards[at], FateOf(last, id).failure);
          } else {
            ToldThere(w, guards, handlers, at, last, id);
          }
        }
      } else {
        OthersTripHere(w, guards, handlers, at);
        id := TrippedRunIsNamed(judged, others, handlers);
        ToldThere(w, guards, handlers, at, last, id);
      }
  }

  lemma ToldThere(w: World, guards: seq<Guard>, handlers: GuardHandlers, at: nat, last: World, id: Id)
    requires w.Sound() && AllPut(w, guards, handlers) && at < |guards| && guards[at].kind.Taken? && last.Ranks()
    requires Takes(w, guards[at], handlers) && guards[at].unproved != [] && Judged(w, guards[at], handlers).Sound()
    requires Told(last, id, Judged(w, guards[at], handlers), Others(guards, at))
    ensures ToldHere(last, id, w, guards)
  {
    hide WellFormed, AllPut, Takes, Others, LowerWithOutput, FateOf, EndsRun, Says, Standing, Handled, Clear;
    var judged, others := Judged(w, guards[at], handlers), Others(guards, at);
    var i :| 0 <= i < |others| && others[i].id in judged.spec.nodes && EndsSaying(last, id, judged, others[i]);
    var k := OtherIs(guards, at, i);
    OthersAreMade(w, guards, handlers, at, k);
    StandsAt(w, guards[k]);
    SaysThere(w, guards[at], handlers, guards[k], FateOf(last, id).failure);
    assert SaysHere(w, guards[k], FateOf(last, id).failure);
  }

  /**
   * Every guard of a graph, over what it takes and what it makes, written in place in whatever order: where none trips
   * the spec comes to the same status and the same output from the same candidate, and a blocked run needs what it
   * needed, but of `in` what the guard reads; where one trips the run fails, with what a guard that trips has to say.
   */
  lemma GuardedMeans(w: World, guards: seq<Guard>, handlers: GuardHandlers)
    requires w.Sound() && AllPut(w, guards, handlers)
    ensures Guarded(w, guards, handlers).Sound()
    ensures !AnyTripsHere(w, guards) ==>
      var one, other := Means(w), Means(Guarded(w, guards, handlers));
      SameAnswer(other, one) && other.needs == if one.status.RunBlocked? then NeedsHere(w, guards, one.needs) else {}
    ensures AnyTripsHere(w, guards) ==>
      Fails(Guarded(w, guards, handlers)) && exists id :: ToldHere(Guarded(w, guards, handlers), id, w, guards)
  {
    hide WellFormed, AllPut, Means, FateOf, EndsRun, Fails, LowerAll, SameButOrder, InTurn, NeedsHere, AnyTripsHere, SaysHere;
    GuardedAlike(w, guards, handlers);
    var guarded, first := Guarded(w, guards, handlers), InTurn(w, guards, handlers);
    MeansAlike(guarded, first);
    if AnyTripsHere(w, guards) {
      var id := TrippedIsTold(w, guards, handlers);
      SameNodes(guarded, first);
      assert ToldHere(guarded, id, w, guards);
      FailsAt(guarded, id);
    } else {
      UntrippedMeans(w, guards, handlers);
    }
  }

  lemma UntrippedMeans(w: World, guards: seq<Guard>, handlers: GuardHandlers)
    requires w.Sound() && AllPut(w, guards, handlers) && !AnyTripsHere(w, guards)
    ensures var one, other := Means(w), Means(InTurn(w, guards, handlers));
      SameAnswer(other, one) && other.needs == if one.status.RunBlocked? then NeedsHere(w, guards, one.needs) else {}
  {
    hide WellFormed, AllPut, AllGuardable, Takes, Others, LowerWithOutput, Means, TakenBreaks, LoweredAll, TakenNeeds;
    NeedsWhenBlocked(w);
    match TakenAt(guards)
    case None =>
      AllMade(w, guards, handlers);
      MadeTripHere(w, guards);
      GuardsMean(w, guards, handlers);
    case Some(at) =>
      OthersGuardable(w, guards, handlers, at);
      assert !TripsHere(w, guards[at]);
      OthersTripHere(w, guards, handlers, at);
      TakenMeans(w, guards[at], handlers);
      GuardsMean(Judged(w, guards[at], handlers), Others(guards, at), handlers);
  }

  lemma NeedsWhenBlocked(w: World)
    requires w.Ranks()
    ensures !Means(w).status.RunBlocked? ==> Means(w).needs == {}
  {
    hide FateOf, Fails, FateReport, FirstFated, FateNeeds;
  }

  /** Exactly when all of them together preserve what a spec answers: when none trips, or the run fails as it is. */
  lemma GuardedMeansExactly(w: World, guards: seq<Guard>, handlers: GuardHandlers)
    requires w.Sound() && AllPut(w, guards, handlers)
    ensures Guarded(w, guards, handlers).Sound()
    ensures SameAnswer(Means(Guarded(w, guards, handlers)), Means(w)) <==> !AnyTripsHere(w, guards) || Fails(w)
  {
    hide WellFormed, AllPut, Means, FateOf, Fails, Guarded, AnyTripsHere, ToldHere;
    GuardedMeans(w, guards, handlers);
    if AnyTripsHere(w, guards) {
      FailedAnswers(Guarded(w, guards, handlers), w);
    }
  }

  lemma FailedAnswers(one: World, other: World)
    requires one.Ranks() && other.Ranks() && Fails(one)
    ensures SameAnswer(Means(one), Means(other)) <==> Fails(other)
  {
    hide FateOf, Fails, FateNeeds, FateReport, FirstFated;
  }

  /** Where none trips, every call and every map answers if it did, and with the value it did, under its own id. */
  lemma EveryAnswerIsKept(w: World, guards: seq<Guard>, handlers: GuardHandlers, id: Id)
    requires w.Sound() && AllPut(w, guards, handlers) && !AnyTripsHere(w, guards)
    requires id in w.spec.nodes && !w.spec.nodes[id].Switch?
    ensures Guarded(w, guards, handlers).Sound() && id in Guarded(w, guards, handlers).spec.nodes
    ensures Answered(Guarded(w, guards, handlers), id) <==> Answered(w, id)
    ensures Answered(w, id) ==> ValueOf(Guarded(w, guards, handlers), id) == ValueOf(w, id)
  {
    hide WellFormed, AllPut, AllGuardable, Takes, Others, LowerWithOutput, Means, FateOf, TakenBreaks, LoweredAll, LowerAll, SameButOrder;
    GuardedAlike(w, guards, handlers);
    var guarded, first := Guarded(w, guards, handlers), InTurn(w, guards, handlers);
    MeansAlike(guarded, first);
    SameNodes(guarded, first);
    match TakenAt(guards)
    case None =>
      AllMade(w, guards, handlers);
      MadeTripHere(w, guards);
      EveryAnswerStands(w, guards, handlers, id);
    case Some(at) =>
      OthersGuardable(w, guards, handlers, at);
      assert !TripsHere(w, guards[at]);
      OthersTripHere(w, guards, handlers, at);
      TakenFate(w, guards[at], handlers, id);
      TakenAre(w, guards[at], handlers, id);
      EveryAnswerStands(Judged(w, guards[at], handlers), Others(guards, at), handlers, id);
  }
}
