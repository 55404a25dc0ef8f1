/** A taken site: every read of `in` is renamed to the judged value, which the guard puts beside the caller's own. */
module GuardAliases {
  import opened Json
  import opened Sources
  import opened Outcomes
  import opened KernelSpec
  import opened Kernel
  import opened Fates
  import opened Guards
  import opened GuardSites
  import opened GuardWaits
  import opened GuardFates
  import opened GuardOwn
  import opened GuardLaws
  import opened GuardTaken
  import opened Meaning
  import opened Steps
  import MapPool

  // ---- the rename -------------------------------------------------------------------------------

  /** A root the compiler answers under another name. */
  function Alias(ref: string): string {
    if ref == IN then OK else ref
  }

  function Renamed(source: Source): Source
    decreases source, 1
  {
    match source
    case Ref(ref, path) => Ref(Alias(ref), path)
    case Value(value) => Value(value)
    case List(parts) => List(RenamedList(parts))
    case Concat(pieces) => Concat(RenamedPieces(pieces))
    case Object(members) => Object(map key | key in members :: Renamed(members[key]))
  }

  function RenamedList(parts: seq<Source>): seq<Source>
    decreases parts, 0
  {
    if parts == [] then [] else [Renamed(parts[0])] + RenamedList(parts[1..])
  }

  function RenamedPieces(pieces: seq<Piece>): seq<Piece>
    decreases pieces, 0
  {
    if pieces == [] then [] else [RenamedPiece(pieces[0])] + RenamedPieces(pieces[1..])
  }

  function RenamedPiece(piece: Piece): Piece
    decreases piece, 1
  {
    match piece
    case Text(text) => Text(text)
    case Hole(source) => Hole(Renamed(source))
  }

  function RenamedInputs(members: map<string, Source>): map<string, Source> {
    map key | key in members :: Renamed(members[key])
  }

  function RenamedNode(node: Node): Node {
    match node
    case Call(handler, inputs, after) => Call(handler, RenamedInputs(inputs), after)
    case Switch(inputs, rules, fallback, catches) => Switch(RenamedInputs(inputs), rules, fallback, catches)
    case Map(each, over, inputs, bind, collects, limit, concurrency, judge, after) =>
      Map(each, Renamed(over), RenamedInputs(inputs), bind, collects, limit, concurrency, judge, after)
  }

  /** Values that answer each root of some under its alias. */
  ghost predicate AliasAgree(refs: set<string>, values: Values, values': Values) {
    forall ref :: ref in refs ==> Lookup(values', Alias(ref)) == Lookup(values, ref)
  }

  lemma {:induction false} RenamedReads(source: Source, values: Values, values': Values)
    requires AliasAgree(RefsOf(source), values, values')
    ensures ReadSource(Renamed(source), values') == ReadSource(source, values)
    decreases source, 1
  {
    match source
    case Ref(ref, _) => assert ref in RefsOf(source);
    case Value(_) =>
    case List(parts) => RenamedListReads(parts, values, values');
    case Concat(pieces) => RenamedTextReads(pieces, values, values');
    case Object(members) =>
      var renamed := map key | key in members :: Renamed(members[key]);
      forall key | key in members ensures ReadSource(renamed[key], values') == ReadSource(members[key], values) {
        RenamedReads(members[key], values, values');
      }
      assert ReadAll(renamed, values') == ReadAll(members, values);
  }

  lemma {:induction false} RenamedListReads(parts: seq<Source>, values: Values, values': Values)
    requires AliasAgree(RefsOfList(parts), values, values')
    ensures ReadList(RenamedList(parts), values') == ReadList(parts, values)
    decreases parts, 0
  {
    if parts != [] {
      RenamedReads(parts[0], values, values');
      RenamedListReads(parts[1..], values, values');
      assert RenamedList(parts)[1..] == RenamedList(parts[1..]);
    }
  }

  lemma {:induction false} RenamedTextReads(pieces: seq<Piece>, values: Values, values': Values)
    requires AliasAgree(RefsOfPieces(pieces), values, values')
    ensures ReadText(RenamedPieces(pieces), values') == ReadText(pieces, values)
    decreases pieces, 0
  {
    if pieces != [] {
      RenamedPieceReads(pieces[0], values, values');
      RenamedTextReads(pieces[1..], values, values');
      assert RenamedPieces(pieces)[1..] == RenamedPieces(pieces[1..]);
    }
  }

  lemma {:induction false} RenamedPieceReads(piece: Piece, values: Values, values': Values)
    requires AliasAgree(RefsOfPiece(piece), values, values')
    ensures ReadPiece(RenamedPiece(piece), values') == ReadPiece(piece, values)
    decreases piece, 1
  {
    if piece.Hole? {
      RenamedReads(piece.source, values, values');
    }
  }

  /** What a renamed source reads: what it read, each under its alias. */
  ghost predicate Aliases(refs: set<string>, refs': set<string>) {
    (forall ref :: ref in refs ==> Alias(ref) in refs') && (forall ref' :: ref' in refs' ==> exists ref :: ref in refs && ref' == Alias(ref))
  }

  lemma AliasesJoin(a: set<string>, a': set<string>, b: set<string>, b': set<string>)
    requires Aliases(a, a') && Aliases(b, b')
    ensures Aliases(a + b, a' + b')
  {
    forall ref' | ref' in a' + b' ensures exists ref :: ref in a + b && ref' == Alias(ref) {
      if ref' in a' {
        var ref :| ref in a && ref' == Alias(ref);
        assert ref in a + b;
      } else {
        var ref :| ref in b && ref' == Alias(ref);
        assert ref in a + b;
      }
    }
  }

  lemma {:induction false} RenamedRefs(source: Source)
    ensures Aliases(RefsOf(source), RefsOf(Renamed(source)))
    decreases source, 1
  {
    match source
    case Ref(_, _) =>
    case Value(_) =>
    case List(parts) => RenamedListRefs(parts);
    case Concat(pieces) => RenamedTextRefs(pieces);
    case Object(members) =>
      forall key | key in members ensures Aliases(RefsOf(members[key]), RefsOf(Renamed(members[key]))) {
        RenamedRefs(members[key]);
      }
      RenamedMembersRefs(members);
  }

  lemma RenamedMembersRefs(members: map<string, Source>)
    requires forall key :: key in members ==> Aliases(RefsOf(members[key]), RefsOf(Renamed(members[key])))
    ensures Aliases(RefsOf(Object(members)), RefsOf(Object(RenamedInputs(members))))
  {
    var renamed := RenamedInputs(members);
    var refs, refs' := RefsOf(Object(members)), RefsOf(Object(renamed));
    forall ref | ref in refs ensures Alias(ref) in refs' {
      var key :| key in members && ref in RefsOf(members[key]);
      assert Alias(ref) in RefsOf(renamed[key]);
    }
    forall ref' | ref' in refs' ensures exists ref :: ref in refs && ref' == Alias(ref) {
      var key :| key in renamed && ref' in RefsOf(renamed[key]);
      var ref :| ref in RefsOf(members[key]) && ref' == Alias(ref);
      assert ref in refs;
    }
  }

  lemma {:induction false} RenamedListRefs(parts: seq<Source>)
    ensures Aliases(RefsOfList(parts), RefsOfList(RenamedList(parts)))
    decreases parts, 0
  {
    if parts != [] {
      RenamedRefs(parts[0]);
      RenamedListRefs(parts[1..]);
      assert RenamedList(parts)[1..] == RenamedList(parts[1..]);
      AliasesJoin(RefsOf(parts[0]), RefsOf(Renamed(parts[0])), RefsOfList(parts[1..]), RefsOfList(RenamedList(parts[1..])));
    }
  }

  lemma {:induction false} RenamedTextRefs(pieces: seq<Piece>)
    ensures Aliases(RefsOfPieces(pieces), RefsOfPieces(RenamedPieces(pieces)))
    decreases pieces, 0
  {
    if pieces != [] {
      RenamedPieceRefs(pieces[0]);
      RenamedTextRefs(pieces[1..]);
      assert RenamedPieces(pieces)[1..] == RenamedPieces(pieces[1..]);
      AliasesJoin(RefsOfPiece(pieces[0]), RefsOfPiece(RenamedPiece(pieces[0])),
                  RefsOfPieces(pieces[1..]), RefsOfPieces(RenamedPieces(pieces[1..])));
    }
  }

  lemma {:induction false} RenamedPieceRefs(piece: Piece)
    ensures Aliases(RefsOfPiece(piece), RefsOfPiece(RenamedPiece(piece)))
    decreases piece, 1
  {
    if piece.Hole? {
      RenamedRefs(piece.source);
    }
  }

  lemma RenamedNodeRefs(node: Node)
    ensures Aliases(NodeRefs(node), NodeRefs(RenamedNode(node))) && Named(RenamedNode(node)) == Named(node)
  {
    forall key | key in node.inputs ensures Aliases(RefsOf(node.inputs[key]), RefsOf(Renamed(node.inputs[key]))) {
      RenamedRefs(node.inputs[key]);
    }
    RenamedMembersRefs(node.inputs);
    if node.Map? {
      RenamedRefs(node.over);
      AliasesJoin(RefsOfAll(node.inputs), RefsOfAll(RenamedInputs(node.inputs)), RefsOf(node.over), RefsOf(Renamed(node.over)));
    } else {
      assert NodeRefs(node) == RefsOfAll(node.inputs) + {} && NodeRefs(node) == RefsOfAll(node.inputs);
      assert NodeRefs(RenamedNode(node)) == RefsOfAll(RenamedInputs(node.inputs));
    }
  }

  lemma RenamedSites(node: Node)
    ensures node.Map? ==> forall h, id, shared, items, elements ::
      SiteOf(RenamedNode(node), h, id, shared, items, elements) == SiteOf(node, h, id, shared, items, elements)
  {
    if node.Map? {
      forall h, id, shared, items, elements
        ensures SiteOf(RenamedNode(node), h, id, shared, items, elements) == SiteOf(node, h, id, shared, items, elements)
      {
        var one, other := SiteOf(RenamedNode(node), h, id, shared, items, elements), SiteOf(node, h, id, shared, items, elements);
        assert one.own == other.own;
      }
    }
  }

  /** A renamed node comes to what it came to, where the judged value is the one its `in` was. */
  lemma RenamedComes(w: World, w': World, id: Id, values: Values, values': Values, broke: set<Id>)
    requires id in w.spec.nodes && id in w'.spec.nodes && w'.spec.nodes[id] == RenamedNode(w.spec.nodes[id])
    requires w'.handlers == w.handlers && w'.supplied == w.supplied
    requires AliasAgree(NodeRefs(w.spec.nodes[id]), values, values')
    ensures Comes(w', id, values', broke) == Comes(w, id, values, broke)
  {
    hide NodeOutcome, RouteOf, NodeRefs, AliasAgree;
    var node := w.spec.nodes[id];
    if node.Switch? {
      RenamedRoute(node, values, values', broke);
    } else {
      RenamedOutcome(node, w.handlers, id, values, values', w.supplied.elements);
    }
  }

  lemma RenamedAll(node: Node, values: Values, values': Values)
    requires AliasAgree(NodeRefs(node), values, values')
    ensures ReadAll(RenamedNode(node).inputs, values') == ReadAll(node.inputs, values)
    ensures node.Map? ==> ReadSource(RenamedNode(node).over, values') == ReadSource(node.over, values)
  {
    RenamedReads(Object(node.inputs), values, values');
    assert Renamed(Object(node.inputs)) == Object(RenamedInputs(node.inputs));
    if node.Map? {
      RenamedReads(node.over, values, values');
    }
  }

  lemma RenamedRoute(node: Node, values: Values, values': Values, broke: set<Id>)
    requires node.Switch? && AliasAgree(NodeRefs(node), values, values')
    ensures RouteOf(RenamedNode(node), values', broke) == RouteOf(node, values, broke)
  {
    hide CaughtRoute, RuleRoute, NodeRefs, AliasAgree, ReadAll;
    RenamedAll(node, values, values');
  }

  lemma RenamedOutcome(node: Node, h: Handlers, id: Id, values: Values, values': Values, elements: map<(Id, nat), Json>)
    requires !node.Switch? && AliasAgree(NodeRefs(node), values, values')
    ensures NodeOutcome(RenamedNode(node), h, id, values', elements) == NodeOutcome(node, h, id, values, elements)
  {
    hide NodeRefs, AliasAgree, ReadAll, SiteOf, ReadSource, MapPool.MapOutcome;
    RenamedAll(node, values, values');
    RenamedSites(node);
  }

  // ---- the lowered spec -------------------------------------------------------------------------

  function RenamedSpec(spec: Spec): Spec {
    spec.(nodes := map id | id in spec.nodes :: RenamedNode(spec.nodes[id]))
  }

  /** A taken site's guard, and everything that reads `in` reading what it let through. */
  function Judged(w: World, guard: Guard, handlers: GuardHandlers): World
    requires w.Ranks() && guard.kind.Taken? && guard.unproved != []
  {
    var spec := LowerWithOutput(RenamedSpec(w.spec), guard, handlers);
    World(
      spec, map id | id in spec.nodes :: if id in w.spec.nodes then w.rank[id] + 2 else if id == CHECK then 0 else 1,
      w.handlers, w.supplied)
  }

  /** Where a guard over `in` may be lowered: nothing has or names its ids, and its handlers are the compiler's. */
  ghost predicate Takes(w: World, guard: Guard, handlers: GuardHandlers) {
    guard.kind.Taken? && guard.unproved != [] && guard.roots != {} &&
    (forall id {:trigger id in AddedIds(guard)} :: id in AddedIds(guard) ==>
      Unnamed(w.spec, id) && id !in w.supplied.values) &&
    Makes(w.handlers, handlers.make) && Refuses(w.handlers, handlers.refuse) &&
    (guard.arity.Many? ==> Nests(w.handlers, guard.nested, guard)) &&
    (forall i: nat :: (OK, i) !in w.supplied.elements)
  }

  lemma TakesAt(w: World, guard: Guard, handlers: GuardHandlers)
    requires Takes(w, guard, handlers)
    ensures guard.kind.Taken? && guard.unproved != [] && guard.roots != {}
  {
    hide AddedIds, Unnamed, Makes, Refuses, Nests;
  }

  lemma AddedTaken(guard: Guard, handlers: GuardHandlers, id: Id)
    requires guard.kind.Taken? && guard.unproved != []
    ensures id in AddedNodes(guard, handlers) <==> id in AddedIds(guard)
    ensures id in AddedIds(guard) <==> id == OK || (guard.arity.One? && (id == CHECK || IsRefusal(Taking(guard), id)))
    ensures id in AddedIds(guard) ==> id !in PSEUDO
    ensures guard.arity.One? ==> AddedNodes(guard, handlers) == GuardNodes(guard, IdsOf(Taking(guard)), handlers)
    ensures guard.arity.Many? ==> AddedNodes(guard, handlers) == map[OK := GuardMap(IN, guard.nested)]
    ensures OK in AddedIds(guard)
  {
    hide GuardNodes, GuardMap, ViolatedId;
    TakenNodes(guard, handlers, id);
    var ids := IdsOf(guard);
    assert ids == IdsOf(Taking(guard));
    forall at | 0 <= at < |guard.unproved| ensures ViolatedIds(ids, |guard.unproved|)[at] == ViolatedId(ids, at) {}
  }

  lemma UnnamedAt(w: World, guard: Guard, handlers: GuardHandlers, id: Id)
    requires Takes(w, guard, handlers) && id in AddedIds(guard)
    ensures Unnamed(w.spec, id) && id !in w.spec.nodes && id !in w.supplied.values && (w.spec.output.Some? ==> id !in w.spec.output.value)
    ensures forall n :: n in w.spec.nodes ==>
      id !in NodeRefs(w.spec.nodes[n]) && id !in Named(w.spec.nodes[n]) && !CatchesKey(w.spec.nodes[n], id)
  {
    hide AddedIds, Makes, Refuses, Nests, NodeRefs, Named, CatchesKey;
  }

  lemma TakenAre(w: World, guard: Guard, handlers: GuardHandlers, id: Id)
    requires w.Ranks() && Takes(w, guard, handlers)
    ensures var spec := Judged(w, guard, handlers).spec;
      (id in spec.nodes <==> id in w.spec.nodes || id in AddedIds(guard)) &&
      (id in w.spec.nodes ==> id !in AddedIds(guard) && spec.nodes[id] == RenamedNode(w.spec.nodes[id])) &&
      (id in AddedIds(guard) ==> id in AddedNodes(guard, handlers) && spec.nodes[id] == AddedNodes(guard, handlers)[id]) &&
      spec.order == w.spec.order + AddedIds(guard)
  {
    hide AddedIds, AddedNodes, Makes, Refuses, Nests, Unnamed, RenamedNode, WithViolated;
    TakesAt(w, guard, handlers);
    AddedTaken(guard, handlers, id);
    if id in AddedIds(guard) {
      UnnamedAt(w, guard, handlers, id);
    }
  }

  lemma RenamedRoutes(node: Node, t: Id)
    ensures RoutesTo(RenamedNode(node), t) <==> RoutesTo(node, t)
    ensures CatchesKey(RenamedNode(node), t) <==> CatchesKey(node, t)
    ensures Caught(RenamedNode(node)) == Caught(node)
  {
    hide Renamed;
  }

  lemma AddedRoute(guard: Guard, handlers: GuardHandlers, s: Id, t: Id)
    requires guard.kind.Taken? && guard.unproved != [] && s in AddedIds(guard)
    ensures s in AddedNodes(guard, handlers)
    ensures RoutesTo(AddedNodes(guard, handlers)[s], t) <==>
      guard.arity.One? && s == CHECK && (t == OK || IsRefusal(Taking(guard), t))
    ensures !CatchesKey(AddedNodes(guard, handlers)[s], t)
  {
    hide AddedNodes, AddedIds, GuardNodes, CheckNode, OkNode, ViolatedId, GuardMap;
    AddedTaken(guard, handlers, s);
    if guard.arity.One? {
      TakenNodes(guard, handlers, s);
      if s == CHECK {
        CheckRoutes(Taking(guard), t);
        TakenCheckCatches(guard, t);
      } else {
        TakenCallsRoute(guard, handlers, s, t);
        TakenCallsCatch(guard, handlers, s, t);
      }
    } else {
      ListRoutes(guard, t);
    }
  }

  lemma TakenCheckCatches(guard: Guard, t: Id)
    requires guard.unproved != []
    ensures !CatchesKey(CheckNode(Taking(guard), IdsOf(Taking(guard))), t)
  {
  }

  lemma TakenCallsCatch(guard: Guard, handlers: GuardHandlers, s: Id, t: Id)
    requires guard.unproved != [] && s in GuardNodes(guard, IdsOf(Taking(guard)), handlers) && s != CHECK
    ensures !CatchesKey(GuardNodes(guard, IdsOf(Taking(guard)), handlers)[s], t)
  {
    hide GuardNodes, ViolatedId;
    TakenNodes(guard, handlers, s);
    if s != OK {
      var at :| 0 <= at < |guard.unproved| && s == ViolatedId(IdsOf(Taking(guard)), at);
      TakenRefusal(guard, handlers, at);
    }
  }

  lemma ListRoutes(guard: Guard, t: Id)
    ensures !RoutesTo(GuardMap(IN, guard.nested), t) && !CatchesKey(GuardMap(IN, guard.nested), t)
  {
  }

  lemma TakenRoutesAre(w: World, guard: Guard, handlers: GuardHandlers, s: Id, t: Id)
    requires w.Sound() && Takes(w, guard, handlers) && s in Judged(w, guard, handlers).spec.nodes
    ensures var node := Judged(w, guard, handlers).spec.nodes[s];
      (RoutesTo(node, t) <==>
        if s in w.spec.nodes then RoutesTo(w.spec.nodes[s], t)
        else guard.arity.One? && s == CHECK && (t == OK || IsRefusal(Taking(guard), t))) &&
      (CatchesKey(node, t) <==> s in w.spec.nodes && CatchesKey(w.spec.nodes[s], t)) &&
      (s in w.spec.nodes && RoutesTo(w.spec.nodes[s], t) ==> t in w.spec.nodes && t !in AddedIds(guard))
  {
    hide AddedNodes, AddedIds, RoutesTo, CatchesKey, Takes, Judged, RenamedNode, Listed, RoutedOnce, Ranked;
    TakesAt(w, guard, handlers);
    TakenAre(w, guard, handlers, s);
    if s in w.spec.nodes {
      RenamedRoutes(w.spec.nodes[s], t);
      TakenAre(w, guard, handlers, t);
    } else {
      AddedRoute(guard, handlers, s, t);
    }
  }

  lemma TakenRoutesOnce(w: World, guard: Guard, handlers: GuardHandlers)
    requires w.Sound() && Takes(w, guard, handlers)
    ensures RoutedOnce(Judged(w, guard, handlers).spec) && TargetsExist(Judged(w, guard, handlers).spec)
  {
    hide AddedNodes, AddedIds, RoutesTo, CatchesKey, Takes, Judged, IsRefusal, Listed, Ranked;
    TakesAt(w, guard, handlers);
    var spec := Judged(w, guard, handlers).spec;
    forall s, s', t | s in spec.nodes && s' in spec.nodes && RoutesTo(spec.nodes[s], t) && RoutesTo(spec.nodes[s'], t)
      ensures s == s'
    {
      TakenRoutesAre(w, guard, handlers, s, t);
      TakenRoutesAre(w, guard, handlers, s', t);
      AddedTaken(guard, handlers, t);
    }
    forall s, t | s in spec.nodes && RoutesTo(spec.nodes[s], t) ensures t in spec.nodes {
      TakenRoutesAre(w, guard, handlers, s, t);
      TakenAre(w, guard, handlers, t);
      AddedTaken(guard, handlers, t);
    }
  }

  lemma TakenAddedDistinct(guard: Guard)
    requires guard.kind.Taken? && guard.unproved != []
    ensures forall i, j :: 0 <= i < j < |AddedIds(guard)| ==> AddedIds(guard)[i] != AddedIds(guard)[j]
  {
    hide ViolatedId;
    var ids := IdsOf(guard);
    assert ids == IdsOf(Taking(guard));
    forall i, j | 0 <= i < j < |AddedIds(guard)| ensures AddedIds(guard)[i] != AddedIds(guard)[j] {
      TakenDiffer(guard, if j >= 2 then j - 2 else 0);
      if i >= 2 && ViolatedId(ids, i - 2) == ViolatedId(ids, j - 2) {
        ViolatedDiffer(ids, i - 2, j - 2);
      }
    }
  }

  lemma TakenIsListed(w: World, guard: Guard, handlers: GuardHandlers)
    requires w.Sound() && Takes(w, guard, handlers)
    ensures Listed(Judged(w, guard, handlers).spec) && Judged(w, guard, handlers).spec.nodes.Keys !! PSEUDO
  {
    hide AddedNodes, AddedIds, Takes, Judged, RoutedOnce, Ranked, TargetsExist;
    ListedOnce(w.spec);
    TakesAt(w, guard, handlers);
    ListedOnce(Judged(w, guard, handlers).spec);
    TakenAddedDistinct(guard);
    var spec := Judged(w, guard, handlers).spec;
    forall id ensures (id in spec.order <==> id in spec.nodes) && (id in spec.nodes ==> id !in PSEUDO) {
      TakenAre(w, guard, handlers, id);
      AddedTaken(guard, handlers, id);
    }
    forall id | id in w.spec.order ensures id !in AddedIds(guard) {
      TakenAre(w, guard, handlers, id);
    }
    DistinctTogether(w.spec.order, AddedIds(guard));
    TakenAre(w, guard, handlers, OK);
  }

  lemma TakenRouters(w: World, guard: Guard, handlers: GuardHandlers, id: Id)
    requires w.Sound() && Takes(w, guard, handlers)
    ensures var spec := Judged(w, guard, handlers).spec;
      (id in w.spec.nodes ==> RouterOf(spec, id) == RouterOf(w.spec, id)) &&
      (guard.arity.Many? && id == OK ==> RouterOf(spec, id) == None)
  {
    hide AddedNodes, AddedIds, RoutesTo, CatchesKey, Takes, Judged, IsRefusal, RouterOf, Ranked, TargetsExist;
    TakesAt(w, guard, handlers);
    TakenRoutesOnce(w, guard, handlers);
    TakenIsListed(w, guard, handlers);
    var spec := Judged(w, guard, handlers).spec;
    AddedTaken(guard, handlers, id);
    TakenAre(w, guard, handlers, id);
    if id in w.spec.nodes {
      var router := RouterOf(w.spec, id);
      if router.Some? {
        TakenAre(w, guard, handlers, router.value);
        TakenRoutesAre(w, guard, handlers, router.value, id);
        RouterIs(spec, router.value, id);
      } else {
        RouterRoutes(w.spec, id);
        forall s | s in spec.nodes ensures !RoutesTo(spec.nodes[s], id) {
          TakenRoutesAre(w, guard, handlers, s, id);
        }
        RouterNone(spec, id);
      }
    } else if guard.arity.Many? && id == OK {
      forall s | s in spec.nodes ensures !RoutesTo(spec.nodes[s], id) {
        TakenRoutesAre(w, guard, handlers, s, id);
      }
      RouterNone(spec, id);
    }
  }

  lemma {:induction false} CatcherInRenamed(w: World, guard: Guard, handlers: GuardHandlers, order: seq<Id>, id: Id)
    requires w.Sound() && Takes(w, guard, handlers) && forall s :: s in order ==> s in w.spec.nodes
    ensures CatcherIn(Judged(w, guard, handlers).spec, order, id) == CatcherIn(w.spec, order, id)
    decreases |order|
  {
    hide Takes, Judged, CatchesKey, WellFormed, AddedIds, AddedNodes;
    TakesAt(w, guard, handlers);
    if order != [] {
      var last := |order| - 1;
      CatcherInRenamed(w, guard, handlers, order[..last], id);
      TakenAre(w, guard, handlers, order[last]);
      TakenRoutesAre(w, guard, handlers, order[last], id);
    }
  }

  lemma TakenCatchers(w: World, guard: Guard, handlers: GuardHandlers, id: Id)
    requires w.Sound() && Takes(w, guard, handlers)
    ensures CatcherOf(Judged(w, guard, handlers).spec, id) == CatcherOf(w.spec, id)
    ensures id in AddedIds(guard) ==> CatcherOf(w.spec, id) == None
  {
    hide Takes, Judged, CatchesKey, AddedIds, AddedNodes, CatcherIn, Ranked, RoutedOnce, TargetsExist;
    ListedOnce(w.spec);
    TakesAt(w, guard, handlers);
    var spec := Judged(w, guard, handlers).spec;
    TakenAre(w, guard, handlers, id);
    forall s | s in AddedIds(guard) && s in spec.nodes ensures !CatchesKey(spec.nodes[s], id) {
      TakenAre(w, guard, handlers, s);
      TakenRoutesAre(w, guard, handlers, s, id);
    }
    CatcherInTail(spec, w.spec.order, AddedIds(guard), id);
    CatcherInRenamed(w, guard, handlers, w.spec.order, id);
    if id in AddedIds(guard) {
      UnnamedAt(w, guard, handlers, id);
      var catcher := CatcherOf(w.spec, id);
    }
  }

  // ---- waits ------------------------------------------------------------------------------------

  /** What was there waits for what it waited for, and for the judged value where it read `in`. */
  lemma TakenThereWaits(w: World, guard: Guard, handlers: GuardHandlers, id: Id)
    requires w.Sound() && Takes(w, guard, handlers) && id in w.spec.nodes
    ensures id in Judged(w, guard, handlers).spec.nodes
    ensures WaitsFor(Judged(w, guard, handlers).spec, id) ==
      WaitsFor(w.spec, id) + if IN in NodeRefs(w.spec.nodes[id]) then {OK} else {}
  {
    hide Takes, Judged, AddedIds, AddedNodes, WaitsFor, RouterOf, NodeRefs, Named, Caught, RenamedNode, Ranked, RoutedOnce, TargetsExist, Listed, Reads;
    TakesAt(w, guard, handlers);
    var spec := Judged(w, guard, handlers).spec;
    TakenAre(w, guard, handlers, id);
    WaitsAre(spec, id);
    WaitsAre(w.spec, id);
    TakenRouters(w, guard, handlers, id);
    RenamedRoutes(w.spec.nodes[id], id);
    TakenThereReads(w, guard, handlers, id);
  }

  lemma TakenThereReads(w: World, guard: Guard, handlers: GuardHandlers, id: Id)
    requires w.Sound() && Takes(w, guard, handlers) && id in w.spec.nodes
    ensures Reads(Judged(w, guard, handlers).spec, RenamedNode(w.spec.nodes[id])) ==
      Reads(w.spec, w.spec.nodes[id]) + if IN in NodeRefs(w.spec.nodes[id]) then {OK} else {}
  {
    hide Takes, Judged, AddedIds, AddedNodes, NodeRefs, Named, RenamedNode, Ranked, RoutedOnce, TargetsExist, Listed;
    TakesAt(w, guard, handlers);
    var spec, node := Judged(w, guard, handlers).spec, w.spec.nodes[id];
    RenamedNodeRefs(node);
    AddedTaken(guard, handlers, OK);
    TakenAre(w, guard, handlers, OK);
    UnnamedAt(w, guard, handlers, OK);
    assert IN in PSEUDO;
    forall ref ensures ref in Reads(spec, RenamedNode(node)) <==>
        ref in Reads(w.spec, node) || (ref == OK && IN in NodeRefs(node))
    {
      TakenAre(w, guard, handlers, ref);
      if ref in AddedIds(guard) {
        UnnamedAt(w, guard, handlers, ref);
      }
    }
  }

  lemma TakenListWaits(w: World, guard: Guard, handlers: GuardHandlers)
    requires w.Sound() && Takes(w, guard, handlers) && guard.arity.Many?
    ensures OK in Judged(w, guard, handlers).spec.nodes
    ensures WaitsFor(Judged(w, guard, handlers).spec, OK) == {}
    ensures NodeRefs(Judged(w, guard, handlers).spec.nodes[OK]) == {IN}
  {
    hide Takes, Judged, AddedIds, WaitsFor, RouterOf, NodeRefs, Named, Caught, GuardMap, Ranked, RoutedOnce, TargetsExist, Listed;
    TakesAt(w, guard, handlers);
    AddedTaken(guard, handlers, OK);
    TakenAre(w, guard, handlers, OK);
    TakenRouters(w, guard, handlers, OK);
    WaitsAre(Judged(w, guard, handlers).spec, OK);
    OkReads(guard, handlers);
    OkCatches(guard, handlers);
    assert IN in PSEUDO;
  }

  lemma TakenHosts(w: World, guard: Guard, handlers: GuardHandlers)
    requires w.Sound() && Takes(w, guard, handlers) && guard.arity.One?
    ensures Hosts(Judged(w, guard, handlers), guard, handlers)
  {
    hide LowerWithOutput, AddedIds, GuardNodes, RoutesTo, CatcherOf, Makes, Refuses, Nests, WellFormed, Unnamed, IsRefusal;
    var w' := Judged(w, guard, handlers);
    forall id | id in GuardNodes(guard, IdsOf(Taking(guard)), handlers)
      ensures id in w'.spec.nodes && w'.spec.nodes[id] == GuardNodes(guard, IdsOf(Taking(guard)), handlers)[id]
      ensures CatcherOf(w'.spec, id) == None && id in AddedIds(guard)
      ensures forall s :: s in w'.spec.nodes && s !in GuardNodes(guard, IdsOf(Taking(guard)), handlers) ==> !RoutesTo(w'.spec.nodes[s], id)
    {
      AddedTaken(guard, handlers, id);
      TakenAre(w, guard, handlers, id);
      TakenCatchers(w, guard, handlers, id);
      forall s | s in w'.spec.nodes && s !in GuardNodes(guard, IdsOf(Taking(guard)), handlers)
        ensures !RoutesTo(w'.spec.nodes[s], id)
      {
        AddedTaken(guard, handlers, s);
        TakenAre(w, guard, handlers, s);
        TakenRoutesAre(w, guard, handlers, s, id);
      }
    }
  }

  lemma TakenOwnWaits(w: World, guard: Guard, handlers: GuardHandlers, id: Id, d: Id)
    requires w.Sound() && Takes(w, guard, handlers) && id in AddedIds(guard) && id in Judged(w, guard, handlers).spec.nodes
    requires d in WaitsFor(Judged(w, guard, handlers).spec, id)
    ensures d == CHECK && id != CHECK && d in AddedIds(guard)
  {
    hide Takes, Judged, AddedIds, AddedNodes, GuardNodes, WaitsFor, RouterOf, NodeRefs, Named, Caught, CheckNode, OkNode, ViolatedId, ViolatedNode, RoutesTo, IsRefusal, Ranked;
    TakesAt(w, guard, handlers);
    var spec := Judged(w, guard, handlers).spec;
    AddedTaken(guard, handlers, id);
    AddedTaken(guard, handlers, CHECK);
    TakenAre(w, guard, handlers, id);
    WaitsAre(spec, id);
    if guard.arity.Many? {
      TakenListWaits(w, guard, handlers);
    } else {
      TakenNodes(guard, handlers, id);
      assert (var router := RouterOf(Judged(w, guard, handlers).spec, id);
            router.Some? ==> router.value == CHECK && id != CHECK) by {
        hide WellFormed;
        TakesAt(w, guard, handlers);
        var router := RouterOf(Judged(w, guard, handlers).spec, id);
        if router.Some? {
          TakenRoutesAre(w, guard, handlers, router.value, id);
          TakenAre(w, guard, handlers, id);
          assert IsRefusal(Taking(guard), id) ==> id != CHECK && id != OK by {
            TakenNodes(guard, handlers, id);
          }
        }
      }
      TakenReads(guard, handlers);
      assert IN in PSEUDO;
      if id != CHECK && id != OK {
        TakenRefusalReads(guard, handlers, id);
      }
    }
  }

  lemma TakenRefusalReads(guard: Guard, handlers: GuardHandlers, id: Id)
    requires guard.unproved != [] && IsRefusal(Taking(guard), id)
    ensures var nodes := GuardNodes(guard, IdsOf(Taking(guard)), handlers);
      id in nodes && NodeRefs(nodes[id]) == {} && Named(nodes[id]) == {} && Caught(nodes[id]) == {}
  {
    hide GuardNodes, ViolatedId, ViolatedNode, NodeRefs, Named, Caught;
    var at :| 0 <= at < |guard.unproved| && id == ViolatedId(IdsOf(Taking(guard)), at);
    TakenRefusal(guard, handlers, at);
    RefusalReads(guard.unproved[at], guard.shape, handlers);
    RefusalCatches(guard.unproved[at], guard.shape, handlers);
  }

  lemma TakenIsSound(w: World, guard: Guard, handlers: GuardHandlers)
    requires w.Sound() && Takes(w, guard, handlers)
    ensures Judged(w, guard, handlers).Sound()
  {
    hide Takes, LowerWithOutput, AddedIds, AddedNodes, WaitsFor, RoutedOnce, TargetsExist, Listed;
    TakesAt(w, guard, handlers);
    TakenIsListed(w, guard, handlers);
    TakenRoutesOnce(w, guard, handlers);
    var w' := Judged(w, guard, handlers);
    forall id, d | id in w'.spec.nodes && d in WaitsFor(w'.spec, id) ensures d in w'.spec.nodes && w'.rank[d] < w'.rank[id] {
      assert (var w' := Judged(w, guard, handlers); d in w'.spec.nodes && w'.rank[d] < w'.rank[id]) by {
        hide NodeRefs, RenamedNode, GuardNodes, GuardMap;
        TakesAt(w, guard, handlers);
        AddedTaken(guard, handlers, OK);
        TakenAre(w, guard, handlers, OK);
        TakenAre(w, guard, handlers, id);
        TakenAre(w, guard, handlers, d);
        if id in w.spec.nodes {
          TakenThereWaits(w, guard, handlers, id);
        } else {
          TakenOwnWaits(w, guard, handlers, id, d);
        }
      }
    }
  }

  // ---- fates ------------------------------------------------------------------------------------

  /** The value taken breaks a rule. */
  predicate TakenBreaks(w: World, guard: Guard) {
    IN in w.supplied.values && !Holds(guard, w.supplied.values[IN])
  }

  /** The judged value is the caller's own, where no rule is broken; nothing, where none was supplied. */
  lemma TakenValue(w: World, guard: Guard, handlers: GuardHandlers)
    requires w.Sound() && Takes(w, guard, handlers) && Judged(w, guard, handlers).Sound() && !TakenBreaks(w, guard)
    ensures OK in Judged(w, guard, handlers).spec.nodes
    ensures FateOf(Judged(w, guard, handlers), OK) ==
      if IN in w.supplied.values then Ran(w.supplied.values[IN], None) else Stuck
  {
    hide LowerWithOutput, Takes, FateOf, WellFormed, Verdict, Hosts, AddedIds, AddedNodes;
    TakesAt(w, guard, handlers);
    var w' := Judged(w, guard, handlers);
    if guard.arity.One? {
      TakenHosts(w, guard, handlers);
      TakenOk(w', guard, handlers);
    } else {
      TakenListFate(w, guard, handlers);
    }
  }

  lemma TakenListFate(w: World, guard: Guard, handlers: GuardHandlers)
    requires w.Sound() && Takes(w, guard, handlers) && Judged(w, guard, handlers).Sound() && guard.arity.Many?
    ensures OK in Judged(w, guard, handlers).spec.nodes
    ensures var fate := FateOf(Judged(w, guard, handlers), OK);
      if IN !in w.supplied.values then fate.Stuck?
      else if Holds(guard, w.supplied.values[IN]) then fate == Ran(w.supplied.values[IN], None)
      else fate.Broke? && (w.supplied.values[IN].Arr? ==> FirstRefusal(guard, w.supplied.values[IN].items, fate.failure))
  {
    hide LowerWithOutput, Takes, FateOf, WellFormed, Holds, AddedIds, AddedNodes, RouterOf, WaitsFor, NodeRefs, NodeOutcome;
    TakesAt(w, guard, handlers);
    var w' := Judged(w, guard, handlers);
    AddedTaken(guard, handlers, OK);
    TakenAre(w, guard, handlers, OK);
    UnnamedAt(w, guard, handlers, OK);
    TakenListWaits(w, guard, handlers);
    TakenRouters(w, guard, handlers, OK);
    FreeFate(w', OK);
    if IN in w.supplied.values {
      assert FateValues(w', map[]) == w.supplied.values;
      TakesNests(w, guard, handlers);
      ListOutcome(w', guard, OK, IN, w.supplied.values);
    }
  }

  lemma TakesNests(w: World, guard: Guard, handlers: GuardHandlers)
    requires Takes(w, guard, handlers)
    ensures guard.arity.Many? ==> Nests(w.handlers, guard.nested, guard)
    ensures forall i: nat :: (OK, i) !in w.supplied.elements
  {
    hide AddedIds, Unnamed, Makes, Refuses, Nests;
  }

  /** Fates that are the same but for the judged value's, which is there for those that read `in`. */
  ghost predicate TakenMatch(w: World, id: Id, fates: map<Id, Fate>, fates': map<Id, Fate>)
    requires id in w.spec.nodes
  {
    var asks := IN in NodeRefs(w.spec.nodes[id]);
    OK !in fates && fates'.Keys == fates.Keys + (if asks then {OK} else {}) &&
    (forall d :: d in fates ==> fates'[d] == fates[d]) &&
    (asks ==> fates'[OK] == if IN in w.supplied.values then Ran(w.supplied.values[IN], None) else Stuck)
  }

  lemma TakenThereCut(w: World, guard: Guard, handlers: GuardHandlers, id: Id, fates: map<Id, Fate>, fates': map<Id, Fate>)
    requires w.Sound() && Takes(w, guard, handlers) && id in w.spec.nodes && TakenMatch(w, id, fates, fates')
    ensures var w' := Judged(w, guard, handlers);
      (IsCut(w', id, fates') <==> IsCut(w, id, fates)) && (IsChosen(w', id, fates') <==> IsChosen(w, id, fates))
  {
    hide LowerWithOutput, Takes, WellFormed, RouterOf, NodeRefs, AddedIds, AddedNodes, Unnamed, TakenMatch;
    TakesAt(w, guard, handlers);
    TakenRouters(w, guard, handlers, id);
    AddedTaken(guard, handlers, OK);
    UnnamedAt(w, guard, handlers, OK);
    SameCuts(w, id, fates, fates');
    var router := RouterOf(w.spec, id);
    if router.Some? {
      MatchAt(w, id, fates, fates', router.value);
    }
  }

  lemma MatchAt(w: World, id: Id, fates: map<Id, Fate>, fates': map<Id, Fate>, d: Id)
    requires id in w.spec.nodes && TakenMatch(w, id, fates, fates') && d != OK
    ensures (d in fates' <==> d in fates) && (d in fates ==> fates'[d] == fates[d])
  {
    hide NodeRefs;
  }

  lemma SameCuts(w: World, id: Id, fates: map<Id, Fate>, fates': map<Id, Fate>)
    requires id in w.spec.nodes && TakenMatch(w, id, fates, fates')
    ensures (exists d :: d in fates' && fates'[d].Cut?) <==> (exists d :: d in fates && fates[d].Cut?)
  {
    hide NodeRefs;
    forall d | d in fates ensures d in fates' && fates'[d] == fates[d] {}
    if d :| d in fates' && fates'[d].Cut? {
      assert d in fates && fates[d].Cut?;
    }
  }

  lemma TakenThereRuns(w: World, guard: Guard, handlers: GuardHandlers, id: Id, fates: map<Id, Fate>, fates': map<Id, Fate>)
    requires w.Sound() && Takes(w, guard, handlers) && id in w.spec.nodes && TakenMatch(w, id, fates, fates')
    ensures id in Judged(w, guard, handlers).spec.nodes
    ensures Runs(Judged(w, guard, handlers), id, fates') <==> Runs(w, id, fates)
  {
    hide LowerWithOutput, Takes, WellFormed, IsChosen, IsCut, NodeRefs, CatcherOf, AddedIds, AddedNodes, RenamedNode;
    TakesAt(w, guard, handlers);
    var w' := Judged(w, guard, handlers);
    TakenAre(w, guard, handlers, id);
    TakenThereCut(w, guard, handlers, id, fates, fates');
    forall d | d in fates ensures Meets(w'.spec, id, d, fates'[d]) <==> Meets(w.spec, id, d, fates[d]) {
      TakenCatchers(w, guard, handlers, d);
    }
    TakenThereRoots(w, id);
  }

  lemma TakenThereRoots(w: World, id: Id)
    requires id in w.spec.nodes
    ensures RootsSupplied(w.spec.nodes[id], w.supplied.values) <==>
      RootsSupplied(RenamedNode(w.spec.nodes[id]), w.supplied.values) &&
      (IN in NodeRefs(w.spec.nodes[id]) ==> IN in w.supplied.values)
  {
    hide NodeRefs, RenamedNode;
    RenamedNodeRefs(w.spec.nodes[id]);
    assert IN in PSEUDO && OK !in PSEUDO;
    forall ref | ref in NodeRefs(w.spec.nodes[id]) && ref in PSEUDO && ref != IN
      ensures ref in NodeRefs(RenamedNode(w.spec.nodes[id]))
    {
      assert Alias(ref) == ref;
    }
  }

  lemma TakenThereValues(w: World, guard: Guard, handlers: GuardHandlers, id: Id, fates: map<Id, Fate>, fates': map<Id, Fate>)
    requires w.Sound() && Takes(w, guard, handlers) && id in w.spec.nodes && TakenMatch(w, id, fates, fates')
    requires IN !in fates && (IN in NodeRefs(w.spec.nodes[id]) ==> IN in w.supplied.values)
    ensures AliasAgree(NodeRefs(w.spec.nodes[id]), FateValues(w, fates), FateValues(Judged(w, guard, handlers), fates'))
  {
    hide LowerWithOutput, Takes, WellFormed, NodeRefs, AddedIds, AddedNodes, GuardNodes, GuardMap, Unnamed, CatchesKey, Named;
    TakesAt(w, guard, handlers);
    AddedTaken(guard, handlers, OK);
    UnnamedAt(w, guard, handlers, OK);
    var one, other := FateValues(w, fates), FateValues(Judged(w, guard, handlers), fates');
    forall ref | ref in NodeRefs(w.spec.nodes[id]) ensures Lookup(other, Alias(ref)) == Lookup(one, ref) {
      assert ref != OK;
    }
  }

  lemma TakenThereJudge(w: World, guard: Guard, handlers: GuardHandlers, id: Id, fates: map<Id, Fate>, fates': map<Id, Fate>)
    requires w.Sound() && Takes(w, guard, handlers) && id in w.spec.nodes && TakenMatch(w, id, fates, fates') && IN !in fates
    ensures id in Judged(w, guard, handlers).spec.nodes
    ensures Judge(Judged(w, guard, handlers), id, fates') == Judge(w, id, fates)
  {
    hide LowerWithOutput, Takes, WellFormed, Comes, IsCut, NodeRefs, AddedIds, AddedNodes, RenamedNode, FateValues, AliasAgree, IsChosen, CatcherOf, RootsSupplied;
    TakesAt(w, guard, handlers);
    var w' := Judged(w, guard, handlers);
    TakenAre(w, guard, handlers, id);
    TakenThereCut(w, guard, handlers, id, fates, fates');
    TakenThereRuns(w, guard, handlers, id, fates, fates');
    TakenThereBroke(w, guard, handlers, id, fates, fates');
    if Runs(w, id, fates) {
      TakenThereRoots(w, id);
      TakenThereValues(w, guard, handlers, id, fates, fates');
      RenamedComes(w, w', id, FateValues(w, fates), FateValues(w', fates'), FateBroke(w, id, fates));
    }
  }

  lemma TakenThereBroke(w: World, guard: Guard, handlers: GuardHandlers, id: Id, fates: map<Id, Fate>, fates': map<Id, Fate>)
    requires w.Sound() && Takes(w, guard, handlers) && id in w.spec.nodes && TakenMatch(w, id, fates, fates')
    ensures FateBroke(Judged(w, guard, handlers), id, fates') == FateBroke(w, id, fates)
  {
    hide LowerWithOutput, Takes, WellFormed, CatcherOf, NodeRefs;
    TakesAt(w, guard, handlers);
    forall d | d in fates'
      ensures d in FateBroke(Judged(w, guard, handlers), id, fates') <==> d in FateBroke(w, id, fates)
    {
      TakenCatchers(w, guard, handlers, d);
    }
  }

  /** Where the value taken breaks no rule, every node comes to what it came to. */
  lemma {:induction false} TakenFate(w: World, guard: Guard, handlers: GuardHandlers, id: Id)
    requires w.Sound() && Takes(w, guard, handlers) && Judged(w, guard, handlers).Sound() && !TakenBreaks(w, guard)
    requires id in w.spec.nodes
    ensures id in Judged(w, guard, handlers).spec.nodes
    ensures FateOf(Judged(w, guard, handlers), id) == FateOf(w, id)
    decreases w.rank[id]
  {
    hide LowerWithOutput, Takes, WellFormed, FateOf, FatesBefore, Judge, WaitsFor, NodeRefs, AddedIds, TakenBreaks;
    TakesAt(w, guard, handlers);
    var w' := Judged(w, guard, handlers);
    TakenThereWaits(w, guard, handlers, id);
    TakenValue(w, guard, handlers);
    AddedTaken(guard, handlers, OK);
    UnnamedAt(w, guard, handlers, OK);
    FateIsJudged(w, id);
    FateIsJudged(w', id);
    WaitsComeBefore(w, id);
    InIsRoot(w);
    forall d | d in FatesBefore(w, id) ensures FatesBefore(w', id)[d] == FatesBefore(w, id)[d] {
      TakenFate(w, guard, handlers, d);
    }
    TakenThereJudge(w, guard, handlers, id, FatesBefore(w, id), FatesBefore(w', id));
  }

  lemma TakenThereEnds(w: World, guard: Guard, handlers: GuardHandlers, id: Id)
    requires w.Sound() && Takes(w, guard, handlers) && Judged(w, guard, handlers).Sound() && !TakenBreaks(w, guard)
    requires id in w.spec.nodes
    ensures id in Judged(w, guard, handlers).spec.nodes
    ensures EndsRun(Judged(w, guard, handlers), id) <==> EndsRun(w, id)
  {
    hide LowerWithOutput, Takes, WellFormed, FateOf, CatcherOf, TakenBreaks;
    TakesAt(w, guard, handlers);
    TakenFate(w, guard, handlers, id);
    TakenCatchers(w, guard, handlers, id);
    var catcher := CatcherOf(w.spec, id);
    if catcher.Some? {
      CatcherIsThere(w.spec, id);
      TakenFate(w, guard, handlers, catcher.value);
    }
  }

  lemma CatcherIsThere(spec: Spec, id: Id)
    requires CatcherOf(spec, id).Some?
    ensures CatcherOf(spec, id).value in spec.nodes
  {
    hide CatcherOf;
  }

  lemma TakenOwnDoNotEnd(w: World, guard: Guard, handlers: GuardHandlers, id: Id)
    requires w.Sound() && Takes(w, guard, handlers) && Judged(w, guard, handlers).Sound() && !TakenBreaks(w, guard)
    requires id in AddedIds(guard)
    ensures id in Judged(w, guard, handlers).spec.nodes && !EndsRun(Judged(w, guard, handlers), id)
  {
    hide LowerWithOutput, Takes, WellFormed, FateOf, CatcherOf, Hosts, AddedIds, AddedNodes, GuardNodes, FirstFailing, ViolatedId;
    TakesAt(w, guard, handlers);
    var w' := Judged(w, guard, handlers);
    AddedTaken(guard, handlers, id);
    TakenAre(w, guard, handlers, id);
    if id == OK {
      TakenValue(w, guard, handlers);
    } else {
      TakenHosts(w, guard, handlers);
      TakenCheck(w', guard, handlers);
      if id != CHECK {
        var at :| 0 <= at < |guard.unproved| && id == ViolatedId(IdsOf(Taking(guard)), at);
        TakenRefusalFate(w', guard, handlers, at);
      }
    }
  }

  lemma TakenFailsAlike(w: World, guard: Guard, handlers: GuardHandlers)
    requires w.Sound() && Takes(w, guard, handlers) && Judged(w, guard, handlers).Sound() && !TakenBreaks(w, guard)
    ensures Fails(Judged(w, guard, handlers)) <==> Fails(w)
  {
    hide LowerWithOutput, Takes, WellFormed, FateOf, EndsRun, AddedIds, TakenBreaks;
    TakesAt(w, guard, handlers);
    var w' := Judged(w, guard, handlers);
    if Fails(w') {
      var id :| id in w'.spec.nodes && EndsRun(w', id);
      TakenAre(w, guard, handlers, id);
      if id in w.spec.nodes {
        TakenThereEnds(w, guard, handlers, id);
      } else {
        TakenOwnDoNotEnd(w, guard, handlers, id);
      }
    }
    if Fails(w) {
      var id :| id in w.spec.nodes && EndsRun(w, id);
      TakenThereEnds(w, guard, handlers, id);
    }
  }

  /** A value taken that breaks a rule fails the run, with the refusal of the first rule, in order, that it breaks. */
  lemma TakenFails(w: World, guard: Guard, handlers: GuardHandlers) returns (id: Id)
    requires w.Sound() && Takes(w, guard, handlers) && Judged(w, guard, handlers).Sound() && TakenBreaks(w, guard)
    ensures Fails(Judged(w, guard, handlers))
    ensures id in Judged(w, guard, handlers).spec.nodes && EndsRun(Judged(w, guard, handlers), id)
    ensures FateOf(Judged(w, guard, handlers), id).Broke? &&
      SaysOf(guard, w.supplied.values[IN], FateOf(Judged(w, guard, handlers), id).failure)
  {
    hide LowerWithOutput, Takes, WellFormed, FateOf, CatcherOf, Hosts, AddedIds, AddedNodes, GuardNodes, FirstFailing, ViolatedId, Fails;
    TakesAt(w, guard, handlers);
    var w' := Judged(w, guard, handlers);
    if guard.arity.One? {
      var at := FirstFailing(guard.unproved, InputsAt(guard, w.supplied.values[IN]));
      id := ViolatedId(IdsOf(Taking(guard)), at);
      TakenHosts(w, guard, handlers);
      TakenRefusalFate(w', guard, handlers, at);
    } else {
      id := OK;
      TakenListFate(w, guard, handlers);
      AddedTaken(guard, handlers, OK);
      TakenCatchers(w, guard, handlers, OK);
      BrokeIsFailure(w', OK);
    }
    FailsAt(w', id);
  }

  lemma {:induction false} NothingPut(output: seq<Id>, guard: Guard)
    requires guard.kind.Taken? && OK !in output
    ensures WithViolated(output, guard) == output
    decreases |output|
  {
    hide ViolatedIds;
    if output != [] {
      NothingPut(output[1..], guard);
    }
  }

  lemma {:induction false} TakenFirst(w: World, guard: Guard, handlers: GuardHandlers, candidates: seq<Id>)
    requires w.Sound() && Takes(w, guard, handlers) && Judged(w, guard, handlers).Sound() && !TakenBreaks(w, guard)
    requires w.spec.output.Some? && forall id :: id in candidates ==> id in w.spec.output.value
    ensures FirstFated(Judged(w, guard, handlers), candidates) == FirstFated(w, candidates)
    ensures FirstFated(w, candidates).Some? ==> FirstFated(w, candidates).value in w.spec.nodes
    decreases |candidates|
  {
    hide LowerWithOutput, Takes, WellFormed, FateOf, AddedIds, TakenBreaks;
    TakesAt(w, guard, handlers);
    if candidates != [] {
      TakenFirst(w, guard, handlers, candidates[1..]);
      TakenAre(w, guard, handlers, candidates[0]);
      if candidates[0] in w.spec.nodes {
        TakenFate(w, guard, handlers, candidates[0]);
      } else if candidates[0] in AddedIds(guard) {
        UnnamedAt(w, guard, handlers, candidates[0]);
      }
    }
  }

  lemma TakenOutput(w: World, guard: Guard, handlers: GuardHandlers)
    requires w.Ranks() && Takes(w, guard, handlers)
    ensures Judged(w, guard, handlers).spec.output == w.spec.output
  {
    hide Takes, AddedIds, AddedNodes, WithViolated;
    TakesAt(w, guard, handlers);
    AddedTaken(guard, handlers, OK);
    UnnamedAt(w, guard, handlers, OK);
    if w.spec.output.Some? {
      NothingPut(w.spec.output.value, guard);
    }
  }

  // ---- where it trips too -----------------------------------------------------------------------

  /** Whether or not the value taken breaks a rule, what comes to something afterwards came to it before. */
  lemma {:induction false} TakenSame(w: World, guard: Guard, handlers: GuardHandlers, id: Id)
    requires w.Sound() && Takes(w, guard, handlers) && Judged(w, guard, handlers).Sound() && id in w.spec.nodes
    ensures id in Judged(w, guard, handlers).spec.nodes
    ensures var fate' := FateOf(Judged(w, guard, handlers), id);
      fate'.Ran? || fate'.Broke? ==> fate' == FateOf(w, id)
    decreases w.rank[id]
  {
    hide LowerWithOutput, Takes, WellFormed, FateOf, FatesBefore, Judge, WaitsFor, NodeRefs, AddedIds, CatcherOf;
    TakesAt(w, guard, handlers);
    var w' := Judged(w, guard, handlers);
    TakenThereWaits(w, guard, handlers, id);
    // If the judged value is there, it is the caller's own.
    assert OK in Judged(w, guard, handlers).spec.nodes && CatcherOf(Judged(w, guard, handlers).spec, OK) == None &&
      (var fate := FateOf(Judged(w, guard, handlers), OK);
          !fate.Given? && (fate.Ran? ==> IN in w.supplied.values && fate == Ran(w.supplied.values[IN], None))) by {
      hide Verdict, Hosts, AddedNodes;
      TakesAt(w, guard, handlers);
      AddedTaken(guard, handlers, OK);
      TakenCatchers(w, guard, handlers, OK);
      if guard.arity.One? {
        TakenHosts(w, guard, handlers);
        TakenOk(Judged(w, guard, handlers), guard, handlers);
      } else {
        TakenListFate(w, guard, handlers);
      }
    }
    AddedTaken(guard, handlers, OK);
    UnnamedAt(w, guard, handlers, OK);
    FateIsJudged(w, id);
    FateIsJudged(w', id);
    WaitsComeBefore(w, id);
    InIsRoot(w);
    var fates, fates' := FatesBefore(w, id), FatesBefore(w', id);
    if FateOf(w', id).Ran? || FateOf(w', id).Broke? {
      JudgedMet(w', id, fates');
      forall d | d in fates ensures fates'[d] == fates[d] {
        TakenSame(w, guard, handlers, d);
        GivenIsSupplied(w, d);
        GivenIsSupplied(w', d);
      }
      TakenThereJudge(w, guard, handlers, id, fates, fates');
    }
  }

  // ---- what it needs ----------------------------------------------------------------------------

  /** The paths a renamed source reads: those it read, but for those of `in`, which are the judged value's now. */
  ghost predicate PathsAside(paths: set<(string, Path)>, paths': set<(string, Path)>) {
    (forall path :: path in paths' && path.0 != OK ==> path.0 != IN && path in paths) &&
    (forall path :: path in paths && path.0 != IN ==> path in paths')
  }

  lemma AsideJoin(a: set<(string, Path)>, a': set<(string, Path)>, b: set<(string, Path)>, b': set<(string, Path)>)
    requires PathsAside(a, a') && PathsAside(b, b')
    ensures PathsAside(a + b, a' + b')
  {
  }

  lemma {:induction false} RenamedPaths(source: Source)
    ensures PathsAside(RootPaths(source), RootPaths(Renamed(source)))
    decreases source, 1
  {
    match source
    case Ref(_, _) =>
    case Value(_) =>
    case List(parts) => RenamedListPaths(parts);
    case Concat(pieces) => RenamedTextPaths(pieces);
    case Object(members) =>
      forall key | key in members ensures PathsAside(RootPaths(members[key]), RootPaths(Renamed(members[key]))) {
        RenamedPaths(members[key]);
      }
      RenamedMembersPaths(members);
  }

  lemma RenamedMembersPaths(members: map<string, Source>)
    requires forall key :: key in members ==> PathsAside(RootPaths(members[key]), RootPaths(Renamed(members[key])))
    ensures PathsAside(RootPaths(Object(members)), RootPaths(Object(RenamedInputs(members))))
  {
    hide Renamed;
    forall path | path in RootPaths(Object(RenamedInputs(members))) && path.0 != OK
      ensures path.0 != IN && path in RootPaths(Object(members))
    {
      var key :| key in members && path in RootPaths(RenamedInputs(members)[key]);
      assert path in RootPaths(members[key]);
    }
    forall path | path in RootPaths(Object(members)) && path.0 != IN
      ensures path in RootPaths(Object(RenamedInputs(members)))
    {
      var key :| key in members && path in RootPaths(members[key]);
      assert key in RenamedInputs(members) && path in RootPaths(RenamedInputs(members)[key]);
    }
  }

  lemma {:induction false} RenamedListPaths(parts: seq<Source>)
    ensures PathsAside(RootPathsOfList(parts), RootPathsOfList(RenamedList(parts)))
    decreases parts, 0
  {
    if parts != [] {
      RenamedPaths(parts[0]);
      RenamedListPaths(parts[1..]);
      AsideJoin(RootPaths(parts[0]), RootPaths(Renamed(parts[0])), RootPathsOfList(parts[1..]), RootPathsOfList(RenamedList(parts[1..])));
    }
  }

  lemma {:induction false} RenamedTextPaths(pieces: seq<Piece>)
    ensures PathsAside(RootPathsOfPieces(pieces), RootPathsOfPieces(RenamedPieces(pieces)))
    decreases pieces, 0
  {
    if pieces != [] {
      RenamedPiecePaths(pieces[0]);
      RenamedTextPaths(pieces[1..]);
      AsideJoin(RootPathsOfPiece(pieces[0]), RootPathsOfPiece(RenamedPiece(pieces[0])),
                RootPathsOfPieces(pieces[1..]), RootPathsOfPieces(RenamedPieces(pieces[1..])));
    }
  }

  lemma {:induction false} RenamedPiecePaths(piece: Piece)
    ensures PathsAside(RootPathsOfPiece(piece), RootPathsOfPiece(RenamedPiece(piece)))
    decreases piece, 1
  {
    if piece.Hole? {
      RenamedPaths(piece.source);
    }
  }

  lemma RenamedNodePaths(node: Node)
    ensures PathsAside(NodePaths(node), NodePaths(RenamedNode(node)))
  {
    hide RootPaths, Renamed;
    RenamedPaths(Object(node.inputs));
    RenamedObject(node.inputs);
    if node.Map? {
      RenamedPaths(node.over);
      AsideJoin(RootPaths(Object(node.inputs)), RootPaths(Renamed(Object(node.inputs))), RootPaths(node.over), RootPaths(Renamed(node.over)));
    }
  }

  lemma RenamedObject(members: map<string, Source>)
    ensures Renamed(Object(members)) == Object(RenamedInputs(members))
  {
  }

  /** What a guard over `in` reads of it itself: the fields its rules read, for one value, and the whole of it. */
  function GuardPaths(guard: Guard): set<(string, Path)> {
    {(IN, [])} + if guard.arity.One? then set root | root in guard.roots :: (IN, [root]) else {}
  }

  lemma OwnPaths(guard: Guard, handlers: GuardHandlers)
    requires guard.unproved != [] && guard.kind.Taken?
    ensures NodePaths(OkNode(IN, handlers)) == {(IN, [])} && NodePaths(GuardMap(IN, guard.nested)) == {(IN, [])}
    ensures NodePaths(CheckNode(Taking(guard), IdsOf(Taking(guard)))) == set root | root in guard.roots :: (IN, [root])
    ensures forall at :: 0 <= at < |guard.unproved| ==> NodePaths(ViolatedNode(guard.unproved[at], guard.shape, handlers)) == {}
  {
    var value := map["value" := Ref(IN, [])];
    assert "value" in value && (IN, []) in RootPaths(value["value"]);
    assert RootPaths(Object(value)) == {(IN, [])};
    var none: map<string, Source> := map[];
    assert RootPaths(Object(none)) == {};
    var fields := map root | root in guard.roots :: Ref(IN, [root]);
    assert CheckNode(Taking(guard), IdsOf(Taking(guard))).inputs == fields;
    forall path ensures path in RootPaths(Object(fields)) <==> path in set root | root in guard.roots :: (IN, [root]) {
      if path in set root | root in guard.roots :: (IN, [root]) {
        assert path.1[0] in fields && path in RootPaths(fields[path.1[0]]);
      }
    }
    forall at | 0 <= at < |guard.unproved| ensures NodePaths(ViolatedNode(guard.unproved[at], guard.shape, handlers)) == {} {
      var inputs := ViolatedNode(guard.unproved[at], guard.shape, handlers).inputs;
      assert forall key :: key in inputs ==> RootPaths(inputs[key]) == {};
      assert RootPaths(Object(inputs)) == {};
    }
  }

  /** What the guard's own nodes read of what was never supplied, once they are stuck. */
  lemma OwnNeeds(w: World, guard: Guard, handlers: GuardHandlers, path: (string, Path))
    requires w.Sound() && Takes(w, guard, handlers) && Judged(w, guard, handlers).Sound() && IN !in w.supplied.values
    ensures path in GuardPaths(guard) <==> exists id :: id in AddedIds(guard) && NeedsPath(Judged(w, guard, handlers), id, path)
  {
    hide LowerWithOutput, Takes, WellFormed, FateOf, AddedIds, AddedNodes, GuardNodes, Hosts, FirstFailing, ViolatedId, NodePaths, OkNode, GuardMap, CheckNode, ViolatedNode;
    TakesAt(w, guard, handlers);
    var w' := Judged(w, guard, handlers);
    OwnPaths(guard, handlers);
    AddedTaken(guard, handlers, OK);
    AddedTaken(guard, handlers, CHECK);
    TakenAre(w, guard, handlers, OK);
    TakenNodes(guard, handlers, OK);
    if guard.arity.One? {
      TakenHosts(w, guard, handlers);
      TakenCheck(w', guard, handlers);
      TakenOk(w', guard, handlers);
      TakenAre(w, guard, handlers, CHECK);
      SameCheck(guard);
      if path in GuardPaths(guard) {
        assert NeedsPath(w', if path == (IN, []) then OK else CHECK, path);
      }
      forall id | id in AddedIds(guard) && NeedsPath(w', id, path) ensures path in GuardPaths(guard) {
        AddedTaken(guard, handlers, id);
        if id != OK && id != CHECK {
          var at :| 0 <= at < |guard.unproved| && id == ViolatedId(IdsOf(Taking(guard)), at);
          TakenAre(w, guard, handlers, id);
          TakenRefusal(guard, handlers, at);
        }
      }
    } else {
      TakenListFate(w, guard, handlers);
      if path in GuardPaths(guard) {
        assert NeedsPath(w', OK, path);
      }
      forall id | id in AddedIds(guard) && NeedsPath(w', id, path) ensures path in GuardPaths(guard) {
        AddedTaken(guard, handlers, id);
      }
    }
  }

  lemma TakenNeedsThere(w: World, guard: Guard, handlers: GuardHandlers, id: Id, path: (string, Path))
    requires w.Sound() && Takes(w, guard, handlers) && Judged(w, guard, handlers).Sound() && !TakenBreaks(w, guard)
    requires id in w.spec.nodes && path.0 in PSEUDO
    ensures NeedsPath(Judged(w, guard, handlers), id, path) <==> path.0 != IN && NeedsPath(w, id, path)
  {
    hide LowerWithOutput, Takes, WellFormed, FateOf, AddedIds, AddedNodes, NodePaths, TakenBreaks, RenamedNode;
    TakesAt(w, guard, handlers);
    TakenAre(w, guard, handlers, id);
    TakenFate(w, guard, handlers, id);
    RenamedNodePaths(w.spec.nodes[id]);
  }

  /** What a blocked run needs once its `in` is guarded, from what it needed. */
  function TakenNeeds(w: World, guard: Guard, needs: set<(string, Path)>): set<(string, Path)> {
    if IN in w.supplied.values then needs else (set path | path in needs && path.0 != IN) + GuardPaths(guard)
  }

  lemma TakenNeedsAre(w: World, guard: Guard, handlers: GuardHandlers)
    requires w.Sound() && Takes(w, guard, handlers) && Judged(w, guard, handlers).Sound() && !TakenBreaks(w, guard)
    ensures FateNeeds(Judged(w, guard, handlers)) == TakenNeeds(w, guard, FateNeeds(w))
  {
    hide LowerWithOutput, Takes, WellFormed, FateOf, AddedIds, AddedNodes, NodePaths, TakenBreaks, NeedsPath, GuardPaths;
    TakesAt(w, guard, handlers);
    var w' := Judged(w, guard, handlers);
    NeedsAre(w);
    NeedsAre(w');
    hide FateNeeds;
    GuardPathsAreOfIn(guard);
    forall path ensures path in FateNeeds(w') <==> path in TakenNeeds(w, guard, FateNeeds(w)) {
      if path.0 in PSEUDO && path.0 !in w.supplied.values {
        TakenNeedsPath(w, guard, handlers, path);
      }
    }
  }

  lemma GuardPathsAreOfIn(guard: Guard)
    ensures forall path :: path in GuardPaths(guard) ==> path.0 == IN
  {
  }

  lemma TakenNeedsPath(w: World, guard: Guard, handlers: GuardHandlers, path: (string, Path))
    requires w.Sound() && Takes(w, guard, handlers) && Judged(w, guard, handlers).Sound() && !TakenBreaks(w, guard)
    requires path.0 in PSEUDO && path.0 !in w.supplied.values
    ensures (exists id :: NeedsPath(Judged(w, guard, handlers), id, path)) <==>
      (path.0 != IN && exists id :: NeedsPath(w, id, path)) || (IN !in w.supplied.values && path in GuardPaths(guard))
  {
    hide LowerWithOutput, Takes, WellFormed, FateOf, AddedIds, AddedNodes, NodePaths, TakenBreaks, GuardPaths;
    TakesAt(w, guard, handlers);
    var w' := Judged(w, guard, handlers);
    if IN !in w.supplied.values {
      OwnNeeds(w, guard, handlers, path);
    }
    if id :| NeedsPath(w', id, path) {
      TakenAre(w, guard, handlers, id);
      if id in w.spec.nodes {
        TakenNeedsThere(w, guard, handlers, id, path);
      } else {
        assert path.0 == IN by {
          hide GuardNodes, ViolatedId, OkNode, GuardMap, CheckNode, ViolatedNode;
          TakesAt(w, guard, handlers);
          OwnPaths(guard, handlers);
          AddedTaken(guard, handlers, id);
          TakenAre(w, guard, handlers, id);
          TakenNodes(guard, handlers, id);
          if id != OK && id != CHECK {
            var at :| 0 <= at < |guard.unproved| && id == ViolatedId(IdsOf(Taking(guard)), at);
            TakenRefusal(guard, handlers, at);
          }
        }
      }
    }
    if path.0 != IN {
      if id :| NeedsPath(w, id, path) {
        TakenNeedsThere(w, guard, handlers, id, path);
      }
    }
  }

  // ---- the law ----------------------------------------------------------------------------------

  /** Two summaries of one status and one output, from one candidate. */
  predicate SameAnswer(one: Summary, other: Summary) {
    one.status == other.status && one.output == other.output && one.answeredBy == other.answeredBy
  }

  /**
   * Guarding the value a graph takes: where it breaks no rule, or none was supplied, every node comes to what it came
   * to, and the run to the same status and the same output from the same candidate; where it breaks one, the run fails.
   * A blocked run needs what it needed, but that of `in` it needs what the guard reads.
   */
  lemma TakenMeans(w: World, guard: Guard, handlers: GuardHandlers)
    requires w.Sound() && Takes(w, guard, handlers)
    ensures Judged(w, guard, handlers).Sound()
    ensures TakenBreaks(w, guard) ==> Fails(Judged(w, guard, handlers))
    ensures !TakenBreaks(w, guard) ==>
      var one, other := Means(w), Means(Judged(w, guard, handlers));
      SameAnswer(other, one) && other.needs == if one.status.RunBlocked? then TakenNeeds(w, guard, one.needs) else {}
  {
    hide LowerWithOutput, Takes, WellFormed, FateOf, TakenBreaks, Fails, FateNeeds, FateReport, AddedIds, TakenNeeds;
    TakesAt(w, guard, handlers);
    TakenIsSound(w, guard, handlers);
    if TakenBreaks(w, guard) {
      var id := TakenFails(w, guard, handlers);
    } else {
      TakenFailsAlike(w, guard, handlers);
      TakenNeedsAre(w, guard, handlers);
      TakenOutput(w, guard, handlers);
      if w.spec.output.Some? {
        TakenFirst(w, guard, handlers, w.spec.output.value);
        var answer := FirstFated(w, w.spec.output.value);
        if answer.Some? {
          TakenFate(w, guard, handlers, answer.value);
        }
      }
    }
  }
}
