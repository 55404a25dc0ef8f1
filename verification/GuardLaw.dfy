/** Guarding a value preserves what a spec means where the rules hold of it, and fails the run where one does not. */
module GuardLaws {
  import opened Json
  import opened Sources
  import opened Outcomes
  import opened KernelSpec
  import opened Kernel
  import opened Fates
  import opened Guards
  import opened GuardSites
  import opened GuardWaits
  import opened GuardFates
  import opened GuardOwn
  import opened Meaning

  /** The value a guarded node makes, if it makes one, breaks a rule. */
  ghost predicate Breaks(w: World, guard: Guard)
    requires w.Ranks() && guard.id in w.spec.nodes
  {
    var fate := FateOf(w, guard.id);
    fate.Ran? && !Holds(guard, fate.value)
  }

  /** A switch catches the guarded node's fault, and it broke: the moved node's fault is not that switch's to catch. */
  ghost predicate Loses(w: World, guard: Guard)
    requires w.Ranks() && guard.id in w.spec.nodes
  {
    LosesCatch(w, guard, FateOf(w, guard.id))
  }

  /** The guard changes what the spec means: a value breaks a rule, or a caught fault is caught no more. */
  ghost predicate Trips(w: World, guard: Guard)
    requires w.Ranks() && guard.id in w.spec.nodes
  {
    Breaks(w, guard) || Loses(w, guard)
  }

  lemma LoweredStands(w: World, guard: Guard, handlers: GuardHandlers)
    requires Placed(w, guard, handlers)
    ensures Lowered(w, guard, handlers).Sound()
    ensures guard.id in Lowered(w, guard, handlers).spec.nodes && IdsOf(guard).made in Lowered(w, guard, handlers).spec.nodes
    ensures guard.id in w.spec.nodes && guard.id !in w.supplied.values
  {
    hide Standing, Handled, Clear, WellFormed, Lowered, IdsOf, AddedIds, AddedNodes, FreshIds;
    StandsAt(w, guard);
    LoweredIsSound(w, guard, handlers);
    CheckIsAdded(guard, handlers);
    NodesAre(w, guard, handlers, guard.id);
    NodesAre(w, guard, handlers, IdsOf(guard).made);
  }

  /** Where no rule is broken, the guard stands for the node it guards. */
  lemma GuardStands(w: World, guard: Guard, handlers: GuardHandlers)
    requires Guardable(w, guard, handlers) && guard.id in w.spec.nodes && !Breaks(w, guard)
    ensures guard.id in Lowered(w, guard, handlers).spec.nodes
    ensures StandsForNode(FateOf(w, guard.id), FateOf(Lowered(w, guard, handlers), guard.id))
  {
    hide Standing, Handled, Clear, WellFormed, Lowered, IdsOf, FateOf, Verdict, FreshIds;
    LoweredStands(w, guard, handlers);
    StandsAt(w, guard);
    MadeFate(w, guard, handlers);
    MadeIsPlain(w, guard, handlers);
    GivenIsSupplied(w, guard.id);
    if guard.arity.One? {
      OkFate(w, guard, handlers);
    } else {
      ManyFate(w, guard, handlers);
    }
  }

  /** Which refusal a broken rule is answered with, and where. */
  ghost predicate RefusedBy(w: World, guard: Guard, handlers: GuardHandlers, id: Id)
    requires w.Sound() && Standing(w, guard) && Lowered(w, guard, handlers).Sound() && guard.id in w.spec.nodes
  {
    var w' := Lowered(w, guard, handlers);
    id in w'.spec.nodes && EndsRun(w', id) && FateOf(w, guard.id).Ran? &&
    var value := FateOf(w, guard.id).value;
    if guard.arity.One? then
      var at := FirstFailing(guard.unproved, InputsAt(guard, value));
      at < |guard.unproved| && id == ViolatedId(IdsOf(guard), at) &&
      FateOf(w', id) == Broke(Refused(INVARIANT, guard.unproved[at].message))
    else id == guard.id && (value.Arr? ==> FirstRefusal(guard, value.items, FateOf(w', id).failure))
  }

  /** A value that breaks a rule fails the run with the refusal of the first rule, in order, that it breaks. */
  lemma GuardRefuses(w: World, guard: Guard, handlers: GuardHandlers) returns (id: Id)
    requires Guardable(w, guard, handlers) && guard.id in w.spec.nodes && Breaks(w, guard)
    ensures Lowered(w, guard, handlers).Sound() && RefusedBy(w, guard, handlers, id)
    ensures Fails(Lowered(w, guard, handlers))
  {
    hide Standing, Handled, Clear, WellFormed, Lowered, IdsOf, FateOf, FreshIds, ViolatedId, CatcherOf, Fails;
    LoweredStands(w, guard, handlers);
    StandsAt(w, guard);
    MadeFate(w, guard, handlers);
    MadeIsPlain(w, guard, handlers);
    var value := FateOf(w, guard.id).value;
    if guard.arity.One? {
      var at := FirstFailing(guard.unproved, InputsAt(guard, value));
      id := ViolatedId(IdsOf(guard), at);
      RefusalFate(w, guard, handlers, at);
    } else {
      id := guard.id;
      ManyFate(w, guard, handlers);
      CatchersAre(w, guard, handlers, guard.id);
      ClearMakesLists(w, guard);
    }
    FailsAt(Lowered(w, guard, handlers), id);
  }

  lemma ClearMakesLists(w: World, guard: Guard)
    requires w.Ranks() && guard.id in w.spec.nodes && Clear(w, guard)
    ensures MakesLists(w, guard)
  {
    hide MakesLists;
  }

  lemma FailsAt(w: World, id: Id)
    requires w.Ranks() && id in w.spec.nodes && EndsRun(w, id)
    ensures Fails(w)
  {
    hide EndsRun;
  }

  /** A fault of the guarded node fails the guarded run, whether or not a switch caught it before. */
  lemma FaultFails(w: World, guard: Guard, handlers: GuardHandlers) returns (id: Id)
    requires Guardable(w, guard, handlers) && guard.id in w.spec.nodes && FateOf(w, guard.id).Broke?
    ensures Lowered(w, guard, handlers).Sound() && Fails(Lowered(w, guard, handlers))
    ensures var w' := Lowered(w, guard, handlers);
      id == IdsOf(guard).made && id in w'.spec.nodes && EndsRun(w', id) && SameFate(FateOf(w, guard.id), FateOf(w', id))
  {
    hide Standing, Handled, Clear, WellFormed, Lowered, IdsOf, FateOf, FreshIds, CatcherOf, Fails;
    LoweredStands(w, guard, handlers);
    StandsAt(w, guard);
    OwnAreFresh(guard);
    MadeFate(w, guard, handlers);
    CatchersAre(w, guard, handlers, IdsOf(guard).made);
    id := IdsOf(guard).made;
    FailsAt(Lowered(w, guard, handlers), id);
  }

  // ---- where the rules hold ---------------------------------------------------------------------

  lemma ThereEnds(w: World, guard: Guard, handlers: GuardHandlers, id: Id)
    requires Guardable(w, guard, handlers) && guard.id in w.spec.nodes && !Trips(w, guard) && id in w.spec.nodes && id != guard.id
    ensures Lowered(w, guard, handlers).Sound() && id in Lowered(w, guard, handlers).spec.nodes
    ensures EndsRun(Lowered(w, guard, handlers), id) <==> EndsRun(w, id)
  {
    hide Standing, Handled, Clear, WellFormed, Lowered, IdsOf, FateOf, CatcherOf, FreshIds;
    LoweredStands(w, guard, handlers);
    StandsAt(w, guard);
    GuardStands(w, guard, handlers);
    ThereFate(w, guard, handlers, id);
    CatchersAre(w, guard, handlers, id);
    var catcher := CatcherOf(w.spec, id);
    if catcher.Some? {
      CallsAreNotCatchers(w, guard, id);
      ThereFate(w, guard, handlers, catcher.value);
    }
  }

  lemma NodeEnds(w: World, guard: Guard, handlers: GuardHandlers)
    requires Guardable(w, guard, handlers) && guard.id in w.spec.nodes && !Trips(w, guard)
    ensures Lowered(w, guard, handlers).Sound() && IdsOf(guard).made in Lowered(w, guard, handlers).spec.nodes
    ensures guard.id in Lowered(w, guard, handlers).spec.nodes
    ensures EndsRun(Lowered(w, guard, handlers), IdsOf(guard).made) <==> EndsRun(w, guard.id)
    ensures EndsRun(Lowered(w, guard, handlers), guard.id) ==> EndsRun(w, guard.id)
  {
    hide Standing, Handled, Clear, WellFormed, Lowered, IdsOf, FateOf, CatcherOf, FreshIds;
    LoweredStands(w, guard, handlers);
    StandsAt(w, guard);
    OwnAreFresh(guard);
    GuardStands(w, guard, handlers);
    MadeFate(w, guard, handlers);
    CatchersAre(w, guard, handlers, guard.id);
    CatchersAre(w, guard, handlers, IdsOf(guard).made);
  }

  lemma OwnDoNotEnd(w: World, guard: Guard, handlers: GuardHandlers, id: Id)
    requires Guardable(w, guard, handlers) && guard.id in w.spec.nodes && !Trips(w, guard)
    requires id in AddedIds(guard) && id != guard.id
    ensures Lowered(w, guard, handlers).Sound() && id in Lowered(w, guard, handlers).spec.nodes
    ensures IsRefusal(guard, id) ==> !Answered(Lowered(w, guard, handlers), id)
    ensures !EndsRun(Lowered(w, guard, handlers), id)
  {
    hide Standing, Handled, Clear, WellFormed, Lowered, IdsOf, FateOf, CatcherOf, ViolatedId, AddedNodes, AddedIds, FreshIds, FirstFailing;
    LoweredStands(w, guard, handlers);
    StandsAt(w, guard);
    AddedAre(guard, handlers, id);
    NodesAre(w, guard, handlers, id);
    MadeFate(w, guard, handlers);
    MadeIsPlain(w, guard, handlers);
    if IsRefusal(guard, id) {
      RefusalIsFresh(w, guard, id);
    }
    if id == IdsOf(guard).check && guard.arity.One? {
      CheckFate(w, guard, handlers);
    } else {
      var at :| 0 <= at < |guard.unproved| && id == ViolatedId(IdsOf(guard), at);
      RefusalFate(w, guard, handlers, at);
    }
  }

  /** Where no rule is broken, the guarded spec fails just when the spec did. */
  lemma FailsAlike(w: World, guard: Guard, handlers: GuardHandlers)
    requires Guardable(w, guard, handlers) && guard.id in w.spec.nodes && !Trips(w, guard)
    ensures Lowered(w, guard, handlers).Sound() && (Fails(Lowered(w, guard, handlers)) <==> Fails(w))
  {
    hide Standing, Handled, Clear, WellFormed, Lowered, IdsOf, FateOf, EndsRun, AddedIds, Trips, FreshIds;
    LoweredStands(w, guard, handlers);
    StandsAt(w, guard);
    var w' := Lowered(w, guard, handlers);
    NodeEnds(w, guard, handlers);
    if Fails(w') {
      var id :| id in w'.spec.nodes && EndsRun(w', id);
      NodesAre(w, guard, handlers, id);
      if id in w.spec.nodes && id != guard.id {
        ThereEnds(w, guard, handlers, id);
      } else if id in AddedIds(guard) && id != guard.id {
        OwnDoNotEnd(w, guard, handlers, id);
      } else {
        assert EndsRun(w, guard.id);
      }
    }
    if Fails(w) {
      var id :| id in w.spec.nodes && EndsRun(w, id);
      if id != guard.id {
        ThereEnds(w, guard, handlers, id);
      }
    }
  }

  // ---- what it answers --------------------------------------------------------------------------

  lemma {:induction false} FirstOf(w: World, a: seq<Id>, b: seq<Id>)
    requires w.Ranks()
    ensures FirstFated(w, a + b) == if FirstFated(w, a).Some? then FirstFated(w, a) else FirstFated(w, b)
    decreases |a|
  {
    hide Answered;
    if a == [] {
      assert a + b == b;
    } else {
      assert (a + b)[1..] == a[1..] + b;
      FirstOf(w, a[1..], b);
    }
  }

  lemma {:induction false} NoneFated(w: World, ids: seq<Id>)
    requires w.Ranks() && forall id :: id in ids && id in w.spec.nodes ==> !Answered(w, id)
    ensures FirstFated(w, ids) == None
    decreases |ids|
  {
    hide Answered;
    if ids != [] {
      NoneFated(w, ids[1..]);
    }
  }

  /** The refusals of a guard whose rules hold answer nothing. */
  lemma RefusalsAnswerNothing(w: World, guard: Guard, handlers: GuardHandlers)
    requires Guardable(w, guard, handlers) && guard.id in w.spec.nodes && !Trips(w, guard) && guard.arity.One?
    ensures Lowered(w, guard, handlers).Sound()
    ensures FirstFated(Lowered(w, guard, handlers), ViolatedIds(IdsOf(guard), |guard.unproved|)) == None
  {
    hide Standing, Handled, Clear, WellFormed, Lowered, IdsOf, FateOf, ViolatedId, Trips, Answered, AddedIds, FreshIds;
    LoweredStands(w, guard, handlers);
    StandsAt(w, guard);
    var ids := ViolatedIds(IdsOf(guard), |guard.unproved|);
    forall id | id in ids ensures id in Lowered(w, guard, handlers).spec.nodes ==> !Answered(Lowered(w, guard, handlers), id) {
      var at :| 0 <= at < |guard.unproved| && ids[at] == id;
      assert IsRefusal(guard, id);
      RefusalIsFresh(w, guard, id);
      AddedAre(guard, handlers, id);
      OwnDoNotEnd(w, guard, handlers, id);
    }
    NoneFated(Lowered(w, guard, handlers), ids);
  }

  /** An output that was a candidate answers as it did. */
  lemma AnsweredAlike(w: World, guard: Guard, handlers: GuardHandlers, id: Id)
    requires Guardable(w, guard, handlers) && guard.id in w.spec.nodes && !Trips(w, guard)
    requires w.spec.output.Some? && id in w.spec.output.value
    ensures Lowered(w, guard, handlers).Sound() && (id in Lowered(w, guard, handlers).spec.nodes <==> id in w.spec.nodes)
    ensures id in w.spec.nodes ==>
      (Answered(Lowered(w, guard, handlers), id) <==> Answered(w, id)) &&
      (Answered(w, id) ==> ValueOf(Lowered(w, guard, handlers), id) == ValueOf(w, id))
  {
    hide Standing, Handled, Clear, WellFormed, LowerWithOutput, IdsOf, FateOf, AddedIds, AddedNodes, FreshIds, RoutesTo;
    LoweredStands(w, guard, handlers);
    StandsAt(w, guard);
    OwnAreFresh(guard);
    NodesAre(w, guard, handlers, id);
    OutputIsUnnamed(w, guard, id);
    FreshOrThere(guard, id);
    GuardStands(w, guard, handlers);
    if id in w.spec.nodes && id != guard.id {
      ThereFate(w, guard, handlers, id);
      FateSelects(w, id);
    }
  }

  lemma OutputIsUnnamed(w: World, guard: Guard, id: Id)
    requires w.Ranks() && Standing(w, guard) && Clear(w, guard) && w.spec.output.Some? && id in w.spec.output.value
    ensures id !in FreshIds(guard)
    ensures id in w.spec.nodes ==> !Chose(w, id, guard.id)
  {
    hide FreshIds, Chose, NodeRefs, Named, CatchesKey, MakesLists;
  }

  lemma {:induction false} FirstAlikeIn(w: World, guard: Guard, handlers: GuardHandlers, output: seq<Id>)
    requires Guardable(w, guard, handlers) && guard.id in w.spec.nodes && !Trips(w, guard)
    requires w.spec.output.Some? && forall id :: id in output ==> id in w.spec.output.value
    ensures Lowered(w, guard, handlers).Sound()
    ensures FirstFated(Lowered(w, guard, handlers), WithViolated(output, guard)) == FirstFated(w, output)
    ensures FirstFated(w, output).Some? ==> FirstFated(w, output).value in output && FirstFated(w, output).value in w.spec.nodes
    decreases |output|
  {
    hide Standing, Handled, Clear, WellFormed, Lowered, IdsOf, FateOf, Answered, Trips, ViolatedIds, FreshIds;
    LoweredStands(w, guard, handlers);
    StandsAt(w, guard);
    var w' := Lowered(w, guard, handlers);
    if output != [] {
      FirstAlikeIn(w, guard, handlers, output[1..]);
      AnsweredAlike(w, guard, handlers, output[0]);
      if guard.arity.One? {
        IdsAreDifferent(guard);
        RefusalsAnswerNothing(w, guard, handlers);
        var refusals := if output[0] == IdsOf(guard).ok then ViolatedIds(IdsOf(guard), |guard.unproved|) else [];
        var rest := WithViolated(output[1..], guard);
        FirstOf(w', [output[0]] + refusals, rest);
        FirstOf(w', [output[0]], refusals);
        assert FirstFated(w', [output[0]]) == (if output[0] in w'.spec.nodes && Answered(w', output[0]) then Some(output[0]) else None) &&
          FirstFated(w', []) == None by {
          assert [output[0]][1..] == [];
        }
        assert WithViolated(output, guard) == [output[0]] + refusals + rest;
      } else {
        assert WithViolated(output[1..], guard) == output[1..];
      }
    }
  }

  // ---- what it needs ----------------------------------------------------------------------------

  lemma {:induction false} PathsAreReads(source: Source)
    ensures forall path :: path in RootPaths(source) ==> path.0 in RefsOf(source)
    decreases source, 1
  {
    match source
    case Ref(_, _) =>
    case Value(_) =>
    case List(parts) => PathsAreReadsList(parts);
    case Concat(pieces) => PathsAreReadsPieces(pieces);
    case Object(members) =>
      forall key | key in members ensures forall path :: path in RootPaths(members[key]) ==> path.0 in RefsOf(members[key]) {
        PathsAreReads(members[key]);
      }
  }

  lemma {:induction false} PathsAreReadsList(parts: seq<Source>)
    ensures forall path :: path in RootPathsOfList(parts) ==> path.0 in RefsOfList(parts)
    decreases parts, 0
  {
    if parts != [] {
      PathsAreReads(parts[0]);
      PathsAreReadsList(parts[1..]);
    }
  }

  lemma {:induction false} PathsAreReadsPieces(pieces: seq<Piece>)
    ensures forall path :: path in RootPathsOfPieces(pieces) ==> path.0 in RefsOfPieces(pieces)
    decreases pieces, 0
  {
    if pieces != [] {
      PathsAreReadsPiece(pieces[0]);
      PathsAreReadsPieces(pieces[1..]);
    }
  }

  lemma {:induction false} PathsAreReadsPiece(piece: Piece)
    ensures forall path :: path in RootPathsOfPiece(piece) ==> path.0 in RefsOfPiece(piece)
    decreases piece, 1
  {
    if piece.Hole? {
      PathsAreReads(piece.source);
    }
  }

  lemma NodePathsAreReads(node: Node)
    ensures forall path :: path in NodePaths(node) ==> path.0 in NodeRefs(node)
  {
    PathsAreReads(Object(node.inputs));
    if node.Map? {
      PathsAreReads(node.over);
    }
  }

  lemma OwnNeedNothing(w: World, guard: Guard, handlers: GuardHandlers, id: Id)
    requires w.Sound() && Standing(w, guard) && id in AddedIds(guard)
    ensures id in Lowered(w, guard, handlers).spec.nodes
    ensures forall path :: path in NodePaths(Lowered(w, guard, handlers).spec.nodes[id]) ==> path.0 !in PSEUDO
  {
    hide Standing, WellFormed, Lowered, IdsOf, AddedIds, AddedNodes, FreshIds, NodeRefs, NodePaths, OkNode, CheckNode, GuardMap, ViolatedNode, ViolatedId;
    StandsAt(w, guard);
    NodesAre(w, guard, handlers, id);
    AddedAre(guard, handlers, id);
    OwnAreFresh(guard);
    FreshAreUnnamed(w, guard);
    NodePathsAreReads(Lowered(w, guard, handlers).spec.nodes[id]);
    if id == guard.id {
      OkReads(guard, handlers);
    } else if guard.arity.One? && id == IdsOf(guard).check {
      CheckReads(guard);
    } else {
      var at :| 0 <= at < |guard.unproved| && id == ViolatedId(IdsOf(guard), at);
      RefusalIs(guard, handlers, at);
      RefusalReads(guard.unproved[at], guard.shape, handlers);
    }
  }

  lemma NeedsAt(w: World, guard: Guard, handlers: GuardHandlers, id: Id)
    requires Guardable(w, guard, handlers) && guard.id in w.spec.nodes && !Trips(w, guard)
    ensures Lowered(w, guard, handlers).Sound()
    ensures id in w.spec.nodes && id != guard.id ==>
      id in Lowered(w, guard, handlers).spec.nodes &&
      NodePaths(Lowered(w, guard, handlers).spec.nodes[id]) == NodePaths(w.spec.nodes[id]) &&
      (FateOf(Lowered(w, guard, handlers), id).Stuck? <==> FateOf(w, id).Stuck?)
  {
    hide Standing, Handled, Clear, WellFormed, Lowered, IdsOf, FateOf, AddedIds, AddedNodes, FreshIds, NodePaths, Rerouted, Holds, CatcherOf;
    LoweredStands(w, guard, handlers);
    StandsAt(w, guard);
    NodesAre(w, guard, handlers, id);
    GuardStands(w, guard, handlers);
    if id in w.spec.nodes && id != guard.id {
      ThereFate(w, guard, handlers, id);
      SentReads(w.spec.nodes[id], guard.id, IdsOf(guard).made);
    }
  }

  ghost predicate NeedsPath(w: World, id: Id, path: (string, Path))
    requires w.Ranks()
  {
    id in w.spec.nodes && FateOf(w, id).Stuck? && path in NodePaths(w.spec.nodes[id])
  }

  lemma NeedsThere(w: World, guard: Guard, handlers: GuardHandlers, id: Id, path: (string, Path))
    requires Guardable(w, guard, handlers) && guard.id in w.spec.nodes && !Trips(w, guard) && path.0 in PSEUDO
    ensures Lowered(w, guard, handlers).Sound()
    ensures NeedsPath(Lowered(w, guard, handlers), id, path) ==> NeedsPath(w, if id == IdsOf(guard).made then guard.id else id, path)
    ensures NeedsPath(w, id, path) ==> NeedsPath(Lowered(w, guard, handlers), if id == guard.id then IdsOf(guard).made else id, path)
  {
    hide Standing, Handled, Clear, WellFormed, Lowered, IdsOf, FateOf, AddedIds, AddedNodes, FreshIds, NodePaths, Trips;
    LoweredStands(w, guard, handlers);
    StandsAt(w, guard);
    MadeFate(w, guard, handlers);
    NodesAre(w, guard, handlers, id);
    NodesAre(w, guard, handlers, IdsOf(guard).made);
    NeedsAt(w, guard, handlers, id);
    CheckIsAdded(guard, handlers);
    OwnAreFresh(guard);
    FreshAreUnnamed(w, guard);
    if id in AddedIds(guard) {
      OwnNeedNothing(w, guard, handlers, id);
    }
  }

  lemma NeedsAreAlike(w: World, guard: Guard, handlers: GuardHandlers)
    requires Guardable(w, guard, handlers) && guard.id in w.spec.nodes && !Trips(w, guard)
    ensures Lowered(w, guard, handlers).Sound() && FateNeeds(Lowered(w, guard, handlers)) == FateNeeds(w)
  {
    hide Standing, Handled, Clear, WellFormed, LowerWithOutput, IdsOf, FateOf, NodePaths, Trips, NeedsPath, FreshIds;
    LoweredStands(w, guard, handlers);
    StandsAt(w, guard);
    NeedsAre(w);
    NeedsAre(Lowered(w, guard, handlers));
    var w' := Lowered(w, guard, handlers);
    hide FateNeeds;
    forall path ensures path in FateNeeds(w') <==> path in FateNeeds(w) {
      if path in FateNeeds(w') {
        var id :| NeedsPath(w', id, path);
        NeedsThere(w, guard, handlers, id, path);
      }
      if path in FateNeeds(w) {
        var id :| NeedsPath(w, id, path);
        NeedsThere(w, guard, handlers, id, path);
      }
    }
  }

  lemma NeedsAre(w: World)
    requires w.Ranks()
    ensures forall path :: path in FateNeeds(w) <==>
      path.0 in PSEUDO && path.0 !in w.supplied.values && exists id :: NeedsPath(w, id, path)
  {
    hide FateOf, NodePaths;
    forall path | path in FateNeeds(w) ensures exists id :: NeedsPath(w, id, path) {
      var id :| id in w.spec.nodes && FateOf(w, id).Stuck? && path in NodePaths(w.spec.nodes[id]);
      assert NeedsPath(w, id, path);
    }
  }

  // ---- the law ----------------------------------------------------------------------------------

  /** Two specs come to the same status, the same output from the same candidate, and the same needs. */
  ghost predicate SameMeaning(one: World, other: World)
    requires one.Ranks() && other.Ranks()
  {
    var a, b := Means(one), Means(other);
    a.status == b.status && a.output == b.output && a.answeredBy == b.answeredBy && a.needs == b.needs
  }

  /** Where every rule holds of the value, and no catch of it is lost, guarding it changes nothing of what a spec means. */
  lemma GuardPreserves(w: World, guard: Guard, handlers: GuardHandlers)
    requires Guardable(w, guard, handlers) && guard.id in w.spec.nodes && !Trips(w, guard)
    ensures Lowered(w, guard, handlers).Sound() && SameMeaning(Lowered(w, guard, handlers), w)
  {
    hide Standing, Handled, Clear, WellFormed, LowerOne, IdsOf, FateOf, Trips, FateNeeds, Answered, ValueOf, FateReport, Fails, FreshIds;
    LoweredStands(w, guard, handlers);
    StandsAt(w, guard);
    FailsAlike(w, guard, handlers);
    NeedsAreAlike(w, guard, handlers);
    if w.spec.output.Some? {
      FirstAlikeIn(w, guard, handlers, w.spec.output.value);
      var answer := FirstFated(w, w.spec.output.value);
      if answer.Some? {
        AnsweredAlike(w, guard, handlers, answer.value);
      }
    }
  }

  lemma FailuresMeanTheSame(one: World, other: World)
    requires one.Ranks() && other.Ranks() && Fails(one)
    ensures SameMeaning(one, other) <==> Fails(other)
  {
    hide FateOf, Fails, FateNeeds, FateReport, FirstFated;
  }

  /**
   * What a guard that trips fails the run with: of a value that breaks a rule, the verdict on it, or for a list on its
   * first element refused; of a node whose fault was caught, that fault, whatever it says of where it was.
   */
  ghost predicate Says(w: World, guard: Guard, failure: Outcome)
    requires w.Ranks() && guard.id in w.spec.nodes
  {
    match FateOf(w, guard.id)
    case Ran(value, _) => SaysOf(guard, value, failure)
    case Broke(fault) => CatcherOf(w.spec, guard.id).Some? && SameOutcome(fault, failure)
    case _ => false
  }

  ghost predicate SaysOf(guard: Guard, value: Json, failure: Outcome) {
    !Holds(guard, value) && !failure.Answer? &&
    if guard.arity.One? then failure == Verdict(guard, value) else value.Arr? ==> FirstRefusal(guard, value.items, failure)
  }

  /** A node that ends the run with what a guard says. */
  ghost predicate EndsSaying(w: World, id: Id, was: World, guard: Guard)
    requires w.Ranks() && was.Ranks() && guard.id in was.spec.nodes
  {
    id in w.spec.nodes && EndsRun(w, id) && FateOf(w, id).Broke? && Says(was, guard, FateOf(w, id).failure)
  }

  /** A guard that trips fails the run, and says why. */
  lemma GuardTrips(w: World, guard: Guard, handlers: GuardHandlers) returns (id: Id)
    requires Guardable(w, guard, handlers) && guard.id in w.spec.nodes && Trips(w, guard)
    ensures Lowered(w, guard, handlers).Sound() && Fails(Lowered(w, guard, handlers))
    ensures EndsSaying(Lowered(w, guard, handlers), id, w, guard)
  {
    hide Standing, Handled, Clear, WellFormed, Lowered, FateOf, Fails, Holds, FirstFailing, InputsAt, ViolatedId, IdsOf;
    LoweredStands(w, guard, handlers);
    StandsAt(w, guard);
    if Breaks(w, guard) {
      id := GuardRefuses(w, guard, handlers);
      BrokeIsFailure(Lowered(w, guard, handlers), id);
    } else {
      id := FaultFails(w, guard, handlers);
    }
  }

  /**
   * Exactly when a guard preserves what a spec means: when the value breaks no rule and no caught fault is lost, or
   * the run fails as it is. A catch that names the guarded node is the one thing the rewriting leaves behind: it
   * sends a switch's targets after the moved node, and not the key it is caught by.
   */
  lemma GuardPreservesExactly(w: World, guard: Guard, handlers: GuardHandlers)
    requires Guardable(w, guard, handlers) && guard.id in w.spec.nodes
    ensures Lowered(w, guard, handlers).Sound()
    ensures SameMeaning(Lowered(w, guard, handlers), w) <==> !Trips(w, guard) || Fails(w)
  {
    hide Standing, Handled, Clear, WellFormed, Lowered, FateOf, Trips, Fails, SameMeaning;
    LoweredStands(w, guard, handlers);
    StandsAt(w, guard);
    if Trips(w, guard) {
      var _ := GuardTrips(w, guard, handlers);
      FailuresMeanTheSame(Lowered(w, guard, handlers), w);
    } else {
      GuardPreserves(w, guard, handlers);
    }
  }

  // ---- node by node -----------------------------------------------------------------------------

  /**
   * Where no rule is broken and no catch is lost, every node answers if it did, and with the value it did -- but for
   * a switch that chose the guarded node: its value is the id it routes to, which is the moved node's now.
   */
  lemma EveryValueStands(w: World, guard: Guard, handlers: GuardHandlers, id: Id)
    requires Guardable(w, guard, handlers) && guard.id in w.spec.nodes && !Trips(w, guard) && id in w.spec.nodes
    ensures Lowered(w, guard, handlers).Sound() && id in Lowered(w, guard, handlers).spec.nodes
    ensures Answered(Lowered(w, guard, handlers), id) <==> Answered(w, id)
    ensures Answered(w, id) ==>
      ValueOf(Lowered(w, guard, handlers), id) ==
        if Chose(w, id, guard.id) then Str(IdsOf(guard).made) else ValueOf(w, id)
    ensures Chose(w, id, guard.id) ==> Chose(Lowered(w, guard, handlers), id, IdsOf(guard).made)
  {
    hide Standing, Handled, Clear, WellFormed, LowerWithOutput, IdsOf, FateOf, AddedIds, AddedNodes, FreshIds, RoutesTo;
    LoweredStands(w, guard, handlers);
    StandsAt(w, guard);
    GuardStands(w, guard, handlers);
    FateSelects(w, guard.id);
    CallsRouteNowhere(w.spec.nodes[guard.id], guard.id);
    if id != guard.id {
      ThereFate(w, guard, handlers, id);
    }
  }

  // ---- where it trips too -----------------------------------------------------------------------

  /** If the guarded id answers, it answers what it answered; if it breaks where that is caught, it refuses. */
  lemma GuardStays(w: World, guard: Guard, handlers: GuardHandlers)
    requires Guardable(w, guard, handlers) && guard.id in w.spec.nodes
    ensures Lowered(w, guard, handlers).Sound() && guard.id in Lowered(w, guard, handlers).spec.nodes
    ensures var fate, fate' := FateOf(w, guard.id), FateOf(Lowered(w, guard, handlers), guard.id);
      !fate'.Given? && (fate'.Ran? ==> fate' == fate) &&
      (fate'.Broke? && CatcherOf(w.spec, guard.id).Some? ==> fate'.failure.Refused?)
  {
    hide Standing, Handled, Clear, WellFormed, Lowered, IdsOf, FateOf, Verdict, FreshIds, CatcherOf;
    LoweredStands(w, guard, handlers);
    StandsAt(w, guard);
    ClearMakesLists(w, guard);
    MadeFate(w, guard, handlers);
    MadeIsPlain(w, guard, handlers);
    if guard.arity.One? {
      OkFate(w, guard, handlers);
    } else {
      ManyFate(w, guard, handlers);
    }
  }

  /** A dependency that is met afterwards was met before, and left the same. */
  lemma MetWasMet(w: World, guard: Guard, handlers: GuardHandlers, id: Id, d: Id)
    requires Guardable(w, guard, handlers) && guard.id in w.spec.nodes && Lowered(w, guard, handlers).Sound()
    requires id in w.spec.nodes && d in w.spec.nodes && d in Lowered(w, guard, handlers).spec.nodes
    requires Meets(Lowered(w, guard, handlers).spec, id, d, FateOf(Lowered(w, guard, handlers), d))
    requires d != guard.id ==>
      var fate' := FateOf(Lowered(w, guard, handlers), d);
      fate'.Ran? || fate'.Broke? ==> fate' == MovedFate(guard, FateOf(w, d))
    ensures var fate, fate' := FateOf(w, d), FateOf(Lowered(w, guard, handlers), d);
      if d == guard.id then StandsForNode(fate, fate') && !LosesCatch(w, guard, fate) else fate' == MovedFate(guard, fate)
  {
    hide Standing, Handled, Clear, WellFormed, Lowered, IdsOf, FateOf, FreshIds, CatcherOf;
    StandsAt(w, guard);
    var w' := Lowered(w, guard, handlers);
    CatchersAre(w, guard, handlers, d);
    GivenIsSupplied(w, d);
    GivenIsSupplied(w', d);
    LoweredSupplied(w, guard, handlers);
    if d == guard.id {
      GuardStays(w, guard, handlers);
    }
  }

  lemma LoweredSupplied(w: World, guard: Guard, handlers: GuardHandlers)
    requires w.Ranks() && guard.kind.Made? && guard.id in w.spec.nodes && guard.unproved != []
    ensures Lowered(w, guard, handlers).supplied == w.supplied && Lowered(w, guard, handlers).handlers == w.handlers
  {
    hide LowerWithOutput;
  }

  /**
   * Whether or not the guard trips, what was there and comes to something afterwards, an answer or a failure, came to
   * it before: a guard that trips only keeps nodes from running.
   */
  lemma {:induction false} StillSame(w: World, guard: Guard, handlers: GuardHandlers, id: Id)
    requires Guardable(w, guard, handlers) && guard.id in w.spec.nodes && id in w.spec.nodes && id != guard.id
    ensures Lowered(w, guard, handlers).Sound() && id in Lowered(w, guard, handlers).spec.nodes
    ensures var fate' := FateOf(Lowered(w, guard, handlers), id);
      fate'.Ran? || fate'.Broke? ==> fate' == MovedFate(guard, FateOf(w, id))
    decreases w.rank[id]
  {
    hide Standing, Handled, Clear, WellFormed, Lowered, FateOf, FatesBefore, Judge, WaitsFor, MovedFate, StandsForNode, LosesCatch, Selecting, ReadsNoChoice, Meets;
    LoweredStands(w, guard, handlers);
    StandsAt(w, guard);
    ClearReads(w, guard, id);
    var w' := Lowered(w, guard, handlers);
    ThereWaits(w, guard, handlers, id);
    FateIsJudged(w, id);
    FateIsJudged(w', id);
    FatesSelect(w, id);
    WaitsComeBefore(w, id);
    var fates, fates' := FatesBefore(w, id), FatesBefore(w', id);
    if FateOf(w', id).Ran? || FateOf(w', id).Broke? {
      JudgedMet(w', id, fates');
      forall d | d in fates
        ensures if d == guard.id then StandsForNode(fates[d], fates'[d]) && !LosesCatch(w, guard, fates[d])
          else fates'[d] == MovedFate(guard, fates[d])
      {
        if d != guard.id {
          StillSame(w, guard, handlers, d);
        }
        MetWasMet(w, guard, handlers, id, d);
      }
      ThereJudge(w, guard, handlers, id, fates, fates');
    }
  }

  lemma JudgedMet(w: World, id: Id, fates: map<Id, Fate>)
    requires id in w.spec.nodes && (Judge(w, id, fates).Ran? || Judge(w, id, fates).Broke?)
    ensures forall d :: d in fates ==> Meets(w.spec, id, d, fates[d])
  {
    hide Meets, IsCut, IsChosen, Comes, RootsSupplied;
  }
}
