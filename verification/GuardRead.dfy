/**
 * A spec that a guard changes though its rule holds of every value: a switch's answer is the id it routes to, and one
 * that routes to the node guarded answers another once it is.
 */
module GuardRead {
  import opened Json
  import opened Sources
  import opened Outcomes
  import opened KernelSpec
  import opened Fates
  import opened Meaning
  import opened Kernel
  import opened Guards
  import opened GuardSites
  import opened GuardWaits
  import opened GuardFates
  import opened GuardOwn
  import opened GuardTaken
  import opened GuardLaws
  import opened GuardCatch

  /** `s` routes to `n`, its rule holding of the value written, and `y` answers the name of the way `s` took. */
  const ROUTES: Node :=
    Switch(map["value" := Value(Some(Str("on")))], [Rule((inputs: Inputs) => "value" in inputs, "n")], "x", [])
  const ECHOES: Node := Call("echo", map["name" := Ref("s", []), "value" := Ref("n", [])], {})

  function Echoing(inputs: Inputs): Outcome {
    if "name" in inputs then Answer(inputs["name"]) else FAULT
  }

  function NameRead(): World {
    World(
      Spec(map["s" := ROUTES, "n" := ANSWERS, "x" := ANSWERS, "y" := ECHOES], ["s", "n", "x", "y"], Some(["y", "x"])),
      map["s" := 0, "n" := 1, "x" := 1, "y" := 2],
      map["echo" := (path: seq<string>, inputs: Inputs) => Echoing(inputs),
          "answers" := (path: seq<string>, inputs: Inputs) => Answer(Null),
          "make" := (path: seq<string>, inputs: Inputs) => Making(inputs),
          "refuse" := (path: seq<string>, inputs: Inputs) => Refusing(inputs)],
      Supplied(map[], map[]))
  }

  lemma ReadRoutes(id: Id, t: Id)
    requires id in NameRead().spec.nodes
    ensures RoutesTo(NameRead().spec.nodes[id], t) <==> id == "s" && (t == "n" || t == "x")
  {
    var targets := TargetsOf(ROUTES);
    assert targets[0] == "n" && targets[1] == "x" && |targets| == 2;
  }

  lemma ReadNodes()
    ensures var spec := NameRead().spec;
      spec.nodes.Keys == {"s", "n", "x", "y"} && spec.nodes["s"] == ROUTES && spec.nodes["n"] == ANSWERS &&
      spec.nodes["x"] == ANSWERS && spec.nodes["y"] == ECHOES && spec.order == ["s", "n", "x", "y"] && spec.output == Some(["y", "x"])
    ensures NameRead().supplied == Supplied(map[], map[])
    ensures NameRead().Ranks() && NameRead().rank["s"] == 0 && NameRead().rank["n"] == 1
    ensures NameRead().rank["x"] == 1 && NameRead().rank["y"] == 2
  {
  }

  lemma ReadIsListed()
    ensures Listed(NameRead().spec) && RoutedOnce(NameRead().spec) && TargetsExist(NameRead().spec)
    ensures NameRead().spec.nodes.Keys !! PSEUDO
  {
    hide RoutesTo;
    ListedOnce(NameRead().spec);
    forall s, t | s in NameRead().spec.nodes ensures RoutesTo(NameRead().spec.nodes[s], t) <==> s == "s" && (t == "n" || t == "x") {
      ReadRoutes(s, t);
    }
    assert forall id :: id in ["s", "n", "x", "y"] <==> id in {"s", "n", "x", "y"};
  }

  lemma ReadRouters(id: Id)
    ensures RouterOf(NameRead().spec, id) == if id == "n" || id == "x" then Some("s") else None
  {
    hide NameRead, RouterOf, RoutesTo;
    ReadNodes();
    ReadIsListed();
    forall s | s in NameRead().spec.nodes
      ensures RoutesTo(NameRead().spec.nodes[s], id) <==> s == "s" && (id == "n" || id == "x")
    {
      ReadRoutes(s, id);
    }
    if id == "n" || id == "x" {
      RouterIs(NameRead().spec, "s", id);
    } else {
      RouterNone(NameRead().spec, id);
    }
  }

  lemma ReadRefs()
    ensures NodeRefs(ROUTES) == {} && NodeRefs(ECHOES) == {"s", "n"}
    ensures Caught(ROUTES) == {} && Caught(ECHOES) == {}
  {
    var written := map["value" := Value(Some(Str("on")))];
    assert RefsOf(Object(written)) == {};
    var read := map["name" := Ref("s", []), "value" := Ref("n", [])];
    assert "name" in read && "s" in RefsOf(read["name"]) && "value" in read && "n" in RefsOf(read["value"]);
    assert RefsOf(Object(read)) == {"s", "n"};
  }

  lemma ReadWaits()
    ensures {"s", "n", "x", "y"} == NameRead().spec.nodes.Keys
    ensures WaitsFor(NameRead().spec, "s") == {} && WaitsFor(NameRead().spec, "n") == {"s"}
    ensures WaitsFor(NameRead().spec, "x") == {"s"} && WaitsFor(NameRead().spec, "y") == {"s", "n"}
  {
    hide NameRead, WaitsFor, RouterOf, NodeRefs, RoutesTo, Caught;
    ReadNodes();
    ReadRefs();
    GuardCatch.NoRefs();
    ReadRouters("s");
    ReadRouters("n");
    ReadRouters("x");
    ReadRouters("y");
    WaitsAre(NameRead().spec, "s");
    WaitsAre(NameRead().spec, "n");
    WaitsAre(NameRead().spec, "x");
    WaitsAre(NameRead().spec, "y");
  }

  lemma ReadIsSound()
    ensures NameRead().Sound()
  {
    hide NameRead, WaitsFor, Listed, RoutedOnce, TargetsExist;
    ReadNodes();
    ReadIsListed();
    ReadWaits();
  }

  lemma ReadCatches(id: Id)
    ensures forall s :: s in NameRead().spec.nodes ==> !CatchesKey(NameRead().spec.nodes[s], id)
    ensures CatcherOf(NameRead().spec, id) == None
  {
  }

  lemma ReadComings(values: Values)
    ensures "s" in NameRead().spec.nodes && Comes(NameRead(), "s", values, {}) == Ran(Str("n"), Some("n"))
    ensures "n" in NameRead().spec.nodes && Comes(NameRead(), "n", values, {}) == Ran(Null, None)
    ensures "y" in NameRead().spec.nodes && "x" in NameRead().spec.nodes
    ensures "s" in values ==> Comes(NameRead(), "y", values, {}) == Ran(values["s"], None)
  {
    var written := map["value" := Value(Some(Str("on")))];
    assert "value" in written && ReadSource(written["value"], values) == Some(Str("on"));
    assert "value" in ReadAll(written, values);
    var read := map["name" := Ref("s", []), "value" := Ref("n", [])];
    assert "name" in read;
    if "s" in values {
      assert ReadSource(read["name"], values) == Some(values["s"]);
      assert ReadAll(read, values)["name"] == values["s"];
    }
  }

  // ---- what it comes to, as written -------------------------------------------------------------

  /** `y`, once the two nodes it reads have answered, whatever spec they are in. */
  lemma EchoRuns(w: World, name: Json, selected: Option<Id>, value: Json)
    requires w.Sound() && "y" in w.spec.nodes && "s" in w.spec.nodes && "n" in w.spec.nodes && "y" !in w.supplied.values
    requires WaitsFor(w.spec, "y") == {"s", "n"} && RouterOf(w.spec, "y") == None && NodeRefs(w.spec.nodes["y"]) == {"s", "n"}
    requires CatcherOf(w.spec, "s") == None && CatcherOf(w.spec, "n") == None
    requires FateOf(w, "s") == Ran(name, selected) && FateOf(w, "n") == Ran(value, None)
    ensures FateOf(w, "y") == Comes(w, "y", FateValues(w, FatesBefore(w, "y")), {})
    ensures "s" in FateValues(w, FatesBefore(w, "y")) && FateValues(w, FatesBefore(w, "y"))["s"] == name
  {
    hide WellFormed, FateOf, FatesBefore, WaitsFor, Comes, RouterOf, CatcherOf, NodeRefs;
    FateIsJudged(w, "y");
    var fates := FatesBefore(w, "y");
    assert "s" in fates && "n" in fates && fates.Keys == {"s", "n"};
    assert FateBroke(w, "y", fates) == {};
    assert RootsSupplied(w.spec.nodes["y"], w.supplied.values);
  }

  lemma ReadFates()
    ensures NameRead().Sound() && NameRead().spec.nodes.Keys == {"s", "n", "x", "y"}
    ensures FateOf(NameRead(), "s") == Ran(Str("n"), Some("n")) && FateOf(NameRead(), "n") == Ran(Null, None)
    ensures FateOf(NameRead(), "x") == Cut && FateOf(NameRead(), "y") == Ran(Str("n"), None)
  {
    hide NameRead, WellFormed, WaitsFor, RouterOf, NodeRefs, FateOf, FatesBefore, Comes, CatcherOf, FateValues;
    var w := NameRead();
    ReadNodes();
    ReadIsSound();
    ReadWaits();
    ReadRefs();
    GuardCatch.NoRefs();
    ReadRouters("s");
    ReadRouters("n");
    ReadRouters("x");
    ReadRouters("y");
    ReadCatches("s");
    ReadCatches("n");
    ReadComings(FateValues(w, map[]));
    FreeFate(w, "s");
    ChosenFate(w, "n", "s");
    ReadComings(FateValues(w, FatesBefore(w, "n")));
    ChosenFate(w, "x", "s");
    EchoRuns(w, Str("n"), Some("n"), Null);
    ReadComings(FateValues(w, FatesBefore(w, "y")));
  }

  // ---- what it comes to, guarded ----------------------------------------------------------------

  lemma FreshAreOthers(id: Id)
    requires id in FreshIds(GUARD)
    ensures Unnamed(NameRead().spec, id)
  {
    hide NameRead, FreshIds, NodeRefs, CatchesKey;
    TheIds();
    ReadNodes();
    ReadRefs();
    GuardCatch.NoRefs();
    ReadCatches(id);
    OtherIds(id);
    assert id != "s" && id != "n";
    forall n | n in NameRead().spec.nodes
      ensures id !in NodeRefs(NameRead().spec.nodes[n]) && id !in Named(NameRead().spec.nodes[n])
    {
    }
  }

  lemma ReadIsPlaced()
    ensures Placed(NameRead(), GUARD, HANDLERS)
  {
    hide NameRead, FreshIds, Unnamed, WellFormed, Handled;
    TheIds();
    ReadNodes();
    ReadIsSound();
    forall id | id in FreshIds(GUARD) ensures Unnamed(NameRead().spec, id) {
      FreshAreOthers(id);
    }
    ReadIsHandled();
  }

  lemma ReadIsHandled()
    ensures Handled(NameRead(), GUARD, HANDLERS)
  {
    hide FreshIds;
    forall name | RunsBy(NameRead().spec, "n", name) ensures Placeless(NameRead().handlers, name) {
      assert name == "answers";
    }
  }

  function There(): World {
    ReadIsPlaced();
    TheIds();
    ReadNodes();
    Lowered(NameRead(), GUARD, HANDLERS)
  }

  lemma ThereStatics()
    ensures There().Sound() && {"s", "n", "x", "y", "n:made", "n:check", "n:violated"} == There().spec.nodes.Keys
    ensures WaitsFor(There().spec, "s") == {} && WaitsFor(There().spec, "n:made") == {"s"}
    ensures WaitsFor(There().spec, "x") == {"s"} && WaitsFor(There().spec, "y") == {"s", "n"}
    ensures RouterOf(There().spec, "s") == None && RouterOf(There().spec, "y") == None
    ensures RouterOf(There().spec, "x") == Some("s") && RouterOf(There().spec, "n:made") == Some("s")
    ensures There().supplied == Supplied(map[], map[])
  {
    hide NameRead, Standing, Handled, WellFormed, Lowered, WaitsFor, RouterOf, FreshIds, NodeRefs, AddedIds, AddedNodes, IdsOf;
    var w, w' := NameRead(), There();
    ReadNodes();
    ReadIsPlaced();
    TheIds();
    LoweredStands(w, GUARD, HANDLERS);
    LoweredSupplied(w, GUARD, HANDLERS);
    ReadWaits();
    ReadRouters("s");
    ReadRouters("n");
    ReadRouters("x");
    ReadRouters("y");
    ThereWaits(w, GUARD, HANDLERS, "s");
    ThereWaits(w, GUARD, HANDLERS, "x");
    ThereWaits(w, GUARD, HANDLERS, "y");
    MadeWaits(w, GUARD, HANDLERS);
    RoutersAre(w, GUARD, HANDLERS, "s");
    RoutersAre(w, GUARD, HANDLERS, "x");
    RoutersAre(w, GUARD, HANDLERS, "y");
    RoutersAre(w, GUARD, HANDLERS, "n:made");
    ThereKeys();
  }

  lemma ThereKeys()
    ensures There().spec.nodes.Keys == {"s", "n", "x", "y", "n:made", "n:check", "n:violated"}
  {
    hide NameRead, Standing, Handled, WellFormed, Lowered, AddedNodes, IdsOf, AddedIds, Rerouted;
    ReadNodes();
    ReadIsPlaced();
    TheIds();
    forall id ensures id in There().spec.nodes <==> id in {"s", "n", "x", "y", "n:made", "n:check", "n:violated"} {
      NodesAre(NameRead(), GUARD, HANDLERS, id);
    }
  }

  lemma ThereComings(values: Values)
    ensures "s" in There().spec.nodes && Comes(There(), "s", values, {}) == Ran(Str("n:made"), Some("n:made"))
    ensures "y" in There().spec.nodes && ("s" in values ==> Comes(There(), "y", values, {}) == Ran(values["s"], None))
    ensures "n:made" in There().spec.nodes && Comes(There(), "n:made", values, {}) == Ran(Null, None)
    ensures NodeRefs(There().spec.nodes["y"]) == {"s", "n"} && NodeRefs(There().spec.nodes["s"]) == {}
    ensures NodeRefs(There().spec.nodes["n:made"]) == {}
  {
    hide NameRead, Standing, Handled, WellFormed, Lowered, Comes, FreshIds, NodeRefs, IdsOf, AddedIds, AddedNodes;
    var w := NameRead();
    ReadNodes();
    ReadIsPlaced();
    TheIds();
    ReadRefs();
    GuardCatch.NoRefs();
    ReadComings(values);
    ThereComes(w, GUARD, HANDLERS, "s", values, {});
    ThereComes(w, GUARD, HANDLERS, "y", values, {});
    ThereRoots(w, GUARD, HANDLERS, "s");
    ThereRoots(w, GUARD, HANDLERS, "y");
    MadeComes(w, GUARD, HANDLERS, values, {}, {});
    NodesAre(w, GUARD, HANDLERS, "n:made");
  }

  lemma ThereCatches(id: Id)
    ensures CatcherOf(There().spec, id) == None
  {
    hide NameRead, Standing, Handled, WellFormed, Lowered, CatcherOf, FreshIds;
    ReadIsPlaced();
    TheIds();
    ReadCatches(id);
    CatchersAre(NameRead(), GUARD, HANDLERS, id);
  }

  lemma ThereRouted()
    ensures There().Sound() && {"s", "x", "n:made"} <= There().spec.nodes.Keys
    ensures FateOf(There(), "s") == Ran(Str("n:made"), Some("n:made")) && FateOf(There(), "x") == Cut
    ensures FateOf(There(), "n:made") == Ran(Null, None)
  {
    hide There, WellFormed, WaitsFor, RouterOf, NodeRefs, FateOf, FatesBefore, Comes, CatcherOf, FateValues;
    var w := There();
    ThereStatics();
    ThereCatches("s");
    ThereComings(FateValues(w, map[]));
    FreeFate(w, "s");
    ChosenFate(w, "x", "s");
    ChosenFate(w, "n:made", "s");
    ThereComings(FateValues(w, FatesBefore(w, "n:made")));
  }

  lemma ThereOwn()
    ensures There().Sound() && {"n", "n:check", "n:violated"} <= There().spec.nodes.Keys
    ensures FateOf(There(), "n") == Ran(Null, None) && FateOf(There(), "n:check").Ran? && FateOf(There(), "n:violated") == Cut
  {
    hide NameRead, Standing, Handled, WellFormed, Lowered, FateOf, IdsOf, FreshIds;
    ThereRouted();
    ReadIsPlaced();
    TheIds();
    ThereKeys();
    assert Verdict(GUARD, Null).Answer? && FirstFailing(GUARD.unproved, InputsAt(GUARD, Null)) == 1 by {
      hide InputsAt;
    }
    OkFate(NameRead(), GUARD, HANDLERS);
    CheckFate(NameRead(), GUARD, HANDLERS);
    RefusalFate(NameRead(), GUARD, HANDLERS, 0);
  }

  lemma ThereEcho()
    ensures There().Sound() && "y" in There().spec.nodes && FateOf(There(), "y") == Ran(Str("n:made"), None)
  {
    hide There, WellFormed, WaitsFor, RouterOf, NodeRefs, FateOf, FatesBefore, Comes, CatcherOf, FateValues;
    var w := There();
    ThereStatics();
    ThereRouted();
    ThereOwn();
    ThereCatches("s");
    ThereCatches("n");
    ThereComings(FateValues(w, FatesBefore(w, "y")));
    EchoRuns(w, Str("n:made"), Some("n:made"), Null);
  }

  /** An output that does not name the guarded value takes no refusal. */
  lemma {:induction false} OutputStays(output: seq<Id>, guard: Guard)
    requires IdsOf(guard).ok !in output
    ensures WithViolated(output, guard) == output
  {
    hide IdsOf, ViolatedIds;
    if output != [] {
      assert output[0] in output;
      OutputStays(output[1..], guard);
      assert [output[0]] + [] + output[1..] == output;
    }
  }

  lemma ThereOutput()
    ensures There().spec.output == Some(["y", "x"])
  {
    hide NameRead, LowerOne, IdsOf, WithViolated, Standing, Handled;
    ReadNodes();
    ReadIsPlaced();
    TheIds();
    assert "n" !in ["y", "x"];
    OutputStays(["y", "x"], GUARD);
  }

  lemma DoneWith(w: World, value: Json)
    requires w.Ranks() && "y" in w.spec.nodes && w.spec.output == Some(["y", "x"]) && FateOf(w, "y") == Ran(value, None)
    requires forall id :: id in w.spec.nodes ==> !FateOf(w, id).Broke?
    ensures !Fails(w) && Means(w).status.RunDone? && Means(w).output == Some(value) && Means(w).answeredBy == Some("y")
  {
    hide FateOf, CatcherOf;
    assert FirstFated(w, ["y", "x"]) == Some("y");
  }

  /**
   * The guard can be lowered and its rule holds of every value. The spec is done as it is written and once guarded, with
   * `y`'s answer both times: the name of the way taken, which is another.
   */
  lemma NameIsRead()
    ensures Placed(NameRead(), GUARD, HANDLERS) && (forall value :: Holds(GUARD, value)) && There() == Lowered(NameRead(), GUARD, HANDLERS)
    ensures There().Sound() && Means(NameRead()).status.RunDone? && Means(There()).status.RunDone?
    ensures Means(NameRead()).output == Some(Str("n")) && Means(There()).output == Some(Str("n:made"))
    ensures !Clear(NameRead(), GUARD)
  {
    hide NameRead, Standing, Handled, Lowered, WellFormed, FateOf, Means, Holds, FreshIds;
    ReadIsPlaced();
    ReadNodes();
    TheIds();
    ReadFates();
    RuleHolds();
    DoneWith(NameRead(), Str("n"));
    ThereKeys();
    ThereRouted();
    ThereOwn();
    ThereEcho();
    ThereOutput();
    DoneWith(There(), Str("n:made"));
    NotClear();
  }

  lemma NotClear()
    ensures NameRead().Ranks() && "n" in NameRead().spec.nodes && !Clear(NameRead(), GUARD)
  {
    hide NameRead, FateOf, NodeRefs, WellFormed;
    ReadNodes();
    ReadFates();
    ReadRefs();
    TheIds();
    assert Chose(NameRead(), "s", "n");
    assert "s" in NodeRefs(NameRead().spec.nodes["y"]);
  }
}
