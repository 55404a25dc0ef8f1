/**
 * A spec that a guard changes though its rule holds of every value: a switch caught the fault of the node it guards. A
 * graph of this form is refused before it is lowered, by G025.
 */
module GuardCatch {
  import opened Json
  import opened Sources
  import opened Outcomes
  import opened KernelSpec
  import opened Fates
  import opened Meaning
  import opened Kernel
  import opened Guards
  import opened GuardSites
  import opened GuardWaits
  import opened GuardFates
  import opened GuardTaken
  import opened GuardLaws

  const FAULT := Fault("broke")
  const BREAKS := Call("breaks", map[], {})
  const ANSWERS := Call("answers", map[], {})
  /** `s` reads `n` and routes to `x`; what `n` breaks with it catches, and sends to `y`. */
  const CATCHES: Node :=
    Switch(map["value" := Ref("n", [])], [Rule((inputs: Inputs) => "value" in inputs, "x")], "x", [("n", "y")])
  const HANDLERS := GuardHandlers("make", "refuse")
  /** The one rule of the guard holds of everything. */
  const GUARD := Guard(Made, "n", One, "shape", [Unproved((inputs: Inputs) => true, "never")], {"field"}, "")

  function Making(inputs: Inputs): Outcome {
    if "value" in inputs then Answer(inputs["value"]) else FAULT
  }

  function Refusing(inputs: Inputs): Outcome {
    if "reason" in inputs && "message" in inputs && inputs["reason"].Str? && inputs["message"].Str?
    then Refused(inputs["reason"].s, inputs["message"].s) else FAULT
  }

  function FaultCaught(): World {
    World(
      Spec(map["n" := BREAKS, "s" := CATCHES, "x" := ANSWERS, "y" := ANSWERS], ["n", "s", "x", "y"], Some(["x", "y"])),
      map["n" := 0, "s" := 1, "x" := 2, "y" := 2],
      map["breaks" := (path: seq<string>, inputs: Inputs) => FAULT,
          "answers" := (path: seq<string>, inputs: Inputs) => Answer(Null),
          "make" := (path: seq<string>, inputs: Inputs) => Making(inputs),
          "refuse" := (path: seq<string>, inputs: Inputs) => Refusing(inputs)],
      Supplied(map[], map[]))
  }

  lemma Routes(id: Id, t: Id)
    requires id in FaultCaught().spec.nodes
    ensures RoutesTo(FaultCaught().spec.nodes[id], t) <==> id == "s" && (t == "x" || t == "y")
  {
    var targets := TargetsOf(CATCHES);
    assert targets[0] == "x" && targets[1] == "x" && targets[2] == "y" && |targets| == 3;
  }

  lemma Routers(id: Id)
    ensures RouterOf(FaultCaught().spec, id) == if id == "x" || id == "y" then Some("s") else None
  {
    hide FaultCaught, RouterOf, RoutesTo;
    CaughtNodes();
    CaughtIsListed();
    forall s | s in FaultCaught().spec.nodes ensures RoutesTo(FaultCaught().spec.nodes[s], id) <==> s == "s" && (id == "x" || id == "y") {
      Routes(s, id);
    }
    if id == "x" || id == "y" {
      RouterIs(FaultCaught().spec, "s", id);
    } else {
      RouterNone(FaultCaught().spec, id);
    }
  }

  lemma CaughtNodes()
    ensures var spec := FaultCaught().spec;
      spec.nodes.Keys == {"n", "s", "x", "y"} && spec.nodes["n"] == BREAKS && spec.nodes["s"] == CATCHES &&
      spec.nodes["x"] == ANSWERS && spec.nodes["y"] == ANSWERS && spec.order == ["n", "s", "x", "y"] && spec.output == Some(["x", "y"])
    ensures FaultCaught().supplied == Supplied(map[], map[])
    ensures FaultCaught().Ranks() && FaultCaught().rank["n"] == 0 && FaultCaught().rank["s"] == 1
    ensures FaultCaught().rank["x"] == 2 && FaultCaught().rank["y"] == 2
  {
  }

  lemma CaughtIsListed()
    ensures Listed(FaultCaught().spec) && RoutedOnce(FaultCaught().spec) && TargetsExist(FaultCaught().spec)
    ensures FaultCaught().spec.nodes.Keys !! PSEUDO
  {
    hide RoutesTo;
    ListedOnce(FaultCaught().spec);
    forall s, t | s in FaultCaught().spec.nodes ensures RoutesTo(FaultCaught().spec.nodes[s], t) <==> s == "s" && (t == "x" || t == "y") {
      Routes(s, t);
    }
    assert forall id :: id in ["n", "s", "x", "y"] <==> id in {"n", "s", "x", "y"};
  }

  lemma NoRefs()
    ensures NodeRefs(BREAKS) == {} && NodeRefs(ANSWERS) == {} && NodeRefs(CATCHES) == {"n"}
    ensures Caught(CATCHES) == {"n"} && Caught(BREAKS) == {} && Caught(ANSWERS) == {}
  {
    var none: map<string, Source> := map[];
    assert RefsOf(Object(none)) == {};
    var read := map["value" := Ref("n", [])];
    assert "value" in read && "n" in RefsOf(read["value"]);
    assert RefsOf(Object(read)) == {"n"};
    assert CATCHES.catches[0].0 == "n";
  }

  lemma Waits()
    ensures {"n", "s", "x", "y"} == FaultCaught().spec.nodes.Keys
    ensures WaitsFor(FaultCaught().spec, "n") == {} && WaitsFor(FaultCaught().spec, "s") == {"n"}
    ensures WaitsFor(FaultCaught().spec, "x") == {"s"} && WaitsFor(FaultCaught().spec, "y") == {"s"}
  {
    hide FaultCaught, WaitsFor, RouterOf, NodeRefs, RoutesTo, Caught;
    CaughtNodes();
    NoRefs();
    Routers("n");
    Routers("s");
    Routers("x");
    Routers("y");
    WaitsAre(FaultCaught().spec, "n");
    WaitsAre(FaultCaught().spec, "s");
    WaitsAre(FaultCaught().spec, "x");
    WaitsAre(FaultCaught().spec, "y");
  }

  lemma CaughtIsSound()
    ensures FaultCaught().Sound()
  {
    hide FaultCaught, WaitsFor, Listed, RoutedOnce, TargetsExist;
    CaughtNodes();
    CaughtIsListed();
    Waits();
  }

  lemma Catchers(id: Id)
    ensures CatcherOf(FaultCaught().spec, id) == if id == "n" then Some("s") else None
  {
    hide FaultCaught, CatchesKey;
    CaughtNodes();
    assert CATCHES.catches[0].0 == "n";
    assert CatchesKey(CATCHES, id) <==> id == "n" by { CatchKeys(id); }
    assert !CatchesKey(BREAKS, id) && !CatchesKey(ANSWERS, id) by { CatchKeys(id); }
    var spec := FaultCaught().spec;
    assert spec.order[..3] == ["n", "s", "x"] && spec.order[..3][..2] == ["n", "s"];
    assert CatcherIn(spec, ["n", "s"], id) == if id == "n" then Some("s") else None by {
      assert ["n", "s"][..1] == ["n"] && ["n"][..0] == [];
    }
    assert CatcherIn(spec, ["n", "s", "x"], id) == CatcherIn(spec, ["n", "s"], id);
  }

  lemma CatchKeys(id: Id)
    ensures CatchesKey(CATCHES, id) <==> id == "n"
    ensures !CatchesKey(BREAKS, id) && !CatchesKey(ANSWERS, id)
  {
    assert CATCHES.catches[0].0 == "n";
  }

  // ---- what it comes to -------------------------------------------------------------------------

  lemma Comings(values: Values)
    ensures "n" in FaultCaught().spec.nodes && Comes(FaultCaught(), "n", values, {}) == Broke(FAULT)
    ensures "s" in FaultCaught().spec.nodes && Comes(FaultCaught(), "s", values, {"n"}) == Ran(Str("y"), Some("y"))
    ensures "y" in FaultCaught().spec.nodes && Comes(FaultCaught(), "y", values, {}) == Ran(Null, None)
    ensures "x" in FaultCaught().spec.nodes
  {
    assert CATCHES.catches[0].0 in {"n"};
  }

  lemma TheFates()
    ensures FaultCaught().Sound() && "n" in FaultCaught().spec.nodes && "s" in FaultCaught().spec.nodes && "y" in FaultCaught().spec.nodes
    ensures FateOf(FaultCaught(), "n") == Broke(FAULT)
    ensures FateOf(FaultCaught(), "s") == Ran(Str("y"), Some("y"))
    ensures FateOf(FaultCaught(), "y") == Ran(Null, None) && "x" in FaultCaught().spec.nodes && FateOf(FaultCaught(), "x") == Cut
  {
    hide FaultCaught, WellFormed, WaitsFor, RouterOf, NodeRefs, FateOf, FatesBefore, Comes, CatcherOf, FateValues;
    var w := FaultCaught();
    CaughtNodes();
    CaughtIsSound();
    Waits();
    NoRefs();
    Routers("n");
    Routers("s");
    Routers("x");
    Routers("y");
    Catchers("n");
    Catchers("s");
    Comings(FateValues(w, map[]));
    FreeFate(w, "n");
    var fates := FatesBefore(w, "s");
    FateIsJudged(w, "s");
    assert "n" in fates && fates == map["n" := Broke(FAULT)];
    assert FateBroke(w, "s", fates) == {"n"};
    Comings(FateValues(w, fates));
    ChosenFate(w, "x", "s");
    ChosenFate(w, "y", "s");
    Comings(FateValues(w, FatesBefore(w, "y")));
  }

  lemma IsDone()
    ensures FaultCaught().Sound() && !Fails(FaultCaught())
    ensures Means(FaultCaught()).status.RunDone? && Means(FaultCaught()).output == Some(Null) && Means(FaultCaught()).answeredBy == Some("y")
  {
    hide FaultCaught, WellFormed, WaitsFor, FateOf, CatcherOf;
    var w := FaultCaught();
    CaughtNodes();
    TheFates();
    Catchers("n");
    forall id | id in w.spec.nodes ensures !EndsRun(w, id) {
    }
    assert ["x", "y"][1..] == ["y"];
    assert FirstFated(w, ["y"]) == Some("y");
  }

  // ---- the guard --------------------------------------------------------------------------------

  lemma TheIds()
    ensures FreshIds(GUARD) == {"n:made", "n:check", "n:violated"}
    ensures GUARD.kind.Made? && GUARD.id == "n" && GUARD.arity.One? && |GUARD.unproved| == 1
    ensures IdsOf(GUARD) == GuardIds("n:made", "n:check", "n", "n:violated") && ViolatedId(IdsOf(GUARD), 0) == "n:violated"
    ensures AddedIds(GUARD) == ["n:check", "n", "n:violated"]
  {
    var ids := IdsOf(GUARD);
    assert ids == GuardIds("n:made", "n:check", "n", "n:violated");
    assert ViolatedIds(ids, 1) == ["n:violated"];
    assert AddedIds(GUARD) == ["n:check", "n", "n:violated"];
    var added := AddedIds(GUARD);
    assert added[0] == "n:check" && added[1] == "n" && added[2] == "n:violated";
    assert (set id | id in AddedIds(GUARD)) == {"n:check", "n", "n:violated"};
  }

  lemma FreshAreUnnamed(id: Id)
    requires id in FreshIds(GUARD)
    ensures Unnamed(FaultCaught().spec, id)
  {
    hide FaultCaught, FreshIds, NodeRefs, CatchesKey;
    TheIds();
    CaughtNodes();
    NoRefs();
    CatchKeys(id);
    assert id !in {"n", "s", "x", "y"} && id !in PSEUDO && id !in ["x", "y"] by { OtherIds(id); }
    forall n | n in FaultCaught().spec.nodes
      ensures id !in NodeRefs(FaultCaught().spec.nodes[n]) && id !in Named(FaultCaught().spec.nodes[n]) &&
        !CatchesKey(FaultCaught().spec.nodes[n], id)
    {
    }
  }

  lemma OtherIds(id: Id)
    requires id in {"n:made", "n:check", "n:violated"}
    ensures id !in {"n", "s", "x", "y"} && id !in PSEUDO && id !in ["x", "y"]
  {
    assert |id| >= 6;
    assert id[1] == ':';
    assert "const"[1] == 'o' && "context"[1] == 'o';
  }

  lemma GuardStandsThere()
    ensures Standing(FaultCaught(), GUARD)
  {
    hide FaultCaught, FreshIds, RoutesTo, Unnamed, CatcherOf;
    TheIds();
    CaughtNodes();
    forall id | id in FreshIds(GUARD) ensures Unnamed(FaultCaught().spec, id) {
      FreshAreUnnamed(id);
    }
    forall r | r in FaultCaught().spec.nodes ensures !RoutesTo(FaultCaught().spec.nodes[r], "n") {
      Routes(r, "n");
    }
  }

  lemma HandlersAre()
    ensures Handled(FaultCaught(), GUARD, HANDLERS)
  {
    hide FreshIds;
    forall name | RunsBy(FaultCaught().spec, "n", name) ensures Placeless(FaultCaught().handlers, name) {
      assert name == "breaks";
    }
  }

  /**
   * The spec as it is written is done with what `y` answers; a guard can be lowered at `n`, whose rule holds of every
   * value; and with it the spec fails.
   */
  lemma CatchIsLost()
    ensures Guardable(FaultCaught(), GUARD, HANDLERS) && "n" in FaultCaught().spec.nodes && GUARD.id == "n"
    ensures Means(FaultCaught()).status.RunDone? && Means(FaultCaught()).output == Some(Null)
    ensures forall value :: Holds(GUARD, value)
    ensures Lowered(FaultCaught(), GUARD, HANDLERS).Sound() && Fails(Lowered(FaultCaught(), GUARD, HANDLERS))
  {
    hide FaultCaught, Standing, Handled, Clear, WellFormed, Lowered, FateOf, Means, Fails, Holds;
    IsDone();
    NoneChoosesIt();
    TheFates();
    TheIds();
    GuardStandsThere();
    HandlersAre();
    RuleHolds();
    var _ := FaultFails(FaultCaught(), GUARD, HANDLERS);
  }

  lemma NoneChoosesIt()
    ensures FaultCaught().Ranks() && "n" in FaultCaught().spec.nodes && Clear(FaultCaught(), GUARD)
  {
    hide FaultCaught, WellFormed, FateOf, Unread, RoutesTo;
    TheFates();
    TheIds();
    CaughtNodes();
    forall r | r in FaultCaught().spec.nodes ensures !Chose(FaultCaught(), r, "n") {
      Routes(r, "n");
    }
  }

  lemma RuleHolds()
    ensures forall value :: Holds(GUARD, value)
  {
  }
}
