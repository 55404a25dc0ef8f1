/** A run in which a node starts after its run has ended: a batch is not looked at again once it has begun. */
module LateStart {
  import opened Json
  import opened Sources
  import opened Outcomes
  import opened KernelSpec
  import opened Fates
  import opened Kernel
  import opened Agreement
  import opened RunLaws
  import opened GuardWaits
  import opened Overrun

  const FAULT := Fault("broke")
  const BREAKS := Call("breaks", map[], {})
  const ANSWERS := Call("answers", map[], {})

  /**
   * `f` breaks, and `c` is to catch it; `g`, once `slow` has answered, routes to `x` and so never to `c`; `z` waits for
   * `slow` alone.
   */
  function Gate(): Node {
    Switch(map["s" := Ref("slow", [])], [Rule(inputs => false, "c")], "x", [])
  }

  function Catch(): Node {
    Switch(map[], [], "y", [("f", "y")])
  }

  function Late(): World {
    World(
      Spec(map["f" := BREAKS, "slow" := ANSWERS, "g" := Gate(), "z" := Call("answers", map[], {"slow"}), "c" := Catch(),
               "x" := ANSWERS, "y" := ANSWERS],
           ["f", "slow", "g", "z", "c", "x", "y"], None),
      map["f" := 0, "slow" := 0, "g" := 1, "z" := 1, "c" := 2, "x" := 2, "y" := 3],
      map["breaks" := (path: seq<string>, inputs: Inputs) => FAULT,
          "answers" := (path: seq<string>, inputs: Inputs) => Answer(Null)],
      Supplied(map[], map[]))
  }

  lemma GateRoutes(t: Id)
    ensures RoutesTo(Gate(), t) <==> t == "c" || t == "x"
    ensures RoutesTo(Catch(), t) <==> t == "y"
    ensures !RoutesTo(BREAKS, t) && !RoutesTo(ANSWERS, t) && !RoutesTo(Call("answers", map[], {"slow"}), t)
  {
    var targets := TargetsOf(Gate());
    assert targets[0] == "c" && targets[1] == "x" && |targets| == 2;
    var others := TargetsOf(Catch());
    assert others[0] == "y" && others[1] == "y" && |others| == 2;
  }

  const IDS: set<Id> := {"f", "slow", "g", "z", "c", "x", "y"}

  lemma LateNodes()
    ensures var spec := Late().spec;
      spec.nodes.Keys == IDS && spec.nodes["f"] == BREAKS && spec.nodes["slow"] == ANSWERS && spec.nodes["g"] == Gate() &&
      spec.nodes["z"] == Call("answers", map[], {"slow"}) && spec.nodes["c"] == Catch() && spec.nodes["x"] == ANSWERS &&
      spec.nodes["y"] == ANSWERS
    ensures Late().spec.order == ["f", "slow", "g", "z", "c", "x", "y"]
    ensures Late().supplied == Supplied(map[], map[])
  {
    hide Gate, Catch;
  }

  lemma LateRanks()
    ensures Late().Ranks() && Late().rank["f"] == 0 && Late().rank["slow"] == 0 && Late().rank["g"] == 1
    ensures Late().rank["z"] == 1 && Late().rank["c"] == 2 && Late().rank["x"] == 2 && Late().rank["y"] == 3
  {
    hide Gate, Catch;
  }

  lemma RoutesAreThese(s: Id, t: Id)
    requires s in Late().spec.nodes
    ensures RoutesTo(Late().spec.nodes[s], t) <==> (s == "g" && (t == "c" || t == "x")) || (s == "c" && t == "y")
  {
    hide Late, Gate, Catch, RoutesTo;
    LateNodes();
    GateRoutes(t);
  }

  lemma LateIsListed()
    ensures Listed(Late().spec) && Late().spec.nodes.Keys !! PSEUDO
  {
    hide Late, Gate, Catch;
    LateNodes();
    IdsAreNotRoots();
    assert forall id :: id in ["f", "slow", "g", "z", "c", "x", "y"] <==> id in IDS;
    OrderIsDistinct();
    ListedOnce(Late().spec);
  }

  lemma IdsAreNotRoots()
    ensures IDS !! PSEUDO
  {
  }

  lemma OrderIsDistinct()
    ensures var order: seq<Id> := ["f", "slow", "g", "z", "c", "x", "y"];
      forall i, j :: 0 <= i < j < |order| ==> order[i] != order[j]
  {
  }

  lemma LateRoutesOnce()
    ensures RoutedOnce(Late().spec) && TargetsExist(Late().spec)
  {
    hide Late, Gate, Catch, RoutesTo;
    LateNodes();
    forall s, t | s in Late().spec.nodes ensures
        RoutesTo(Late().spec.nodes[s], t) <==> (s == "g" && (t == "c" || t == "x")) || (s == "c" && t == "y")
    {
      RoutesAreThese(s, t);
    }
  }

  lemma Routed(s: Id, t: Id)
    requires (s == "g" && (t == "c" || t == "x")) || (s == "c" && t == "y")
    ensures RouterOf(Late().spec, t) == Some(s)
  {
    hide Late, Gate, Catch, RoutesTo, RouterOf, Listed, RoutedOnce;
    LateNodes();
    LateIsListed();
    LateRoutesOnce();
    RoutesAreThese(s, t);
    RouterIs(Late().spec, s, t);
  }

  lemma Unrouted(t: Id)
    requires t !in {"c", "x", "y"}
    ensures RouterOf(Late().spec, t) == None
  {
    hide Late, Gate, Catch, RoutesTo, RouterOf;
    forall s | s in Late().spec.nodes ensures !RoutesTo(Late().spec.nodes[s], t) {
      RoutesAreThese(s, t);
    }
    RouterNone(Late().spec, t);
  }

  lemma NoRefs()
    ensures NodeRefs(BREAKS) == {} && NodeRefs(ANSWERS) == {} && NodeRefs(Catch()) == {}
    ensures NodeRefs(Call("answers", map[], {"slow"})) == {}
    ensures NodeRefs(Gate()) == {"slow"}
  {
    var none: map<string, Source> := map[];
    assert RefsOf(Object(none)) == {};
    var inputs := map["s" := Ref("slow", [])];
    assert "s" in inputs && "slow" in RefsOf(inputs["s"]);
    assert RefsOf(Object(inputs)) == {"slow"};
  }

  lemma Catches()
    ensures Caught(Catch()) == {"f"} && Caught(Gate()) == {}
    ensures Caught(BREAKS) == {} && Caught(ANSWERS) == {} && Caught(Call("answers", map[], {"slow"})) == {}
  {
    assert Catch().catches[0].0 == "f";
  }

  function Expected(id: Id): set<Id> {
    match id
    case "g" => {"slow"}
    case "z" => {"slow"}
    case "c" => {"g", "f"}
    case "x" => {"g"}
    case "y" => {"c"}
    case _ => {}
  }

  lemma Waits(id: Id)
    requires id in IDS
    ensures id in Late().spec.nodes && WaitsFor(Late().spec, id) == Expected(id)
  {
    hide Late, Gate, Catch, WaitsFor, RouterOf, NodeRefs, Caught, RoutesTo;
    LateNodes();
    NoRefs();
    Catches();
    WaitsAre(Late().spec, id);
    if id == "c" || id == "x" {
      Routed("g", id);
    } else if id == "y" {
      Routed("c", id);
    } else {
      Unrouted(id);
    }
    ReadsAre(id);
  }

  lemma ReadsAre(id: Id)
    requires id in IDS
    ensures id in Late().spec.nodes
    ensures Reads(Late().spec, Late().spec.nodes[id]) == if id == "g" || id == "z" then {"slow"} else {}
  {
    hide Late, Gate, Catch, NodeRefs, RoutesTo;
    LateNodes();
    NoRefs();
    assert Named(Gate()) == {} && Named(Catch()) == {} by { AreSwitches(); }
  }

  lemma AreSwitches()
    ensures Gate().Switch? && Catch().Switch?
  {
  }

  lemma LateIsSound()
    ensures Late().Sound()
  {
    hide Late, WaitsFor, Listed, RoutedOnce, TargetsExist;
    LateNodes();
    LateRanks();
    LateIsListed();
    LateRoutesOnce();
    forall id, d | id in Late().spec.nodes && d in WaitsFor(Late().spec, id)
      ensures d in Late().spec.nodes && Late().rank[d] < Late().rank[id]
    {
      Waits(id);
    }
  }

  // ---- the run ----------------------------------------------------------------------------------

  const WAITING := NodeReport(Pending, None, None, None, None)
  const RUNNING := NodeReport(Running, None, None, None, None)
  const CAUGHT := NodeReport(Failed, None, Some("c"), Some(FAULT), None)
  const ANSWERED := NodeReport(Done, None, None, None, None)

  function Reports(f: NodeReport, slow: NodeReport): map<Id, NodeReport> {
    map["f" := f, "slow" := slow, "g" := WAITING, "z" := WAITING, "c" := WAITING, "x" := WAITING, "y" := WAITING]
  }

  // Both that wait for nothing start; the one breaks, and its fault is caught; the other answers.

  function Before(): State {
    State(map[], Reports(WAITING, WAITING), None, map[], 0)
  }

  function BothRun(): State {
    State(map[], Reports(RUNNING, RUNNING), None, map["f" := Will(FAULT), "slow" := Will(Answer(Null))], 0)
  }

  function OneBroke(): State {
    State(map[], Reports(CAUGHT, RUNNING), None, map["f" := Landed, "slow" := Will(Answer(Null))], 0)
  }

  function OtherAnswered(): State {
    State(map["slow" := Null], Reports(CAUGHT, ANSWERED), None, map["f" := Landed, "slow" := Landed], 0)
  }

  function RoutedBy(id: Id): Option<Id> {
    if id == "c" || id == "x" then Some("g") else if id == "y" then Some("c") else None
  }

  /** When a node is ready, read off what it waits for. */
  lemma ReadyIff(s: State, id: Id)
    requires id in IDS && s.ending.None?
    ensures id in Late().spec.nodes
    ensures IsReady(Late(), s, id) <==>
      PendingAt(s, id) && (forall d :: d in Expected(id) ==> MetAt(s, id, d)) &&
      (RoutedBy(id).Some? ==> RoutedBy(id).value in s.reports && s.reports[RoutedBy(id).value].selected == Some(id))
  {
    hide Late, Gate, Catch, WaitsFor, RouterOf, NodeRefs, MetAt, Expected;
    LateNodes();
    NoRefs();
    Waits(id);
    if RoutedBy(id).Some? {
      Routed(RoutedBy(id).value, id);
    } else {
      Unrouted(id);
    }
  }

  /** What is ready among some nodes: those of them that are one of two. */
  function Of(ids: seq<Id>, one: Id, other: Id): seq<Id> {
    if ids == [] then [] else (if ids[0] == one || ids[0] == other then [ids[0]] else []) + Of(ids[1..], one, other)
  }

  lemma {:induction false} ReadyOf(s: State, ids: seq<Id>, one: Id, other: Id)
    requires forall id :: id in ids ==> id in Late().spec.nodes && (IsReady(Late(), s, id) <==> id == one || id == other)
    ensures ReadyIn(Late(), s, ids) == Of(ids, one, other)
    decreases |ids|
  {
    hide Late, IsReady;
    if ids != [] {
      ReadyOf(s, ids[1..], one, other);
    }
  }

  lemma TwoOf()
    ensures Of(["f", "slow", "g", "z", "c", "x", "y"], "f", "slow") == ["f", "slow"]
    ensures Of(["f", "slow", "g", "z", "c", "x", "y"], "g", "z") == ["g", "z"]
  {
  }

  /** Of the nodes in order, those that are ready. */
  lemma ReadyList(s: State, one: Id, other: Id)
    requires (one, other) in {("f", "slow"), ("g", "z")}
    requires forall id :: id in IDS ==> id in Late().spec.nodes && (IsReady(Late(), s, id) <==> id == one || id == other)
    ensures Ready(Late(), s) == [one, other]
  {
    hide Late, IsReady, ReadyIn, Of;
    LateNodes();
    TwoOf();
    ReadyOf(s, Late().spec.order, one, other);
  }

  lemma FirstReady()
    ensures Ready(Late(), Before()) == ["f", "slow"]
  {
    hide Late, IsReady, ReadyIn, Ready;
    var s := Before();
    forall id | id in IDS ensures id in Late().spec.nodes && (IsReady(Late(), s, id) <==> id == "f" || id == "slow") {
      ReadyIff(s, id);
      if id == "g" || id == "z" {
        assert "slow" in Expected(id) && !MetAt(s, id, "slow");
      }
    }
    ReadyList(s, "f", "slow");
  }

  lemma ThenReady()
    ensures Ready(Late(), OtherAnswered()) == ["g", "z"]
  {
    hide Late, IsReady, ReadyIn, Ready;
    var s := OtherAnswered();
    forall id | id in IDS ensures id in Late().spec.nodes && (IsReady(Late(), s, id) <==> id == "g" || id == "z") {
      ReadyIff(s, id);
      if id == "g" || id == "z" {
        assert Expected(id) == {"slow"} && MetAt(s, id, "slow");
      }
    }
    ReadyList(s, "g", "z");
  }

  lemma TheyComeTo(values: Values)
    ensures NodeOutcome(BREAKS, Late().handlers, "f", values, map[]) == FAULT
    ensures NodeOutcome(ANSWERS, Late().handlers, "slow", values, map[]) == Answer(Null)
  {
  }

  lemma BothStart()
    ensures Enabled(Late(), Before(), Batch) && After(Late(), Before(), Batch) == BothRun()
  {
    hide Late, Ready, NodeOutcome, CancelAll, IsReady, ReadyIn;
    FirstReady();
    LateNodes();
    TheyComeTo(map[]);
    var s := Before();
    var one := State(map[], Reports(RUNNING, WAITING), None, map["f" := Will(FAULT)], 0);
    assert Start(Late(), s, "f") == one;
    assert Start(Late(), one, "slow") == BothRun();
    assert ["f", "slow"][1..] == ["slow"] && ["slow"][1..] == [];
    assert StartAll(Late(), one, ["slow"]) == StartAll(Late(), BothRun(), []);
  }

  lemma FaultIsCaught()
    ensures CatcherOf(Late().spec, "f") == Some("c")
  {
    hide Late, Gate, Catch, CatcherIn;
    LateNodes();
    CatchersIn();
  }

  lemma CatchersIn()
    ensures CatcherIn(Late().spec, ["f", "slow", "g", "z", "c", "x", "y"], "f") == Some("c")
  {
    hide Late, CatchesKey;
    LateNodes();
    CatchersHere();
    var spec := Late().spec;
    assert ["f", "slow", "g", "z", "c", "x", "y"][..6] == ["f", "slow", "g", "z", "c", "x"];
    assert ["f", "slow", "g", "z", "c", "x"][..5] == ["f", "slow", "g", "z", "c"];
    assert CatcherIn(spec, ["f", "slow", "g", "z", "c"], "f") == Some("c");
    assert CatcherIn(spec, ["f", "slow", "g", "z", "c", "x"], "f") == Some("c");
  }

  lemma CatchersHere()
    ensures CatchesKey(Catch(), "f") && !CatchesKey(ANSWERS, "f")
  {
    assert Catch().catches[0].0 == "f";
  }

  lemma OneBreaks()
    ensures Enabled(Late(), BothRun(), Lands("f", FAULT)) && After(Late(), BothRun(), Lands("f", FAULT)) == OneBroke()
  {
    hide Late, CatcherOf, Ready, StartAll;
    FaultIsCaught();
  }

  lemma OtherAnswers()
    ensures Enabled(Late(), OneBroke(), Lands("slow", Answer(Null)))
    ensures After(Late(), OneBroke(), Lands("slow", Answer(Null))) == OtherAnswered()
  {
    hide Late, CatcherOf, Ready, StartAll;
  }

  /** Routing past the switch that holds the fault ends the run. */
  lemma RoutingEnds()
    ensures "g" in Late().spec.nodes && Start(Late(), OtherAnswered(), "g").ending == Some(EndFailed)
    ensures "z" in Start(Late(), OtherAnswered(), "g").reports
  {
    hide Late, Catch, RoutesTo, CancelAll, HoldsFault, Dependents, RouteOf;
    LateNodes();
    GateChooses();
    var s := OtherAnswered();
    var routed := Select(Late(), s, "g");
    HoldsIt(s, routed);
    GateTargets();
    assert Chain(Late().spec, routed, ["c"]);
    assert LeadsToFault(Late().spec, routed, "c");
    StartEnds(Late(), s, "g");
    assert Start(Late(), s, "g").ending == Some(EndFailed) by {
      hide TargetsOf, NodeOutcome, Unselected;
      if Late().spec.nodes["g"].Switch? {
        var routed := Select(Late(), s, "g");
        CancelAllOnlyCancels(Late().spec, routed, Unselected(TargetsOf(Late().spec.nodes["g"]), routed.reports["g"].selected.value));
      }
    }
  }

  lemma GateTargets()
    ensures Gate().Switch? && "c" in TargetsOf(Gate())
  {
    assert TargetsOf(Gate())[0] == "c";
  }

  lemma GateChooses()
    ensures RouteOf(Gate(), OtherAnswered().values, CaughtBy(OtherAnswered(), "g")) == "x"
  {
  }

  lemma HoldsIt(s: State, routed: State)
    requires s == OtherAnswered() && "f" in routed.reports && routed.reports["f"] == s.reports["f"]
    ensures HoldsFault(routed, "c")
  {
    assert routed.reports["f"].caught == Some("c");
  }

  function Passes(): seq<State> {
    [Before()] + [BothRun()] + [OneBroke()] + [OtherAnswered()]
  }

  function Takes(): seq<Step> {
    [] + [Batch] + [Lands("f", FAULT)] + [Lands("slow", Answer(Null))]
  }

  lemma BeforeIsInitial()
    ensures IsRun(Late(), [Before()], [])
  {
    hide Late;
    LateNodes();
    assert Before().reports == map id | id in Late().spec.nodes :: InitialReport(Late().supplied.values, id);
  }

  lemma LateIsRun()
    ensures IsRun(Late(), Passes(), Takes())
  {
    hide Late, After, Enabled, IsRun, Before, BothRun, OneBroke, OtherAnswered;
    BothStart();
    OneBreaks();
    OtherAnswers();
    BeforeIsInitial();
    var w := Late();
    var states, steps := [Before()], [];
    RunExtends(w, states, steps, Batch, BothRun());
    states, steps := states + [BothRun()], steps + [Batch];
    RunExtends(w, states, steps, Lands("f", FAULT), OneBroke());
    states, steps := states + [OneBroke()], steps + [Lands("f", FAULT)];
    RunExtends(w, states, steps, Lands("slow", Answer(Null)), OtherAnswered());
  }

  /**
   * A run, from its initial state, and the batch that comes next in it: its first node ends the run, and its second,
   * which that cancelled, starts and is in flight.
   */
  lemma StartsAfterEnding()
    ensures Late().Sound() && IsRun(Late(), Passes(), Takes()) && Passes()[3].ending.None?
    ensures Ready(Late(), Passes()[3]) == ["g", "z"] && Enabled(Late(), Passes()[3], Batch)
    ensures "g" in Late().spec.nodes && "g" in Passes()[3].reports && Start(Late(), Passes()[3], "g").ending == Some(EndFailed)
    ensures var s := After(Late(), Passes()[3], Batch);
      s.ending == Some(EndFailed) && "z" in s.reports && s.reports["z"].status.Running? && "z" in s.inFlight
  {
    hide Late, Start, Ready, After, Enabled, IsRun, Before, BothRun, OneBroke;
    LateIsSound();
    LateIsRun();
    ThenReady();
    RoutingEnds();
    LateBatch();
    assert Passes()[3] == OtherAnswered();
  }

  lemma LateBatch()
    requires Ready(Late(), OtherAnswered()) == ["g", "z"]
    requires "g" in Late().spec.nodes && Start(Late(), OtherAnswered(), "g").ending == Some(EndFailed)
    requires "z" in Start(Late(), OtherAnswered(), "g").reports
    ensures Enabled(Late(), OtherAnswered(), Batch)
    ensures var s := After(Late(), OtherAnswered(), Batch);
      s.ending == Some(EndFailed) && "z" in s.reports && s.reports["z"].status.Running? && "z" in s.inFlight
  {
    hide Late, Start, Ready;
    LateNodes();
    var w, s := Late(), OtherAnswered();
    var ended := Start(w, s, "g");
    assert ["g", "z"][1..] == ["z"] && ["z"][1..] == [];
    assert StartAll(w, s, ["g", "z"]) == StartAll(w, ended, ["z"]);
    assert StartAll(w, ended, ["z"]) == Start(w, ended, "z");
    LateStarts(w, ended);
  }

  lemma LateStarts(w: World, s: State)
    requires "z" in w.spec.nodes && "z" in s.reports && w.spec.nodes["z"].Call?
    ensures Start(w, s, "z").ending == s.ending && "z" in Start(w, s, "z").reports
    ensures Start(w, s, "z").reports["z"].status.Running? && "z" in Start(w, s, "z").inFlight
  {
    hide NodeOutcome, CancelAll;
  }
}
