/** A run in which a node's refusal, come after another's fault had ended the run, is the one the report names. */
module LateRefusal {
  import opened Json
  import opened Sources
  import opened Outcomes
  import opened KernelSpec
  import opened Fates
  import opened Kernel
  import opened RunLaws
  import opened Endings
  import opened Verdicts

  const BREAKS: Node := Call("breaks", map[], {})
  const REFUSES: Node := Call("refuses", map[], {})
  const FAULT := Fault("broke")
  const REFUSAL := Refused("closed", "not open")

  /** Two nodes that wait for nothing: one breaks, the other refuses. */
  function Both(): World {
    World(
      Spec(map["a" := BREAKS, "b" := REFUSES], ["a", "b"], None), map["a" := 0, "b" := 0],
      map["breaks" := (path: seq<string>, inputs: Inputs) => FAULT, "refuses" := (path: seq<string>, inputs: Inputs) => REFUSAL],
      Supplied(map[], map[]))
  }

  lemma NothingRoutes(id: Id)
    ensures RouterOf(Both().spec, id) == None && CatcherOf(Both().spec, id) == None
  {
  }

  lemma NothingWaits(id: Id)
    requires id == "a" || id == "b"
    ensures WaitsFor(Both().spec, id) == {} && NodeRefs(Both().spec.nodes[id]) == {}
  {
    NothingRoutes(id);
  }

  lemma BothIsSound()
    ensures Both().Sound()
  {
    ListedOnce(Both().spec);
    NothingWaits("a");
    NothingWaits("b");
    hide WaitsFor;
    assert forall id, t :: id in Both().spec.nodes ==> !RoutesTo(Both().spec.nodes[id], t);
    hide RoutesTo;
  }

  lemma BothOutcomes(values: Values)
    ensures NodeOutcome(BREAKS, Both().handlers, "a", values, map[]) == FAULT
    ensures NodeOutcome(REFUSES, Both().handlers, "b", values, map[]) == REFUSAL
  {
  }

  function Report(status: Status, failure: Option<Outcome>, order: Option<nat>): NodeReport {
    NodeReport(status, None, None, failure, order)
  }

  function At(a: NodeReport, b: NodeReport, ending: Option<Ending>, inFlight: map<Id, Promise>, settles: nat): State {
    State(map[], map["a" := a, "b" := b], ending, inFlight, settles)
  }

  function Broke(order: Option<nat>): NodeReport {
    Report(Failed, Some(FAULT), order)
  }

  function Declined(order: Option<nat>): NodeReport {
    Report(Failed, Some(REFUSAL), order)
  }

  // Both start, the one breaks, the other refuses, and they settle in that order.

  function Before(): State {
    At(Report(Pending, None, None), Report(Pending, None, None), None, map[], 0)
  }

  function BothRun(): State {
    At(Report(Running, None, None), Report(Running, None, None), None, map["a" := Will(FAULT), "b" := Will(REFUSAL)], 0)
  }

  function OneBroke(): State {
    At(Broke(None), Report(Running, None, None), Some(EndFailed), map["a" := Landed, "b" := Will(REFUSAL)], 0)
  }

  function OtherRefused(): State {
    At(Broke(None), Declined(None), Some(EndFailed), map["a" := Landed, "b" := Landed], 0)
  }

  function OneSettled(): State {
    At(Broke(Some(1)), Declined(None), Some(EndFailed), map["b" := Landed], 1)
  }

  function BothSettled(): State {
    At(Broke(Some(1)), Declined(Some(2)), Some(EndFailed), map[], 2)
  }

  lemma BothReady()
    ensures Ready(Both(), Before()) == ["a", "b"]
  {
    var w, s := Both(), Before();
    NothingWaits("a");
    NothingWaits("b");
    NothingRoutes("a");
    NothingRoutes("b");
    hide WaitsFor, RouterOf, NodeRefs;
    assert IsReady(w, s, "a") && IsReady(w, s, "b");
    assert w.spec.order[1..] == ["b"] && ["b"][1..] == [];
    assert ReadyIn(w, s, ["b"]) == ["b"];
  }

  lemma FirstStarts()
    ensures Start(Both(), Before(), "a") ==
      At(Report(Running, None, None), Report(Pending, None, None), None, map["a" := Will(FAULT)], 0)
  {
    hide WaitsFor, RouterOf, NodeRefs, CancelAll;
    BothOutcomes(map[]);
  }

  lemma SecondStarts()
    ensures Start(Both(), At(Report(Running, None, None), Report(Pending, None, None), None, map["a" := Will(FAULT)], 0), "b") ==
      BothRun()
  {
    hide WaitsFor, RouterOf, NodeRefs, CancelAll;
    BothOutcomes(map[]);
  }

  lemma BothStart()
    ensures Enabled(Both(), Before(), Batch) && After(Both(), Before(), Batch) == BothRun()
  {
    var w, s := Both(), Before();
    BothReady();
    FirstStarts();
    SecondStarts();
    hide Start, Ready;
    var first := Start(w, s, "a");
    assert ["a", "b"][1..] == ["b"] && ["b"][1..] == [];
    assert StartAll(w, first, ["b"]) == StartAll(w, Start(w, first, "b"), []);
  }

  lemma OneBreaks()
    ensures Enabled(Both(), BothRun(), Lands("a", FAULT))
    ensures After(Both(), BothRun(), Lands("a", FAULT)) == OneBroke()
  {
    NothingRoutes("a");
    hide CatcherOf, WaitsFor, Ready, StartAll;
  }

  lemma OtherRefuses()
    ensures Enabled(Both(), OneBroke(), Lands("b", REFUSAL))
    ensures After(Both(), OneBroke(), Lands("b", REFUSAL)) == OtherRefused()
  {
    NothingRoutes("b");
    hide CatcherOf, WaitsFor, Ready, StartAll;
  }

  lemma TheySettle()
    ensures Enabled(Both(), OtherRefused(), Settles("a")) && Enabled(Both(), OneSettled(), Settles("b"))
    ensures After(Both(), OtherRefused(), Settles("a")) == OneSettled()
    ensures After(Both(), OneSettled(), Settles("b")) == BothSettled()
  {
    hide Ready, StartAll, Land, Both;
  }

  function Passes(): seq<State> {
    [Before()] + [BothRun()] + [OneBroke()] + [OtherRefused()] + [OneSettled()] + [BothSettled()]
  }

  function Takes(): seq<Step> {
    [] + [Batch] + [Lands("a", FAULT)] + [Lands("b", REFUSAL)] + [Settles("a")] + [Settles("b")]
  }

  lemma BeforeIsInitial()
    ensures IsRun(Both(), [Before()], [])
  {
    assert Before() == Initial(Both());
  }

  lemma BothIsRun()
    ensures IsRun(Both(), Passes(), Takes())
  {
    BothStart();
    OneBreaks();
    OtherRefuses();
    TheySettle();
    BeforeIsInitial();
    hide Both, After, Enabled, IsRun, Before, BothRun, OneBroke, OtherRefused, OneSettled, BothSettled;
    var w := Both();
    var states, steps := [Before()], [];
    RunExtends(w, states, steps, Batch, BothRun());
    states, steps := states + [BothRun()], steps + [Batch];
    RunExtends(w, states, steps, Lands("a", FAULT), OneBroke());
    states, steps := states + [OneBroke()], steps + [Lands("a", FAULT)];
    RunExtends(w, states, steps, Lands("b", REFUSAL), OtherRefused());
    states, steps := states + [OtherRefused()], steps + [Lands("b", REFUSAL)];
    RunExtends(w, states, steps, Settles("a"), OneSettled());
    states, steps := states + [OneSettled()], steps + [Settles("a")];
    RunExtends(w, states, steps, Settles("b"), BothSettled());
  }

  lemma RefusalIsNamed()
    ensures OutcomeOf(ReportOf(Both(), BothSettled()), ["a", "b"]) == RefusedAt("closed", "not open", "b")
  {
    var nodes := BothSettled().reports;
    hide Both, Needs, FirstAnswered;
    assert ["a", "b"][1..] == ["b"] && ["b"][1..] == [];
    assert EndedAt(nodes, ["b"], true) == Some("b");
    assert EndedAt(nodes, ["a", "b"], true) == Some("b");
  }

  lemma FaultSettlesFirst()
    ensures FirstUncaught(BothSettled(), "a")
    ensures OneBroke().ending == Some(EndFailed) && OneBroke().reports["b"].status.Running?
    ensures BothSettled().inFlight == map[] && BothSettled().ending.Some?
  {
    hide Both;
  }

  /**
   * A run, from its initial state to its rest: the fault ends it while the other node is still running, and is the
   * first to settle; the report names the refusal.
   */
  lemma RefusalOverridesFault()
    ensures Both().Sound() && IsRun(Both(), Passes(), Takes()) && Quiescent(Both(), BothSettled())
    ensures OneBroke().ending == Some(EndFailed) && OneBroke().reports["b"].status.Running?
    ensures FirstUncaught(BothSettled(), "a")
    ensures OutcomeOf(ReportOf(Both(), BothSettled()), ["a", "b"]) == RefusedAt("closed", "not open", "b")
  {
    BothIsSound();
    BothIsRun();
    RefusalIsNamed();
    FaultSettlesFirst();
    EndedHasNoneReady(Both(), BothSettled(), Both().spec.order);
    hide Both, World.Sound, IsRun, ReadyIn, OutcomeOf, Passes, Takes, BothSettled, OneBroke, FirstUncaught;
  }
}
