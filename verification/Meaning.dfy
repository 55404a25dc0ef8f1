/** The report of a run, however its nodes settle: the one its spec means; and that every run gets there. */
module Meaning {
  import opened Json
  import opened Sources
  import opened Outcomes
  import opened KernelSpec
  import opened Fates
  import opened Kernel
  import opened Agreement
  import opened Steps
  import opened RunLaws
  import opened Confluence

  // ---- how a run ends ---------------------------------------------------------------------------

  lemma {:induction false} StartAllEnding(w: World, s: State, ids: seq<Id>)
    requires forall id :: id in ids ==> id in w.spec.nodes
    ensures s.ending.Some? ==> StartAll(w, s, ids).ending == s.ending
    ensures s.ending.None? ==> StartAll(w, s, ids).ending != Some(EndCancelled)
    decreases |ids|
  {
    hide Start;
    if ids != [] {
      if ids[0] in s.reports {
        StartEnding(w, s, ids[0]);
        StartAllEnding(w, Start(w, s, ids[0]), ids[1..]);
      } else {
        StartAllEnding(w, s, ids[1..]);
      }
    }
  }

  lemma StartEnding(w: World, s: State, id: Id)
    requires id in w.spec.nodes && id in s.reports
    ensures Start(w, s, id).ending == s.ending || (s.ending.None? && Start(w, s, id).ending == Some(EndFailed))
  {
    hide CancelAll, TargetsOf, Unselected, NodeOutcome, RouteOf;
    if w.spec.nodes[id].Switch? {
      var routed := Select(w, s, id);
      CancelAllOnlyCancels(w.spec, routed, Unselected(TargetsOf(w.spec.nodes[id]), routed.reports[id].selected.value));
    }
  }

  lemma StepEnding(w: World, s: State, step: Step)
    requires Enabled(w, s, step)
    ensures s.ending.Some? ==> After(w, s, step).ending == s.ending
    ensures s.ending.None? && !step.Abort? ==> After(w, s, step).ending != Some(EndCancelled)
  {
    hide StartAll, IsReady, CatcherOf;
    if step.Batch? {
      StartAllEnding(w, s, Ready(w, s));
    }
  }

  /** The first ending stands. */
  lemma {:induction false} FirstEndingStands(w: World, states: seq<State>, steps: seq<Step>, i: nat, j: nat)
    requires IsRun(w, states, steps) && i <= j < |states| && states[i].ending.Some?
    ensures states[j].ending == states[i].ending
    decreases j - i
  {
    hide Enabled, After;
    if i < j {
      StepEnding(w, states[i], steps[i]);
      assert states[i + 1] == After(w, states[i], steps[i]);
      FirstEndingStands(w, states, steps, i + 1, j);
    }
  }

  predicate NoAbort(steps: seq<Step>) {
    forall i :: 0 <= i < |steps| ==> !steps[i].Abort?
  }

  lemma {:induction false} UnabortedIsNotCancelled(w: World, states: seq<State>, steps: seq<Step>, n: nat)
    requires IsRun(w, states, steps) && NoAbort(steps) && n < |states|
    ensures states[n].ending != Some(EndCancelled)
  {
    hide Enabled, After;
    if n > 0 {
      UnabortedIsNotCancelled(w, states, steps, n - 1);
      StepEnding(w, states[n - 1], steps[n - 1]);
      assert states[n - 1 + 1] == After(w, states[n - 1], steps[n - 1]);
    }
  }

  // ---- what a spec means ------------------------------------------------------------------------

  /** A report without the order its nodes settled in, which is the interleaving's own. */
  datatype Summary = Summary(
    status: RunStatus, nodes: map<Id, NodeReport>, output: Option<Json>, answeredBy: Option<Id>,
    needs: set<(string, Path)>)

  function Unordered(nodes: map<Id, NodeReport>): map<Id, NodeReport> {
    map id | id in nodes :: nodes[id].(order := None)
  }

  /** What a report says but for the order; of a failed run, only that it failed, since which node did is a race. */
  function Summarize(report: Report): Summary {
    Summary(report.status, if report.status.RunFailed? then map[] else Unordered(report.nodes), report.output,
            report.answeredBy, report.needs)
  }

  function FateReport(w: World, id: Id): NodeReport
    requires w.Ranks() && id in w.spec.nodes
  {
    match FateOf(w, id)
    case Given => NodeReport(Seeded, None, None, None, None)
    case Ran(_, selected) => NodeReport(Done, selected, None, None, None)
    case Broke(failure) => NodeReport(Failed, None, CatcherOf(w.spec, id), Some(failure), None)
    case Cut => NodeReport(Cancelled, None, None, None, None)
    case Stuck => NodeReport(Pending, None, None, None, None)
  }

  /** The first output candidate whose node answers. */
  function FirstFated(w: World, candidates: seq<Id>): Option<Id>
    requires w.Ranks()
  {
    if candidates == [] then None
    else if candidates[0] in w.spec.nodes && Answered(w, candidates[0]) then Some(candidates[0])
    else FirstFated(w, candidates[1..])
  }

  /** What nodes that never ran read and were never supplied. */
  function FateNeeds(w: World): set<(string, Path)>
    requires w.Ranks()
  {
    set id, path | id in w.spec.nodes && FateOf(w, id).Stuck? && path in NodePaths(w.spec.nodes[id]) &&
      path.0 in PSEUDO && path.0 !in w.supplied.values :: path
  }

  /** What a spec means as it is supplied, said of its fates alone. */
  ghost function Means(w: World): Summary
    requires w.Ranks()
  {
    var nodes := map id | id in w.spec.nodes :: FateReport(w, id);
    if Fails(w) then Summary(RunFailed, map[], None, None, {})
    else if w.spec.output.None? then Summary(RunDone, nodes, None, None, {})
    else
      var answer := FirstFated(w, w.spec.output.value);
      if answer.Some? && answer.value in w.spec.nodes && Answered(w, answer.value) then
        Summary(RunDone, nodes, Some(ValueOf(w, answer.value)), answer, {})
      else Summary(RunBlocked, nodes, None, None, FateNeeds(w))
  }

  ghost predicate AllExact(w: World, s: State)
    requires w.Ranks()
  {
    s.reports.Keys == w.spec.nodes.Keys && forall id :: id in w.spec.nodes ==> Exactly(w, s, id)
  }

  lemma {:induction false} FirstAlike(w: World, s: State, candidates: seq<Id>)
    requires w.Ranks() && AllExact(w, s)
    ensures FirstAnswered(s, candidates) == FirstFated(w, candidates)
    ensures FirstFated(w, candidates).Some? ==>
      FirstFated(w, candidates).value in w.spec.nodes && Answered(w, FirstFated(w, candidates).value)
  {
    hide FateOf;
    if candidates != [] {
      if candidates[0] in w.spec.nodes {
        assert Exactly(w, s, candidates[0]);
      }
      FirstAlike(w, s, candidates[1..]);
    }
  }

  lemma ExactReport(w: World, s: State, id: Id)
    requires w.Ranks() && Shape(w, s) && id in w.spec.nodes && id in s.reports && Exactly(w, s, id)
    ensures s.reports[id].(order := None) == FateReport(w, id)
  {
    hide FateOf, CatcherOf;
    assert ShapeAt(w, s, id);
  }

  lemma ExactValue(w: World, s: State, id: Id)
    requires w.Ranks() && Shape(w, s) && id in w.spec.nodes && id in s.reports && Exactly(w, s, id) && Answered(w, id)
    ensures Lookup(s.values, id) == Some(ValueOf(w, id))
  {
    hide FateOf, CatcherOf;
    assert ShapeAt(w, s, id);
  }

  lemma NeedsAlike(w: World, s: State)
    requires w.Sound() && Shape(w, s) && AllExact(w, s)
    ensures Needs(w, s) == FateNeeds(w)
  {
    hide FateOf, NodePaths, Ranked, RoutedOnce, TargetsExist, Listed, ShapeAt;
    forall id | id in w.spec.nodes ensures PendingAt(s, id) <==> FateOf(w, id).Stuck? {
      assert Exactly(w, s, id);
    }
    forall root | root in PSEUDO ensures root in s.values <==> root in w.supplied.values {
      assert Lookup(s.values, root) == Lookup(w.supplied.values, root);
    }
  }

  /** A run that rests without an ending reports what its spec means. */
  lemma RestMeans(w: World, s: State)
    requires w.Sound() && Shape(w, s) && AllExact(w, s) && s.ending.None? && !Fails(w)
    ensures Summarize(ReportOf(w, s)) == Means(w)
  {
    hide FateOf, WellFormed, Shape, Exactly, Fails, Needs, FateNeeds, FateReport, Answered, ValueOf;
    forall id | id in w.spec.nodes ensures Unordered(s.reports)[id] == FateReport(w, id) {
      ExactReport(w, s, id);
    }
    assert Unordered(s.reports) == map id | id in w.spec.nodes :: FateReport(w, id);
    NeedsAlike(w, s);
    if w.spec.output.Some? {
      FirstAlike(w, s, w.spec.output.value);
      var answer := FirstFated(w, w.spec.output.value);
      if answer.Some? {
        ExactValue(w, s, answer.value);
      }
    }
  }

  /**
   * Whatever the interleaving and whenever it was aborted: a run at rest that was not cancelled reports what its spec
   * means. It failed only if the spec fails; otherwise every node, every value and every branch is the evaluation's.
   */
  lemma RunMeans(w: World, states: seq<State>, steps: seq<Step>)
    requires w.Sound() && IsRun(w, states, steps) && Quiescent(w, states[|steps|])
    ensures var report := ReportOf(w, states[|steps|]); !report.status.RunCancelled? ==> Summarize(report) == Means(w)
    ensures states[|steps|].ending.None? ==> AllExact(w, states[|steps|]) && !Fails(w)
    ensures NoAbort(steps) ==> !ReportOf(w, states[|steps|]).status.RunCancelled?
  {
    hide FateOf, WellFormed, AllExact, Fails, Quiescent, Inv, Means, ReportOf, Enabled, After;
    var last := states[|steps|];
    RunKeeps(w, states, steps, |steps|);
    StateMeans(w, last);
    if NoAbort(steps) {
      UnabortedIsNotCancelled(w, states, steps, |steps|);
      NotCancelled(w, last);
    }
  }

  lemma NotCancelled(w: World, s: State)
    requires s.ending != Some(EndCancelled)
    ensures !ReportOf(w, s).status.RunCancelled?
  {
    hide Needs;
  }

  lemma StateMeans(w: World, s: State)
    requires w.Sound() && Inv(w, s, {}, {}) && Quiescent(w, s)
    ensures !ReportOf(w, s).status.RunCancelled? ==> Summarize(ReportOf(w, s)) == Means(w)
    ensures s.ending != Some(EndCancelled) ==> Summarize(ReportOf(w, s)) == Means(w)
    ensures s.ending.None? ==> AllExact(w, s) && !Fails(w)
  {
    hide FateOf, WellFormed, Shape, Exactly, Fails, Quiescent, Inv, Means, ReportOf, AllExact;
    InvShape(w, s);
    if s.ending.None? {
      AtRestAll(w, s);
      RestDoesNotFail(w, s);
      RestMeans(w, s);
    } else {
      FailedMeans(w, s);
      if s.ending != Some(EndCancelled) {
        NotCancelled(w, s);
      }
    }
  }

  lemma FailedMeans(w: World, s: State)
    requires w.Ranks() && s.ending.Some? && (s.ending == Some(EndFailed) ==> Fails(w))
    ensures !ReportOf(w, s).status.RunCancelled? ==> Summarize(ReportOf(w, s)) == Means(w)
  {
    hide FateOf, Fails, FirstFated, FateNeeds, FateReport;
    match s.ending.value
    case EndFailed =>
    case EndCancelled =>
  }

  lemma AtRestAll(w: World, s: State)
    requires w.Sound() && Inv(w, s, {}, {}) && s.ending.None? && Quiescent(w, s)
    ensures AllExact(w, s)
  {
    hide FateOf, WellFormed, Exactly, Inv, Quiescent;
    InvShape(w, s);
    forall id | id in w.spec.nodes ensures Exactly(w, s, id) {
      AtRest(w, s, id);
    }
  }

  /** Any two runs of a spec that nothing aborts report the same, but for the order its nodes settled in. */
  lemma Confluent(
      w: World, states: seq<State>, steps: seq<Step>, states': seq<State>, steps': seq<Step>)
    requires w.Sound() && IsRun(w, states, steps) && Quiescent(w, states[|steps|]) && NoAbort(steps)
    requires IsRun(w, states', steps') && Quiescent(w, states'[|steps'|]) && NoAbort(steps')
    ensures Summarize(ReportOf(w, states[|steps|])) == Summarize(ReportOf(w, states'[|steps'|]))
  {
    hide FateOf, WellFormed, AllExact, Fails, Quiescent, Means, ReportOf;
    RunMeans(w, states, steps);
    RunMeans(w, states', steps');
  }

  // ---- every run gets there ---------------------------------------------------------------------

  function WillsOf(s: State): set<Id> {
    set id | id in s.inFlight && s.inFlight[id].Will?
  }

  /** A node still to start costs three steps at most: its start, its landing and its settling. */
  function Measure(s: State): nat {
    3 * |PendingOf(s)| + |WillsOf(s)| + |s.inFlight|
  }

  lemma SelectCosts(w: World, s: State, id: Id)
    requires id in w.spec.nodes && id in s.reports && w.spec.nodes[id].Switch?
    ensures PendingOf(Select(w, s, id)) <= PendingOf(s) - {id}
    ensures |WillsOf(Select(w, s, id))| + |Select(w, s, id).inFlight| <= |WillsOf(s)| + |s.inFlight| + 2
    ensures Select(w, s, id).reports.Keys == s.reports.Keys
  {
    hide RouteOf, CaughtBy;
    var routed := Select(w, s, id);
    Flight(s.inFlight, id, Landed);
    Fewer(WillsOf(routed), WillsOf(s));
  }

  lemma StartCallIs(w: World, s: State, id: Id)
    requires id in w.spec.nodes && id in s.reports && !w.spec.nodes[id].Switch?
    ensures var s' := Start(w, s, id);
      s'.reports == s.reports[id := s.reports[id].(status := Running)] && id in s'.inFlight && s'.inFlight[id].Will? &&
      s'.inFlight == s.inFlight[id := s'.inFlight[id]]
  {
    hide NodeOutcome, CancelAll, Select;
  }

  lemma StartCallCosts(w: World, s: State, id: Id)
    requires id in w.spec.nodes && id in s.reports && !w.spec.nodes[id].Switch?
    ensures PendingOf(Start(w, s, id)) <= PendingOf(s) - {id}
    ensures |WillsOf(Start(w, s, id))| + |Start(w, s, id).inFlight| <= |WillsOf(s)| + |s.inFlight| + 2
    ensures Start(w, s, id).reports.Keys == s.reports.Keys
  {
    hide Start;
    StartCallIs(w, s, id);
    var s' := Start(w, s, id);
    Flight(s.inFlight, id, s'.inFlight[id]);
    assert WillsOf(s') == WillsOf(s) + {id};
  }

  lemma CancelsCostNothing(s: State, s': State)
    requires OnlyCancels(s, s')
    ensures PendingOf(s') <= PendingOf(s) && WillsOf(s') == WillsOf(s) && s'.inFlight == s.inFlight
    ensures s'.reports.Keys == s.reports.Keys
  {
  }

  lemma StartCosts(w: World, s: State, id: Id)
    requires id in w.spec.nodes && id in s.reports
    ensures PendingOf(Start(w, s, id)) <= PendingOf(s) - {id}
    ensures |WillsOf(Start(w, s, id))| + |Start(w, s, id).inFlight| <= |WillsOf(s)| + |s.inFlight| + 2
    ensures Start(w, s, id).reports.Keys == s.reports.Keys
  {
    hide TargetsOf, Unselected, NodeOutcome, CancelAll, PendingOf, WillsOf, OnlyCancels, RouteOf;
    if w.spec.nodes[id].Switch? {
      var routed := Select(w, s, id);
      SelectCosts(w, s, id);
      CancelAllOnlyCancels(w.spec, routed, Unselected(TargetsOf(w.spec.nodes[id]), routed.reports[id].selected.value));
      CancelsCostNothing(routed, Start(w, s, id));
    } else {
      StartCallCosts(w, s, id);
    }
  }

  lemma Flight(inFlight: map<Id, Promise>, id: Id, promise: Promise)
    ensures |inFlight[id := promise]| <= |inFlight| + 1
    ensures id in inFlight ==> |inFlight[id := promise]| == |inFlight|
  {
    if id in inFlight {
      assert inFlight[id := promise].Keys == inFlight.Keys;
    } else {
      assert inFlight[id := promise].Keys == inFlight.Keys + {id};
    }
    assert |inFlight| == |inFlight.Keys| && |inFlight[id := promise]| == |inFlight[id := promise].Keys|;
  }

  lemma {:induction false} Fewer(some: set<Id>, all: set<Id>)
    requires some <= all
    ensures |some| <= |all|
  {
    assert all == some + (all - some);
  }

  lemma {:induction false} StartAllCosts(w: World, s: State, ids: seq<Id>)
    requires Distinct(ids) && forall id :: id in ids ==> id in w.spec.nodes && id in s.reports
    ensures PendingOf(StartAll(w, s, ids)) <= PendingOf(s) - (set id | id in ids)
    ensures var s' := StartAll(w, s, ids);
      |WillsOf(s')| + |s'.inFlight| <= |WillsOf(s)| + |s.inFlight| + 2 * |ids|
    decreases |ids|
  {
    hide Start;
    if ids != [] {
      StartCosts(w, s, ids[0]);
      StartAllCosts(w, Start(w, s, ids[0]), ids[1..]);
      assert (set id | id in ids) == {ids[0]} + set id | id in ids[1..];
    }
  }

  lemma {:induction false} DistinctCount(ids: seq<Id>)
    requires Distinct(ids)
    ensures |set id | id in ids| == |ids|
  {
    if ids != [] {
      DistinctCount(ids[1..]);
      assert (set id | id in ids) == {ids[0]} + set id | id in ids[1..];
    }
  }

  lemma BatchCosts(w: World, s: State)
    requires w.Sound() && Ready(w, s) != []
    ensures Measure(StartAll(w, s, Ready(w, s))) < Measure(s)
  {
    hide StartAll, IsReady, Ranked, RoutedOnce, TargetsExist, Listed;
    ListedOnce(w.spec);
    var ids := Ready(w, s);
    ReadyIsDistinct(w, s, w.spec.order);
    forall id | id in ids ensures id in w.spec.nodes && id in PendingOf(s) {
      ReadyIsPending(w, s, id);
    }
    StartAllCosts(w, s, ids);
    DistinctCount(ids);
    var started := set id | id in ids;
    var s' := StartAll(w, s, ids);
    Fewer(PendingOf(s'), PendingOf(s) - started);
    assert started <= PendingOf(s);
    assert |PendingOf(s) - started| == |PendingOf(s)| - |started|;
  }

  lemma LandCosts(w: World, s: State, id: Id, outcome: Outcome)
    requires id in s.reports && id in s.inFlight && s.inFlight[id].Will?
    requires s.reports[id].status.Running?
    ensures Measure(Land(w, s, id, outcome)) < Measure(s)
  {
    hide Catching;
    var s' := Land(w, s, id, outcome);
    Flight(s.inFlight, id, Landed);
    assert s'.inFlight == s.inFlight[id := Landed];
    assert WillsOf(s') == WillsOf(s) - {id};
    assert PendingOf(s') <= PendingOf(s);
    Fewer(PendingOf(s'), PendingOf(s));
  }

  lemma SettleCosts(s: State, id: Id)
    requires id in s.reports && id in s.inFlight && s.inFlight[id].Landed?
    ensures Measure(Settle(s, id)) < Measure(s)
  {
    var s' := Settle(s, id);
    assert PendingOf(s') == PendingOf(s) && WillsOf(s') == WillsOf(s);
    assert s'.inFlight.Keys == s.inFlight.Keys - {id};
    assert |s'.inFlight| == |s'.inFlight.Keys| && |s.inFlight| == |s.inFlight.Keys|;
  }

  lemma AbortCosts(s: State)
    ensures Measure(End(s, EndCancelled)) <= Measure(s)
  {
    var s' := End(s, EndCancelled);
    assert WillsOf(s') == WillsOf(s);
    Fewer(PendingOf(s'), PendingOf(s));
  }

  /** Every step but an abort brings a run nearer its end, and an abort never takes it further from it. */
  lemma StepCosts(w: World, s: State, step: Step)
    requires w.Sound() && Inv(w, s, {}, {}) && Enabled(w, s, step)
    ensures Measure(After(w, s, step)) <= Measure(s) - if step.Abort? then 0 else 1
  {
    hide Measure, StartAll, Land, Settle, End, FateOf, WellFormed, Ready, Inv, ShapeAt;
    InvShape(w, s);
    match step
    case Batch => BatchCosts(w, s);
    case Lands(id, outcome) =>
      InFlightIsRunning(w, s, id);
      LandCosts(w, s, id, outcome);
    case Settles(id) => SettleCosts(s, id);
    case Abort => AbortCosts(s);
  }

  lemma InFlightIsRunning(w: World, s: State, id: Id)
    requires Shape(w, s) && id in w.spec.nodes && id in s.inFlight && s.inFlight[id].Will?
    ensures s.reports[id].status.Running?
  {
    assert ShapeAt(w, s, id);
  }

  /** No run that nothing aborts takes more than three steps a node. */
  lemma {:induction false} RunIsShort(w: World, states: seq<State>, steps: seq<Step>, n: nat)
    requires w.Sound() && IsRun(w, states, steps) && NoAbort(steps) && n <= |steps|
    ensures n + Measure(states[n]) <= 3 * |w.spec.nodes|
  {
    hide Measure, FateOf, WellFormed, Inv, Enabled, After;
    if n == 0 {
      InitialMeasure(w);
    } else {
      RunIsShort(w, states, steps, n - 1);
      RunKeeps(w, states, steps, n - 1);
      StepCosts(w, states[n - 1], steps[n - 1]);
      assert states[n - 1 + 1] == After(w, states[n - 1], steps[n - 1]);
    }
  }

  lemma InitialMeasure(w: World)
    ensures Measure(Initial(w)) <= 3 * |w.spec.nodes|
  {
    assert PendingOf(Initial(w)) <= w.spec.nodes.Keys && WillsOf(Initial(w)) == {};
    Fewer(PendingOf(Initial(w)), w.spec.nodes.Keys);
    assert |w.spec.nodes.Keys| == |w.spec.nodes|;
  }

  /** A run that is not at rest can always go on: its scheduler sleeps only while something is in flight. */
  lemma RunGoesOn(w: World, s: State)
    requires w.Sound() && Inv(w, s, {}, {}) && !Quiescent(w, s)
    ensures exists step: Step :: !step.Abort? && Enabled(w, s, step)
  {
    hide FateOf, WellFormed, Inv, Ready, ShapeAt;
    InvShape(w, s);
    if Ready(w, s) != [] {
      assert Enabled(w, s, Batch);
    } else {
      assert s.inFlight.Keys != {} by {
        assert s.inFlight.Keys == {} ==> s.inFlight == map[];
      }
      var id :| id in s.inFlight;
      match s.inFlight[id]
      case Will(outcome) => assert Enabled(w, s, Lands(id, outcome));
      case Landed => assert Enabled(w, s, Settles(id));
    }
  }
}
