/** How a run ended, in one word: what a report's reader is told, and which node a failed report names. */
module Verdicts {
  import opened Json
  import opened Sources
  import opened Outcomes
  import opened KernelSpec
  import opened Fates
  import opened Kernel
  import opened Agreement
  import opened RunLaws
  import opened Confluence
  import opened Meaning
  import opened Endings

  datatype Verdict =
    | Answered(output: Option<Json>)
    | RefusedAt(reason: string, message: string, at: Id)
    | FaultedAt(at: Id, error: string)
    | BlockedOn(needs: set<(string, Path)>)
    | WasCancelled

  /** A node that refused, or one that broke with no switch to hold its fault. */
  predicate Wanted(report: NodeReport, refused: bool) {
    report.status.Failed? && report.failure.Some? &&
    if refused then report.failure.value.Refused? else report.failure.value.Fault? && report.caught.None?
  }

  function PlaceOf(report: NodeReport): nat {
    if report.order.Some? then report.order.value else 0
  }

  /** Of the nodes wanted, the first in the order they settled; of two in one place, the first written. */
  function EndedAt(nodes: map<Id, NodeReport>, order: seq<Id>, refused: bool): (at: Option<Id>)
    ensures at.Some? ==> at.value in order && at.value in nodes && Wanted(nodes[at.value], refused)
    ensures at.Some? ==> forall id :: id in order && id in nodes && Wanted(nodes[id], refused) ==>
      PlaceOf(nodes[at.value]) <= PlaceOf(nodes[id])
    ensures at.None? ==> forall id :: id in order && id in nodes ==> !Wanted(nodes[id], refused)
  {
    if order == [] then None
    else
      var rest := EndedAt(nodes, order[1..], refused);
      if order[0] !in nodes || !Wanted(nodes[order[0]], refused) then rest
      else if rest.Some? && PlaceOf(nodes[rest.value]) < PlaceOf(nodes[order[0]]) then rest
      else Some(order[0])
  }

  /** A failed run's ending: the first refusal, or else the first fault that nothing caught. */
  function Failure(nodes: map<Id, NodeReport>, order: seq<Id>): Verdict {
    var refusal := EndedAt(nodes, order, true);
    if refusal.Some? then
      var failure := nodes[refusal.value].failure.value;
      RefusedAt(failure.reason, failure.error, refusal.value)
    else
      var fault := EndedAt(nodes, order, false);
      if fault.Some? then FaultedAt(fault.value, nodes[fault.value].failure.value.error) else FaultedAt("", "failed")
  }

  function OutcomeOf(report: Report, order: seq<Id>): Verdict {
    match report.status
    case RunBlocked => BlockedOn(report.needs)
    case RunFailed => Failure(report.nodes, order)
    case RunCancelled => WasCancelled
    case RunDone => Answered(report.output)
  }

  /** The node a verdict names and what it says of it are the report's own. */
  predicate Names(verdict: Verdict, nodes: map<Id, NodeReport>) {
    (verdict.RefusedAt? || verdict.FaultedAt?) && verdict.at in nodes && nodes[verdict.at].status.Failed? &&
    nodes[verdict.at].caught.None? &&
    nodes[verdict.at].failure ==
      Some(if verdict.RefusedAt? then Refused(verdict.reason, verdict.message) else Fault(verdict.error))
  }

  lemma ShapeIsWanted(w: World, s: State, id: Id)
    requires Shape(w, s) && Uncaught(s, id)
    ensures Wanted(s.reports[id], true) || Wanted(s.reports[id], false)
  {
    assert ShapeAt(w, s, id);
  }

  lemma WantedIsUncaught(w: World, s: State, id: Id, refused: bool)
    requires Shape(w, s) && id in s.reports && Wanted(s.reports[id], refused)
    ensures Uncaught(s, id)
  {
    assert ShapeAt(w, s, id);
  }

  /** A run that failed names a node of it that failed and that no switch caught, with what it failed with. */
  lemma FailureIsNamed(w: World, states: seq<State>, steps: seq<Step>)
    requires w.Sound() && IsRun(w, states, steps) && states[|steps|].ending == Some(EndFailed)
    ensures Names(OutcomeOf(ReportOf(w, states[|steps|]), w.spec.order), states[|steps|].reports)
  {
    hide FateOf, WaitsFor, Ranked, RoutedOnce, TargetsExist, Inv, Enabled, After, Wanted, ShapeAt, Needs;
    ListedOnce(w.spec);
    var last := states[|steps|];
    RunKeeps(w, states, steps, |steps|);
    InvShape(w, last);
    FailedRunIsNamed(w, states, steps, |steps|);
    var n :| Uncaught(last, n);
    ShapeIsWanted(w, last, n);
    var refusal, fault := EndedAt(last.reports, w.spec.order, true), EndedAt(last.reports, w.spec.order, false);
    if refusal.Some? {
      NamesWanted(w, last, refusal.value, true);
    } else {
      assert n in w.spec.order;
      NamesWanted(w, last, fault.value, false);
    }
  }

  lemma NamesWanted(w: World, s: State, id: Id, refused: bool)
    requires Shape(w, s) && id in s.reports && Wanted(s.reports[id], refused)
    ensures Uncaught(s, id) && s.reports[id].failure.Some?
    ensures if refused then s.reports[id].failure.value.Refused? else s.reports[id].failure.value.Fault?
  {
    assert ShapeAt(w, s, id);
  }

  /**
   * What is told of a run that went its way is what its spec means: the answer where the spec answers, what was never
   * supplied where it is blocked, a node that failed where it fails; and of a run stopped, that it was stopped.
   */
  lemma VerdictMeans(w: World, states: seq<State>, steps: seq<Step>)
    requires w.Sound() && IsRun(w, states, steps) && Quiescent(w, states[|steps|])
    ensures var verdict := OutcomeOf(ReportOf(w, states[|steps|]), w.spec.order);
      if states[|steps|].ending == Some(EndCancelled) then verdict == WasCancelled
      else
        match Means(w).status
        case RunDone => verdict == Answered(Means(w).output)
        case RunBlocked => verdict == BlockedOn(Means(w).needs)
        case RunFailed => Names(verdict, states[|steps|].reports)
        case RunCancelled => false
  {
    hide FateOf, WellFormed, Inv, Enabled, After, Failure, Ready, Needs, Fails, FirstFated, FateNeeds, FateReport, AllExact, Names;
    RunMeans(w, states, steps);
    var last := states[|steps|];
    if last.ending != Some(EndCancelled) {
      NotCancelled(w, last);
      if last.ending == Some(EndFailed) {
        FailureIsNamed(w, states, steps);
      }
    }
  }

  // ---- which of several -------------------------------------------------------------------------

  /** The first node to settle of those that failed and that no switch caught. */
  ghost predicate FirstUncaught(s: State, first: Id) {
    Uncaught(s, first) && forall n :: Uncaught(s, n) && n != first ==> PlaceOf(s.reports[first]) < PlaceOf(s.reports[n])
  }

  predicate RefusedIn(s: State, n: Id) {
    n in s.reports && s.reports[n].failure.Some? && s.reports[n].failure.value.Refused?
  }

  predicate At(verdict: Verdict, n: Id) {
    (verdict.RefusedAt? || verdict.FaultedAt?) && verdict.at == n
  }

  lemma FailureOfFirst(w: World, s: State, first: Id)
    requires w.Sound() && Shape(w, s) && Ordered(s) && s.inFlight == map[] && FirstUncaught(s, first)
    ensures At(Failure(s.reports, w.spec.order), first) <==> RefusedIn(s, first) || forall n :: !RefusedIn(s, n)
  {
    hide WaitsFor, Ranked, RoutedOnce, TargetsExist, ShapeAt, Ordered;
    ListedOnce(w.spec);
    assert first in w.spec.order;
    var refusal, fault := EndedAt(s.reports, w.spec.order, true), EndedAt(s.reports, w.spec.order, false);
    ShapeIsWanted(w, s, first);
    if refusal.Some? {
      WantedIsUncaught(w, s, refusal.value, true);
      assert RefusedIn(s, refusal.value);
    } else {
      forall n ensures !RefusedIn(s, n) {
        if n in s.reports {
          RefusedIsWanted(w, s, n);
        }
      }
      WantedIsUncaught(w, s, fault.value, false);
    }
  }

  lemma RefusedIsWanted(w: World, s: State, n: Id)
    requires Shape(w, s) && n in s.reports && Listed(w.spec)
    ensures RefusedIn(s, n) ==> Wanted(s.reports[n], true) && n in w.spec.order
  {
    ListedOnce(w.spec);
    assert ShapeAt(w, s, n);
  }

  /**
   * A failed report is said to name the first node that failed. It does if and only if that node refused or no node
   * did: a refusal is named whenever it came, after the run had ended with a fault too.
   */
  lemma FirstIsNamed(w: World, states: seq<State>, steps: seq<Step>, first: Id)
    requires w.Sound() && IsRun(w, states, steps) && Quiescent(w, states[|steps|])
    requires states[|steps|].ending == Some(EndFailed) && FirstUncaught(states[|steps|], first)
    ensures At(OutcomeOf(ReportOf(w, states[|steps|]), w.spec.order), first) <==>
      RefusedIn(states[|steps|], first) || forall n :: !RefusedIn(states[|steps|], n)
  {
    hide FateOf, WellFormed, Inv, Enabled, After, Failure, Ordered, Ready, ShapeAt, FirstUncaught, Needs, At, RefusedIn;
    RunKeeps(w, states, steps, |steps|);
    InvShape(w, states[|steps|]);
    RunOrders(w, states, steps, |steps|);
    FailureOfFirst(w, states[|steps|], first);
  }
}
