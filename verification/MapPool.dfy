/** What a handler comes to: an answer, a fault, or a refusal on purpose. */
module Outcomes {
  import opened Json

  datatype Outcome = Answer(value: Json) | Fault(error: string) | Refused(reason: string, error: string)

  function Digits(n: nat): string {
    (if n < 10 then "" else Digits(n / 10)) + [['0', '1', '2', '3', '4', '5', '6', '7', '8', '9'][n % 10]]
  }
}

/** A map node's bounded worker pool: its elements taken in index order from one cursor by a number of workers. */
module MapPool {
  import opened Json
  import opened Outcomes

  /** What one element came to: its outcome, dropped by the map's rule, or never started. */
  datatype Result = Done(outcome: Outcome) | Dropped | Cancelled

  /**
   * A map over a list: what each element comes to once it starts (a seeded one the value it was given), which are
   * seeded, whether failures are collected, and how many workers it may have.
   */
  datatype Site = Site(id: string, own: seq<Result>, seeded: set<nat>, collects: bool, concurrency: Option<nat>)

  predicate ValidSite(site: Site) {
    forall i :: 0 <= i < |site.own| ==>
      !site.own[i].Cancelled? && (i in site.seeded ==> site.own[i].Done? && site.own[i].outcome.Answer?)
  }

  predicate Failed(result: Result) {
    result.Cancelled? || (result.Done? && !result.outcome.Answer?)
  }

  /** How many workers a map starts: never more than it has elements. */
  function Workers(site: Site): nat {
    var n := |site.own|;
    if site.concurrency.None? || site.concurrency.value > n then n else site.concurrency.value
  }

  // ---- the answer -------------------------------------------------------------------------------

  /** Whether a result decides the answer: any failure, or where failures are collected an element that never started. */
  predicate Decides(result: Result, collects: bool) {
    if collects then result.Cancelled? else Failed(result)
  }

  function FirstDeciding(results: seq<Result>, collects: bool, from: nat): (index: Option<nat>)
    requires from <= |results|
    ensures index.Some? ==>
      from <= index.value < |results| && Decides(results[index.value], collects) &&
      forall i :: from <= i < index.value ==> !Decides(results[i], collects)
    ensures index.None? ==> forall i :: from <= i < |results| ==> !Decides(results[i], collects)
    decreases |results| - from
  {
    if from == |results| then None
    else if Decides(results[from], collects) then Some(from)
    else FirstDeciding(results, collects, from + 1)
  }

  /** A collected element's outcome, as the answer lists it. */
  function Collected(outcome: Outcome): Json {
    match outcome
    case Answer(value) => Obj(map["ok" := Bool(true), "value" := value])
    case Fault(error) => Obj(map["ok" := Bool(false), "error" := Str(error)])
    case Refused(reason, error) => Obj(map["ok" := Bool(false), "error" := Str(error), "reason" := Str(reason)])
  }

  /** What an element contributes to the answer; nothing for a dropped one. */
  function Shown(result: Result, collects: bool): seq<Json> {
    if !result.Done? then []
    else if collects then [Collected(result.outcome)]
    else if result.outcome.Answer? then [result.outcome.value]
    else []
  }

  function ShownAll(results: seq<Result>, collects: bool): seq<Json> {
    if results == [] then [] else Shown(results[0], collects) + ShownAll(results[1..], collects)
  }

  /** A map's outcome over its elements' results: the answers in order, or the failure of the first that decides. */
  function Collect(id: string, results: seq<Result>, collects: bool): Outcome {
    var index := FirstDeciding(results, collects, 0);
    if index.None? then Answer(Arr(ShownAll(results, collects)))
    else
      match results[index.value]
      case Done(Refused(reason, error)) => Refused(reason, error)
      case Done(Fault(error)) => Fault("map '" + id + "' element " + Digits(index.value) + ": " + error)
      case _ => Fault("map '" + id + "' element " + Digits(index.value) + ": cancelled")
  }

  /** The elements a map's workers come to: all of them, or none where its concurrency leaves it no worker. */
  function Reached(site: Site): seq<Result> {
    if Workers(site) == 0 then [] else site.own
  }

  /** What a map comes to when nothing cuts it short: said of its elements alone, whatever order they settle in. */
  function MapOutcome(site: Site): Outcome {
    Collect(site.id, Reached(site), site.collects)
  }

  // ---- the pool ---------------------------------------------------------------------------------

  /** An element not yet taken, taken by a worker with the result it will settle to, or settled. */
  datatype Slot = Waiting | Taken(result: Result) | Settled(result: Result)

  datatype State = State(slots: seq<Slot>, cursor: nat, broken: bool)

  function Init(site: Site): State {
    State(seq(|site.own|, i => Waiting), 0, false)
  }

  /** What a worker that takes an element finds: it never starts once the answer is decided or the run has ended. */
  function Start(site: Site, s: State, ended: bool): Result
    requires s.cursor < |site.own|
  {
    if s.cursor !in site.seeded && (s.broken || ended) then Cancelled else site.own[s.cursor]
  }

  ghost function TakenSlots(slots: seq<Slot>): set<nat> {
    set i | 0 <= i < |slots| && slots[i].Taken? :: i
  }

  predicate CanTake(site: Site, s: State) {
    s.cursor < |site.own| && s.cursor < |s.slots|
  }

  function Take(site: Site, s: State, ended: bool): State
    requires CanTake(site, s)
  {
    s.(slots := s.slots[s.cursor := Taken(Start(site, s, ended))], cursor := s.cursor + 1)
  }

  function Land(site: Site, s: State, i: nat): State
    requires i < |s.slots| && s.slots[i].Taken?
  {
    var result := s.slots[i].result;
    s.(slots := s.slots[i := Settled(result)], broken := s.broken || (Failed(result) && !site.collects))
  }

  /** One step of the pool: a free worker takes the next element, or a worker's element settles. */
  ghost predicate Next(site: Site, s: State, s': State, ended: bool) {
    (CanTake(site, s) && |TakenSlots(s.slots)| < Workers(site) && s' == Take(site, s, ended)) ||
    (exists i :: 0 <= i < |s.slots| && s.slots[i].Taken? && s' == Land(site, s, i))
  }

  /** No worker holds an element, and none is left to take by a worker that is free. */
  predicate Finished(site: Site, s: State) {
    |s.slots| == |site.own| && forall i :: 0 <= i < |s.slots| ==> s.slots[i].Settled?
  }

  function ResultsOf(s: State): seq<Result>
    requires forall i :: 0 <= i < |s.slots| ==> s.slots[i].Settled?
  {
    seq(|s.slots|, i requires 0 <= i < |s.slots| => s.slots[i].result)
  }

  function ResultAt(s: State, i: nat): Result
    requires i < |s.slots| && !s.slots[i].Waiting?
  {
    s.slots[i].result
  }

  /** An element that failed on its own and settled: what breaks a map that fails on its first failure. */
  predicate BrokeAt(site: Site, s: State, i: nat) {
    i < |s.slots| && i < |site.own| && !site.collects && Failed(site.own[i]) && s.slots[i] == Settled(site.own[i])
  }

  /**
   * What every interleaving keeps: the cursor parts the elements taken from those that wait, each element taken comes
   * to its own result or was cut short, and one is cut short only behind an element that broke or by the run's ending.
   */
  ghost predicate Inv(site: Site, s: State, cut: bool) {
    |s.slots| == |site.own| && s.cursor <= |s.slots| &&
    (forall i :: 0 <= i < |s.slots| ==> (i < s.cursor <==> !s.slots[i].Waiting?)) &&
    (forall i :: 0 <= i < s.cursor ==>
      ResultAt(s, i) == site.own[i] || (ResultAt(s, i).Cancelled? && i !in site.seeded)) &&
    (forall i :: 0 <= i < s.cursor && ResultAt(s, i).Cancelled? ==>
      cut || exists j :: 0 <= j < i && BrokeAt(site, s, j)) &&
    (s.broken ==> cut || exists j :: 0 <= j < s.cursor && BrokeAt(site, s, j))
  }

  lemma InitInv(site: Site)
    ensures Inv(site, Init(site), false) && TakenSlots(Init(site).slots) == {}
  {
  }

  lemma TakeInv(site: Site, s: State, ended: bool, cut: bool)
    requires ValidSite(site) && Inv(site, s, cut) && CanTake(site, s)
    ensures Inv(site, Take(site, s, ended), cut || ended)
  {
    var s' := Take(site, s, ended);
    forall j | BrokeAt(site, s, j) ensures BrokeAt(site, s', j) {
    }
    forall i | 0 <= i < s'.cursor ensures ResultAt(s', i) == if i < s.cursor then ResultAt(s, i) else Start(site, s, ended) {
    }
  }

  lemma LandInv(site: Site, s: State, i: nat, cut: bool)
    requires ValidSite(site) && Inv(site, s, cut) && i < |s.slots| && s.slots[i].Taken?
    ensures Inv(site, Land(site, s, i), cut)
  {
    var s' := Land(site, s, i);
    forall j | BrokeAt(site, s, j) ensures BrokeAt(site, s', j) {
    }
    forall j | 0 <= j < s'.cursor ensures ResultAt(s', j) == ResultAt(s, j) {
    }
    if s'.broken && !s.broken && !ResultAt(s, i).Cancelled? {
      assert BrokeAt(site, s', i);
    }
  }

  /** A whole run of the pool: whether the run it is in had ended at each step is the schedule's to say. */
  ghost predicate Trace(site: Site, states: seq<State>, ended: seq<bool>) {
    states != [] && |ended| == |states| - 1 && states[0] == Init(site) &&
    forall n :: 0 <= n < |ended| ==> Next(site, states[n], states[n + 1], ended[n])
  }

  predicate EverEnded(ended: seq<bool>) {
    exists n :: 0 <= n < |ended| && ended[n]
  }

  lemma SlotTaken(slots: seq<Slot>, i: nat, result: Result)
    requires i < |slots| && slots[i].Waiting?
    ensures TakenSlots(slots[i := Taken(result)]) == TakenSlots(slots) + {i}
    ensures |TakenSlots(slots[i := Taken(result)])| == |TakenSlots(slots)| + 1
  {
    var after := slots[i := Taken(result)];
    forall j | 0 <= j < |slots| ensures after[j].Taken? <==> slots[j].Taken? || j == i {
    }
    assert TakenSlots(after) == TakenSlots(slots) + {i};
  }

  lemma SlotSettled(slots: seq<Slot>, i: nat, result: Result)
    requires i < |slots| && slots[i].Taken?
    ensures TakenSlots(slots[i := Settled(result)]) == TakenSlots(slots) - {i}
    ensures |TakenSlots(slots[i := Settled(result)])| == |TakenSlots(slots)| - 1
  {
    var after := slots[i := Settled(result)];
    forall j | 0 <= j < |slots| ensures after[j].Taken? <==> slots[j].Taken? && j != i {
    }
    assert TakenSlots(after) == TakenSlots(slots) - {i};
  }

  lemma NextKeeps(site: Site, s: State, s': State, ended: bool, cut: bool)
    requires ValidSite(site) && Inv(site, s, cut) && Next(site, s, s', ended)
    requires |TakenSlots(s.slots)| <= Workers(site)
    ensures Inv(site, s', cut || ended) && |TakenSlots(s'.slots)| <= Workers(site)
  {
    if CanTake(site, s) && |TakenSlots(s.slots)| < Workers(site) && s' == Take(site, s, ended) {
      TakeInv(site, s, ended, cut);
      SlotTaken(s.slots, s.cursor, Start(site, s, ended));
    } else {
      hide Inv;
      var i :| 0 <= i < |s.slots| && s.slots[i].Taken? && s' == Land(site, s, i);
      LandInv(site, s, i, cut);
      assert Inv(site, s', cut || ended);
      SlotSettled(s.slots, i, s.slots[i].result);
    }
  }

  /** Every state of every run keeps the invariant, and never more elements are held at once than there are workers. */
  lemma {:induction false} TraceKeeps(site: Site, states: seq<State>, ended: seq<bool>)
    requires ValidSite(site) && Trace(site, states, ended)
    ensures
      var last := states[|states| - 1];
      Inv(site, last, EverEnded(ended)) && |TakenSlots(last.slots)| <= Workers(site)
    decreases |states|
  {
    hide Inv, TakenSlots, Next, ValidSite, Workers;
    if |states| == 1 {
      InitInv(site);
      assert |TakenSlots(Init(site).slots)| <= Workers(site) by {
        assert TakenSlots(Init(site).slots) == {};
      }
    } else {
      var n := |ended| - 1;
      TraceKeeps(site, states[..n + 1], ended[..n]);
      assert EverEnded(ended) <==> EverEnded(ended[..n]) || ended[n];
      NextKeeps(site, states[n], states[n + 1], ended[n], EverEnded(ended[..n]));
    }
  }

  lemma {:induction false} AtMost(some: set<nat>, n: nat)
    requires forall i :: i in some ==> i < n
    ensures |some| <= n
  {
    if n > 0 {
      AtMost(some - {n - 1}, n - 1);
      assert some == some - {n - 1} || some == some - {n - 1} + {n - 1};
    } else {
      assert some == {};
    }
  }

  lemma TakesWhileFree(site: Site, s: State, ended: bool)
    requires CanTake(site, s) && |TakenSlots(s.slots)| < Workers(site)
    ensures Next(site, s, Take(site, s, ended), ended)
  {
  }

  /**
   * The bound is the one a map is written with, and it is used up: however its run goes, no more elements are held at once
   * than its concurrency, and while fewer are, the next that waits may be taken.
   */
  lemma HoldsItsConcurrency(site: Site, states: seq<State>, ended: seq<bool>, ends: bool)
    requires ValidSite(site) && Trace(site, states, ended)
    ensures var s := states[|states| - 1];
      (site.concurrency.Some? ==> |TakenSlots(s.slots)| <= site.concurrency.value) &&
      (s.cursor < |site.own| && (site.concurrency.Some? ==> |TakenSlots(s.slots)| < site.concurrency.value) ==>
        CanTake(site, s) && Next(site, s, Take(site, s, ends), ends))
  {
    hide Next;
    var s := states[|states| - 1];
    TraceKeeps(site, states, ended);
    AtMost(TakenSlots(s.slots), s.cursor);
    if s.cursor < |site.own| && (site.concurrency.Some? ==> |TakenSlots(s.slots)| < site.concurrency.value) {
      TakesWhileFree(site, s, ends);
    }
  }

  /** Where nothing cut the map short, the first element that decides is the first of its own that fails. */
  lemma SameFirst(site: Site, results: seq<Result>)
    requires ValidSite(site) && |results| == |site.own|
    requires forall i :: 0 <= i < |results| ==> results[i] == site.own[i] || results[i].Cancelled?
    requires forall i :: 0 <= i < |results| && results[i].Cancelled? ==>
      !site.collects && exists j :: 0 <= j < i && Failed(site.own[j]) && results[j] == site.own[j]
    ensures Collect(site.id, results, site.collects) == Collect(site.id, site.own, site.collects)
  {
    var index := FirstDeciding(results, site.collects, 0);
    if index.Some? {
      if results[index.value].Cancelled? {
        var j :| 0 <= j < index.value && Failed(site.own[j]) && results[j] == site.own[j];
        assert Decides(results[j], site.collects);
      }
      assert FirstDeciding(site.own, site.collects, 0) == index;
    } else {
      assert results == site.own;
    }
  }

  /** A map of no workers takes nothing, and its answer, collected at once from no results, is an empty list. */
  lemma NoWorkersNoSteps(site: Site, s: State, ended: bool)
    requires site.concurrency == Some(0) && site.own != []
    ensures !Next(site, Init(site), s, ended) && !Finished(site, Init(site))
    ensures Collect(site.id, [], site.collects) == MapOutcome(site) == Answer(Arr([]))
  {
    assert |TakenSlots(Init(site).slots)| >= 0;
    assert Init(site).slots[0].Waiting?;
  }

  lemma FinishedHasWorkers(site: Site, states: seq<State>, ended: seq<bool>)
    requires Trace(site, states, ended) && Finished(site, states[|states| - 1])
    ensures Reached(site) == site.own
  {
    if Workers(site) == 0 && site.own != [] {
      if |ended| > 0 {
        assert Next(site, states[0], states[1], ended[0]);
        NoWorkersNoSteps(site, states[1], ended[0]);
      } else {
        NoWorkersNoSteps(site, states[0], false);
      }
    }
  }

  /**
   * The pool refines the elements themselves: whatever the interleaving, a map whose run did not end while it ran
   * comes to what its elements come to -- their answers in list order, or the failure of the lowest that fails, which
   * is never the mark of one that did not start.
   */
  lemma PoolRefines(site: Site, states: seq<State>, ended: seq<bool>)
    requires ValidSite(site) && Trace(site, states, ended) && !EverEnded(ended)
    requires Finished(site, states[|states| - 1])
    ensures Collect(site.id, ResultsOf(states[|states| - 1]), site.collects) == MapOutcome(site)
  {
    var last := states[|states| - 1];
    TraceKeeps(site, states, ended);
    FinishedHasWorkers(site, states, ended);
    var results := ResultsOf(last);
    forall i | 0 <= i < |results|
      ensures results[i] == ResultAt(last, i)
      ensures results[i].Cancelled? ==>
        !site.collects && exists j :: 0 <= j < i && Failed(site.own[j]) && results[j] == site.own[j]
    {
      if ResultAt(last, i).Cancelled? {
        var j :| 0 <= j < i && BrokeAt(site, last, j);
        assert results[j] == site.own[j];
      }
    }
    SameFirst(site, results);
  }

  /** With a worker to take it, an element that waits is taken or one that is held can settle: the pool never stalls. */
  lemma PoolGoesOn(site: Site, s: State, cut: bool, ended: bool)
    requires Inv(site, s, cut) && (Workers(site) >= 1 || site.own == [])
    ensures Finished(site, s) || exists s' :: Next(site, s, s', ended)
  {
    if i :| 0 <= i < |s.slots| && s.slots[i].Taken? {
      assert Next(site, s, Land(site, s, i), ended);
    } else {
      assert TakenSlots(s.slots) == {};
      if s.cursor < |s.slots| {
        assert Next(site, s, Take(site, s, ended), ended);
      }
    }
  }

  /** Every step brings the pool nearer its end: an element moves from waiting to taken, or from taken to settled. */
  ghost function Remaining(s: State): int {
    2 * (|s.slots| - s.cursor) + |TakenSlots(s.slots)|
  }

  lemma StepsRunOut(site: Site, s: State, s': State, ended: bool, cut: bool)
    requires Inv(site, s, cut) && Next(site, s, s', ended)
    ensures 0 <= Remaining(s') < Remaining(s)
  {
    if CanTake(site, s) && s' == Take(site, s, ended) {
      SlotTaken(s.slots, s.cursor, Start(site, s, ended));
    } else {
      var i :| 0 <= i < |s.slots| && s.slots[i].Taken? && s' == Land(site, s, i);
      SlotSettled(s.slots, i, s.slots[i].result);
    }
  }

  // ---- the pool as it runs ----------------------------------------------------------------------

  /** A running map: what its workers share. */
  class MapSite {
    const site: Site
    var slots: seq<Slot>
    var cursor: nat
    var broken: bool

    function At(): State
      reads this
    {
      State(slots, cursor, broken)
    }

    constructor (site: Site)
      ensures this.site == site && At() == Init(site)
    {
      this.site := site;
      slots := seq(|site.own|, i => Waiting);
      cursor, broken := 0, false;
    }

    /** A worker takes the next index, and finds out whether its element starts. */
    method TakeNext(ended: bool) returns (index: nat)
      requires CanTake(site, At())
      modifies this
      ensures At() == Take(site, old(At()), ended) && index == old(cursor)
    {
      index := cursor;
      var result := site.own[index];
      if index !in site.seeded && (broken || ended) {
        result := Cancelled;
      }
      slots := slots[index := Taken(result)];
      cursor := cursor + 1;
    }

    /** A worker's element settles: its result is recorded, and a failure may decide the answer. */
    method Settle(index: nat)
      requires index < |slots| && slots[index].Taken?
      modifies this
      ensures At() == Land(site, old(At()), index)
    {
      var result := slots[index].result;
      slots := slots[index := Settled(result)];
      if Failed(result) && !site.collects {
        broken := true;
      }
    }

    /** The loop of a map's only worker, in a run that does not end meanwhile. */
    method WorkAlone() returns (outcome: Outcome)
      requires ValidSite(site) && At() == Init(site) && Workers(site) >= 1
      modifies this
      ensures outcome == MapOutcome(site)
    {
      InitInv(site);
      while cursor < |site.own|
        invariant Inv(site, At(), false)
        invariant forall i :: 0 <= i < cursor ==> slots[i].Settled?
        decreases |site.own| - cursor
      {
        TakeInv(site, At(), false, false);
        var index := TakeNext(false);
        LandInv(site, At(), index, false);
        Settle(index);
      }
      var results := ResultsOf(At());
      forall i | 0 <= i < |results|
        ensures results[i] == ResultAt(At(), i)
        ensures results[i].Cancelled? ==>
          !site.collects && exists j :: 0 <= j < i && Failed(site.own[j]) && results[j] == site.own[j]
      {
        if ResultAt(At(), i).Cancelled? {
          var j :| 0 <= j < i && BrokeAt(site, At(), j);
          assert results[j] == site.own[j];
        }
      }
      SameFirst(site, results);
      outcome := Collect(site.id, results, site.collects);
    }
  }

  // ---- which element an answer stands for -------------------------------------------------------

  /** The indices of the elements that were kept, in order. */
  function KeptFrom(results: seq<Result>, from: nat): seq<nat>
    requires from <= |results|
    decreases |results| - from
  {
    if from == |results| then []
    else (if results[from].Dropped? then [] else [from]) + KeptFrom(results, from + 1)
  }

  /** Each answer is that of an element that was kept. */
  ghost predicate Placed(results: seq<Result>, collects: bool, from: nat, kept: seq<nat>, shown: seq<Json>) {
    |shown| == |kept| &&
    forall n :: 0 <= n < |kept| ==>
      from <= kept[n] < |results| && !results[kept[n]].Dropped? && Shown(results[kept[n]], collects) == [shown[n]]
  }

  ghost predicate Increasing(kept: seq<nat>) {
    forall m, n :: 0 <= m < n < |kept| ==> kept[m] < kept[n]
  }

  ghost predicate Complete(results: seq<Result>, from: nat, kept: seq<nat>) {
    forall i :: from <= i < |results| && !results[i].Dropped? ==> i in kept
  }

  /** The n-th answer is the n-th kept element's; the kept elements are all of them not dropped, in order. */
  ghost predicate StandsFor(results: seq<Result>, collects: bool, from: nat, kept: seq<nat>, shown: seq<Json>) {
    Placed(results, collects, from, kept, shown) && Increasing(kept) && Complete(results, from, kept)
  }

  lemma ShownOne(result: Result, collects: bool)
    requires !Decides(result, collects)
    ensures !result.Dropped? ==> |Shown(result, collects)| == 1
  {
  }

  lemma PlacedMore(results: seq<Result>, collects: bool, from: nat, kept: seq<nat>, shown: seq<Json>)
    requires from < |results| && Placed(results, collects, from + 1, kept, shown)
    requires !results[from].Dropped? && !Decides(results[from], collects)
    ensures Placed(results, collects, from, [from] + kept, Shown(results[from], collects) + shown)
    ensures Increasing(kept) ==> Increasing([from] + kept)
  {
    hide Shown, Decides;
    ShownOne(results[from], collects);
    var kept', shown' := [from] + kept, Shown(results[from], collects) + shown;
    forall n | 0 < n < |kept'| ensures kept'[n] == kept[n - 1] && shown'[n] == shown[n - 1] {}
  }

  lemma CompleteMore(results: seq<Result>, from: nat, kept: seq<nat>)
    requires from < |results| && Complete(results, from + 1, kept)
    ensures results[from].Dropped? ==> Complete(results, from, kept)
    ensures !results[from].Dropped? ==> Complete(results, from, [from] + kept)
  {
  }

  lemma PlacedStays(results: seq<Result>, collects: bool, from: nat, kept: seq<nat>, shown: seq<Json>)
    requires Placed(results, collects, from + 1, kept, shown)
    ensures Placed(results, collects, from, kept, shown)
  {
    hide Shown;
  }

  lemma StandsForMore(results: seq<Result>, collects: bool, from: nat, kept: seq<nat>, shown: seq<Json>)
    requires from < |results| && StandsFor(results, collects, from + 1, kept, shown)
    requires !Decides(results[from], collects)
    ensures results[from].Dropped? ==> StandsFor(results, collects, from, kept, shown)
    ensures !results[from].Dropped? ==>
      StandsFor(results, collects, from, [from] + kept, Shown(results[from], collects) + shown)
  {
    hide Shown, Decides, Placed, Increasing, Complete;
    CompleteMore(results, from, kept);
    if results[from].Dropped? {
      PlacedStays(results, collects, from, kept, shown);
    } else {
      PlacedMore(results, collects, from, kept, shown);
    }
  }

  /** Where a map answers, its n-th answer is the n-th kept element's, and every kept element answers once. */
  lemma {:induction false} AnswersAreKept(results: seq<Result>, collects: bool, from: nat)
    requires from <= |results| && forall i :: 0 <= i < |results| ==> !Decides(results[i], collects)
    ensures StandsFor(results, collects, from, KeptFrom(results, from), ShownAll(results[from..], collects))
    decreases |results| - from
  {
    hide StandsFor;
    if from < |results| {
      AnswersAreKept(results, collects, from + 1);
      assert results[from..][0] == results[from] && results[from..][1..] == results[from + 1..];
      StandsForMore(results, collects, from, KeptFrom(results, from + 1), ShownAll(results[from + 1..], collects));
      assert [] + KeptFrom(results, from + 1) == KeptFrom(results, from + 1);
      assert [] + ShownAll(results[from + 1..], collects) == ShownAll(results[from + 1..], collects);
    } else {
      NoneStandsFor(results, collects);
      assert results[from..] == [];
    }
  }

  lemma NoneStandsFor(results: seq<Result>, collects: bool)
    ensures StandsFor(results, collects, |results|, [], [])
  {
  }
}
