/** The pacing of one connection: at most so many requests in flight at once, at most so many started in any second. */
module Throttling {
  import opened Json

  type Id = nat

  /** A limit that is absent bounds nothing. Time is in milliseconds. */
  datatype Settings = Settings(concurrency: Option<nat>, perSecond: Option<real>)

  /**
   * How long until one more request may start: now, once a slot frees up, after so long, or for what is no number, where
   * the limit is reached and no start is remembered to count from. The request asks again after that wait too.
   */
  datatype Wait = Now | Slot | After(ms: real) | NotANumber

  /** The gate: requests in flight, requests parked in turn, and when the requests of the last second started. */
  datatype Gate = Gate(inFlight: nat, waiting: seq<Id>, started: seq<real>)

  const SECOND := 1000.0

  /** The starts that are less than a second old. */
  function Recent(started: seq<real>, now: real): seq<real> {
    if started == [] then []
    else (if now - started[0] < SECOND then [started[0]] else []) + Recent(started[1..], now)
  }

  predicate Full(settings: Settings, gate: Gate) {
    settings.concurrency.Some? && gate.inFlight >= settings.concurrency.value
  }

  /** What a request finds as it asks, and what asking leaves of the gate. */
  function Delay(settings: Settings, gate: Gate, now: real): (Wait, Gate)
  {
    if Full(settings, gate) then (Slot, gate)
    else if settings.perSecond.None? then (Now, gate)
    else
      var recent := Recent(gate.started, now);
      var left := gate.(started := recent);
      if |recent| as real < settings.perSecond.value then (Now, left)
      else (if recent == [] then NotANumber else After(recent[0] + SECOND - now), left)
  }

  // ---- requests through the gate ----------------------------------------------------------------

  /**
   * A gate and the requests that use it: those in flight, those woken from their place in the queue and not started
   * since, every start there has been, and the clock.
   */
  datatype System = System(gate: Gate, running: set<Id>, awake: set<Id>, log: seq<real>, now: real)

  function Idle(): System {
    System(Gate(0, [], []), {}, {}, [], 0.0)
  }

  predicate Sorted(log: seq<real>) {
    forall i, j :: 0 <= i <= j < |log| ==> log[i] <= log[j]
  }

  /** A request asks -- it is new, or its timer ran out, or it was woken -- and starts, parks or sets a timer. */
  function Ask(settings: Settings, s: System, id: Id, asked: real, begun: real): System {
    var (wait, gate) := Delay(settings, s.gate, asked);
    match wait
    case Now =>
      System(gate.(inFlight := gate.inFlight + 1, started := gate.started + [begun]),
             s.running + {id}, s.awake - {id}, s.log + [begun], begun)
    case Slot => s.(gate := gate.(waiting := gate.waiting + [id]), awake := s.awake - {id}, now := begun)
    case _ => s.(gate := gate, now := begun)
  }

  predicate MayAsk(s: System, id: Id, asked: real, begun: real) {
    id !in s.running && id !in s.gate.waiting && s.now <= asked <= begun
  }

  /** A request settles: its slot is free, and the first that waits for one is woken. */
  function Finish(s: System, id: Id): System
    requires s.gate.inFlight > 0
  {
    var gate := s.gate.(inFlight := s.gate.inFlight - 1);
    if gate.waiting == [] then s.(gate := gate, running := s.running - {id})
    else
      System(gate.(waiting := gate.waiting[1..]), s.running - {id}, s.awake + {gate.waiting[0]}, s.log, s.now)
  }

  datatype Step = Asks(id: Id, asked: real, begun: real) | Finishes(id: Id)

  predicate Enabled(s: System, step: Step) {
    match step
    case Asks(id, asked, begun) => MayAsk(s, id, asked, begun)
    case Finishes(id) => id in s.running && s.gate.inFlight > 0
  }

  function Next(settings: Settings, s: System, step: Step): System
    requires Enabled(s, step)
  {
    match step
    case Asks(id, asked, begun) => Ask(settings, s, id, asked, begun)
    case Finishes(id) => Finish(s, id)
  }

  ghost predicate Trace(settings: Settings, states: seq<System>, steps: seq<Step>) {
    |states| == |steps| + 1 && states[0] == Idle() &&
    forall i :: 0 <= i < |steps| ==> Enabled(states[i], steps[i]) && states[i + 1] == Next(settings, states[i], steps[i])
  }

  // ---- what every interleaving keeps ------------------------------------------------------------

  /** The remembered starts are the latest ones, and those forgotten are a second old or more. */
  ghost predicate Remembers(s: System, k: nat) {
    k <= |s.log| && s.gate.started == s.log[k..] && forall i :: 0 <= i < k ==> s.now - s.log[i] >= SECOND
  }

  /** Of two starts less than a second apart, fewer than `perSecond` lie from the first up to the second: none of one. */
  ghost predicate Paced(settings: Settings, log: seq<real>) {
    settings.perSecond.Some? ==>
      forall i, j :: 0 <= i <= j < |log| && log[j] - log[i] < SECOND ==> (j - i) as real < settings.perSecond.value
  }

  /** Every slot is held by a request in flight, and none is idle while a request is parked and no one is woken. */
  ghost predicate SlotsHeld(settings: Settings, s: System) {
    |s.running| == s.gate.inFlight &&
    (settings.concurrency.Some? ==> s.gate.inFlight <= settings.concurrency.value) &&
    (forall i, j :: 0 <= i < j < |s.gate.waiting| ==> s.gate.waiting[i] != s.gate.waiting[j]) &&
    (forall id :: id in s.gate.waiting ==> id !in s.running && id !in s.awake) && s.awake !! s.running &&
    (s.gate.waiting != [] ==> settings.concurrency.Some? && s.gate.inFlight + |s.awake| >= settings.concurrency.value)
  }

  ghost predicate StartsKept(settings: Settings, s: System) {
    Sorted(s.log) && (s.log != [] ==> s.log[|s.log| - 1] <= s.now) &&
    (exists k :: Remembers(s, k)) && Paced(settings, s.log)
  }

  ghost predicate Inv(settings: Settings, s: System) {
    SlotsHeld(settings, s) && StartsKept(settings, s)
  }

  lemma {:induction false} RecentIsSuffix(log: seq<real>, k: nat, now: real) returns (k': nat)
    requires Sorted(log) && k <= |log|
    ensures k <= k' <= |log| && Recent(log[k..], now) == log[k'..]
    ensures forall i :: k <= i < k' ==> now - log[i] >= SECOND
    decreases |log| - k
  {
    if k == |log| {
      k' := k;
    } else {
      assert log[k..][0] == log[k] && log[k..][1..] == log[k + 1..];
      k' := RecentIsSuffix(log, k + 1, now);
      if now - log[k] < SECOND {
        AllRecent(log, k + 1, now);
        k' := k;
        assert log[k..] == [log[k]] + log[k + 1..];
      }
    }
  }

  lemma {:induction false} AllRecent(log: seq<real>, k: nat, now: real)
    requires Sorted(log) && 0 < k <= |log| && now - log[k - 1] < SECOND
    ensures Recent(log[k..], now) == log[k..]
    decreases |log| - k
  {
    if k < |log| {
      assert log[k..][0] == log[k] && log[k..][1..] == log[k + 1..];
      AllRecent(log, k + 1, now);
      assert log[k..] == [log[k]] + log[k + 1..];
    }
  }

  lemma SortedMore(log: seq<real>, at: real)
    requires Sorted(log) && (log != [] ==> log[|log| - 1] <= at)
    ensures Sorted(log + [at])
  {
  }

  /** A start the limit allows keeps the pace. */
  lemma PacedMore(settings: Settings, log: seq<real>, at: real, k: nat)
    requires Paced(settings, log) && k <= |log|
    requires settings.perSecond.Some? ==>
      (forall i :: 0 <= i < k ==> at - log[i] >= SECOND) && (|log| - k) as real < settings.perSecond.value
    ensures Paced(settings, log + [at])
  {
    if settings.perSecond.Some? {
      var more := log + [at];
      forall i, j | 0 <= i <= j < |more| && more[j] - more[i] < SECOND ensures (j - i) as real < settings.perSecond.value {
        if j == |log| {
          assert i >= k;
        }
      }
    }
  }

  lemma RunsMore(running: set<Id>, id: Id)
    requires id !in running
    ensures |running + {id}| == |running| + 1
  {
  }

  lemma StartRemembers(settings: Settings, s: System, id: Id, asked: real, begun: real) returns (k': nat)
    requires Inv(settings, s) && MayAsk(s, id, asked, begun) && Delay(settings, s.gate, asked).0.Now?
    ensures k' <= |s.log| && Delay(settings, s.gate, asked).1.started == s.log[k'..]
    ensures forall i :: 0 <= i < k' ==> begun - s.log[i] >= SECOND
    ensures settings.perSecond.Some? ==> (|s.log| - k') as real < settings.perSecond.value
  {
    hide Recent, Paced;
    var k: nat :| Remembers(s, k);
    k' := k;
    if settings.perSecond.Some? {
      k' := RecentIsSuffix(s.log, k, asked);
    }
  }

  lemma StartKeepsSlots(settings: Settings, s: System, id: Id, asked: real, begun: real)
    requires SlotsHeld(settings, s) && MayAsk(s, id, asked, begun) && Delay(settings, s.gate, asked).0.Now?
    ensures SlotsHeld(settings, Ask(settings, s, id, asked, begun))
  {
    hide Recent;
    RunsMore(s.running, id);
    AwakeLess(s.awake, id);
  }

  /** A request that starts keeps it all: it was let through by both limits. */
  lemma StartKeeps(settings: Settings, s: System, id: Id, asked: real, begun: real)
    requires Inv(settings, s) && MayAsk(s, id, asked, begun) && Delay(settings, s.gate, asked).0.Now?
    ensures Inv(settings, Ask(settings, s, id, asked, begun))
  {
    hide Recent, Paced, Sorted, SlotsHeld;
    var s' := Ask(settings, s, id, asked, begun);
    var k := StartRemembers(settings, s, id, asked, begun);
    StartKeepsSlots(settings, s, id, asked, begun);
    SortedMore(s.log, begun);
    PacedMore(settings, s.log, begun, k);
    assert s'.gate.started == s'.log[k..];
    assert Remembers(s', k);
  }

  lemma AwakeLess(awake: set<Id>, id: Id)
    ensures |awake - {id}| >= |awake| - 1
  {
    if id in awake {
      assert awake == (awake - {id}) + {id};
    } else {
      assert awake - {id} == awake;
    }
  }

  lemma ParkKeeps(settings: Settings, s: System, id: Id, asked: real, begun: real)
    requires Inv(settings, s) && MayAsk(s, id, asked, begun) && Delay(settings, s.gate, asked).0.Slot?
    ensures Inv(settings, Ask(settings, s, id, asked, begun))
  {
    hide Recent, Paced;
    var s' := Ask(settings, s, id, asked, begun);
    var k :| Remembers(s, k);
    assert Remembers(s', k);
  }

  lemma TimeKeeps(settings: Settings, s: System, id: Id, asked: real, begun: real)
    requires Inv(settings, s) && MayAsk(s, id, asked, begun)
    requires Delay(settings, s.gate, asked).0.After? || Delay(settings, s.gate, asked).0.NotANumber?
    ensures Inv(settings, Ask(settings, s, id, asked, begun))
    ensures Delay(settings, s.gate, asked).0.After? ==> Delay(settings, s.gate, asked).0.ms > 0.0
  {
    hide Paced, Recent, Sorted, SlotsHeld;
    var s' := Ask(settings, s, id, asked, begun);
    var k: nat :| Remembers(s, k);
    var k' := RecentIsSuffix(s.log, k, asked);
    assert Remembers(s', k');
    SlotsStay(settings, s, s');
    FirstIsRecent(s.gate.started, asked);
  }

  lemma SlotsStay(settings: Settings, s: System, s': System)
    requires SlotsHeld(settings, s) && s'.running == s.running && s'.awake == s.awake
    requires s'.gate.inFlight == s.gate.inFlight && s'.gate.waiting == s.gate.waiting
    ensures SlotsHeld(settings, s')
  {
  }

  lemma {:induction false} FirstIsRecent(started: seq<real>, now: real)
    ensures Recent(started, now) != [] ==> now - Recent(started, now)[0] < SECOND
  {
    if started != [] {
      FirstIsRecent(started[1..], now);
    }
  }

  /** A request that settles leaves its slot to the first that waits for one. */
  lemma FinishKeepsSlots(settings: Settings, s: System, id: Id)
    requires SlotsHeld(settings, s) && id in s.running && s.gate.inFlight > 0
    ensures SlotsHeld(settings, Finish(s, id))
  {
    assert s.running == (s.running - {id}) + {id};
    if s.gate.waiting != [] {
      RunsMore(s.awake, s.gate.waiting[0]);
    }
  }

  lemma FinishKeepsStarts(settings: Settings, s: System, id: Id)
    requires StartsKept(settings, s) && s.gate.inFlight > 0
    ensures StartsKept(settings, Finish(s, id))
  {
    hide Paced, Sorted;
    var k :| Remembers(s, k);
    assert Remembers(Finish(s, id), k);
  }

  lemma StepKeeps(settings: Settings, s: System, step: Step)
    requires Inv(settings, s) && Enabled(s, step)
    ensures Inv(settings, Next(settings, s, step))
  {
    hide SlotsHeld, StartsKept, Finish;
    match step
    case Asks(id, asked, begun) =>
      match Delay(settings, s.gate, asked).0 {
        case Now => StartKeeps(settings, s, id, asked, begun);
        case Slot => ParkKeeps(settings, s, id, asked, begun);
        case _ => TimeKeeps(settings, s, id, asked, begun);
      }
    case Finishes(id) =>
      FinishKeepsSlots(settings, s, id);
      FinishKeepsStarts(settings, s, id);
  }

  lemma {:induction false} TraceKeeps(settings: Settings, states: seq<System>, steps: seq<Step>, n: nat)
    requires Trace(settings, states, steps) && n < |states|
    ensures Inv(settings, states[n])
  {
    hide Inv, Next, Enabled;
    if n == 0 {
      IdleInv(settings);
    } else {
      TraceKeeps(settings, states, steps, n - 1);
      StepKeeps(settings, states[n - 1], steps[n - 1]);
      assert states[n - 1 + 1] == Next(settings, states[n - 1], steps[n - 1]);
    }
  }

  lemma IdleInv(settings: Settings)
    ensures Inv(settings, Idle())
  {
    assert Remembers(Idle(), 0);
  }

  // ---- the promises -----------------------------------------------------------------------------

  /** In every interleaving, no more requests are in flight than the limit. */
  lemma NeverTooMany(settings: Settings, states: seq<System>, steps: seq<Step>, n: nat)
    requires Trace(settings, states, steps) && n < |states| && settings.concurrency.Some?
    ensures |states[n].running| <= settings.concurrency.value
  {
    TraceKeeps(settings, states, steps, n);
  }

  /**
   * No wake-up is lost: while a request is parked, the slots are held by requests in flight or owed to requests
   * woken that have not started. With a slot at all, there is always one of them to go on.
   */
  lemma NoWakeUpIsLost(settings: Settings, states: seq<System>, steps: seq<Step>, n: nat)
    requires Trace(settings, states, steps) && n < |states| && states[n].gate.waiting != []
    ensures settings.concurrency.Some? &&
      |states[n].running| + |states[n].awake| >= settings.concurrency.value
    ensures settings.concurrency.value >= 1 ==> states[n].running != {} || states[n].awake != {}
  {
    TraceKeeps(settings, states, steps, n);
  }

  /** The least whole number that is not less. */
  function Ceiling(x: real): int {
    if x.Floor as real == x then x.Floor else x.Floor + 1
  }

  /** How many starts of a log fall in the second, a thousand milliseconds, that begins at a time. */
  function StartsIn(log: seq<real>, from: real): nat {
    if log == [] then 0
    else StartsIn(log[..|log| - 1], from) + if from <= log[|log| - 1] < from + 1000.0 then 1 else 0
  }

  /** The starts in a second lie together in a log, and are as many as they are. */
  ghost predicate Together(log: seq<real>, from: real, i: nat, j: nat, count: nat) {
    i <= j < |log| && from <= log[i] && log[j] < from + SECOND && j - i + 1 == count &&
    (j < |log| - 1 ==> log[|log| - 1] >= from + SECOND)
  }

  lemma {:induction false} StartsAreTogether(log: seq<real>, from: real)
    requires Sorted(log)
    ensures StartsIn(log, from) > 0 ==> exists i, j :: Together(log, from, i, j, StartsIn(log, from))
    decreases |log|
  {
    if log != [] {
      var last := |log| - 1;
      var rest := log[..last];
      StartsAreTogether(rest, from);
      if StartsIn(rest, from) > 0 {
        var i: nat, j: nat :| Together(rest, from, i, j, StartsIn(rest, from));
        assert log[i] <= log[last] && (j < last - 1 ==> rest[last - 1] <= log[last]);
        if log[last] < from + SECOND {
          assert Together(log, from, i, last, StartsIn(log, from));
        } else {
          assert Together(log, from, i, j, StartsIn(log, from));
        }
      } else if from <= log[last] < from + SECOND {
        assert Together(log, from, last, last, StartsIn(log, from));
      }
    }
  }

  /**
   * No second, wherever it begins, holds more starts than the limit rounded up: than the limit, where it is whole. With
   * a limit of 0 or less nothing ever starts.
   */
  lemma NeverTooFast(settings: Settings, states: seq<System>, steps: seq<Step>, n: nat, from: real)
    requires Trace(settings, states, steps) && n < |states| && settings.perSecond.Some?
    ensures StartsIn(states[n].log, from) <= if settings.perSecond.value > 0.0 then Ceiling(settings.perSecond.value) else 0
  {
    hide Inv, Trace;
    TraceKeeps(settings, states, steps, n);
    InvPaced(settings, states[n]);
    var log := states[n].log;
    StartsAreTogether(log, from);
    var count := StartsIn(log, from);
    if count > 0 {
      var i: nat, j: nat :| Together(log, from, i, j, count);
      assert (j - i) as real < settings.perSecond.value;
    }
  }

  lemma InvPaced(settings: Settings, s: System)
    requires Inv(settings, s)
    ensures Sorted(s.log) && Paced(settings, s.log)
  {
    hide Remembers;
  }

  // ---- how tight the pace is --------------------------------------------------------------------

  function Zeros(n: nat): seq<real> {
    seq(n, i => 0.0)
  }

  lemma {:induction false} ZerosIn(n: nat)
    ensures StartsIn(Zeros(n), 0.0) == n
  {
    if n > 0 {
      assert Zeros(n)[..n - 1] == Zeros(n - 1);
      ZerosIn(n - 1);
    }
  }

  lemma {:induction false} ZerosAreRecent(n: nat)
    ensures Recent(Zeros(n), 0.0) == Zeros(n)
  {
    if n > 0 {
      assert Zeros(n)[1..] == Zeros(n - 1);
      ZerosAreRecent(n - 1);
    }
  }

  /** As many requests as the limit rounded up may start at one instant. */
  lemma {:induction false} Burst(settings: Settings, n: nat) returns (states: seq<System>, steps: seq<Step>)
    requires settings.concurrency.None? && settings.perSecond.Some? && n <= Ceiling(settings.perSecond.value)
    ensures Trace(settings, states, steps) && states[|steps|].log == Zeros(n) && states[|steps|].now == 0.0
    ensures states[|steps|].gate.started == Zeros(n) && states[|steps|].gate.waiting == []
    ensures forall id :: id in states[|steps|].running ==> id < n
  {
    if n == 0 {
      states, steps := [Idle()], [];
    } else {
      states, steps := Burst(settings, n - 1);
      var s, step := states[|steps|], Asks(n - 1, 0.0, 0.0);
      ZerosAreRecent(n - 1);
      assert Delay(settings, s.gate, 0.0).0.Now?;
      assert Zeros(n - 1) + [0.0] == Zeros(n);
      var s' := Next(settings, s, step);
      states, steps := TraceMore(settings, states, steps, step, s');
    }
  }

  lemma TraceMore(settings: Settings, states: seq<System>, steps: seq<Step>, step: Step, s: System)
      returns (states': seq<System>, steps': seq<Step>)
    requires Trace(settings, states, steps) && Enabled(states[|steps|], step) && s == Next(settings, states[|steps|], step)
    ensures Trace(settings, states', steps') && states'[|steps'|] == s
  {
    hide Enabled, Next;
    states', steps' := states + [s], steps + [step];
  }

  /** Every run keeps within `perSecond` starts a second if and only if it is a whole number. */
  lemma WholePaceIsKept(perSecond: real)
    requires perSecond >= 0.0
    ensures perSecond.Floor as real == perSecond <==>
      forall states: seq<System>, steps: seq<Step>, from: real :: Trace(Settings(None, Some(perSecond)), states, steps) ==>
        StartsIn(states[|steps|].log, from) as real <= perSecond
  {
    hide StartsIn, Enabled, Next;
    var settings := Settings(None, Some(perSecond));
    if perSecond.Floor as real == perSecond {
      forall states: seq<System>, steps: seq<Step>, from: real | Trace(settings, states, steps)
        ensures StartsIn(states[|steps|].log, from) as real <= perSecond
      {
        assert |states| == |steps| + 1;
        NeverTooFast(settings, states, steps, |steps|, from);
      }
    } else {
      var states, steps := Burst(settings, Ceiling(perSecond));
      ZerosIn(Ceiling(perSecond));
      assert StartsIn(states[|steps|].log, 0.0) as real > perSecond;
    }
  }

  lemma RecentOfNone(now: real)
    ensures Recent([], now) == []
  {
  }

  lemma {:induction false} RecentLast(started: seq<real>, last: real, now: real)
    ensures Recent(started + [last], now) == Recent(started, now) + if now - last < SECOND then [last] else []
  {
    if started == [] {
      assert [] + [last] == [last] && [last][1..] == [];
    } else {
      assert (started + [last])[0] == started[0] && (started + [last])[1..] == started[1..] + [last];
      RecentLast(started[1..], last, now);
    }
  }

  // ---- the gate as it runs ----------------------------------------------------------------------

  /** One connection's gate. */
  class Throttle {
    const settings: Settings
    var inFlight: nat
    var waiting: seq<Id>
    var started: seq<real>

    function At(): Gate
      reads this
    {
      Gate(inFlight, waiting, started)
    }

    constructor (settings: Settings)
      ensures this.settings == settings && At() == Idle().gate
    {
      this.settings := settings;
      inFlight, waiting, started := 0, [], [];
    }

    /** Starts that are a second old are forgotten. */
    method Forget(now: real)
      modifies this`started
      ensures started == Recent(old(started), now)
    {
      hide Recent;
      var kept: seq<real> := [];
      RecentOfNone(now);
      for i := 0 to |started|
        invariant started == old(started) && kept == Recent(started[..i], now)
      {
        assert started[..i + 1] == started[..i] + [started[i]];
        RecentLast(started[..i], started[i], now);
        if now - started[i] < SECOND {
          kept := kept + [started[i]];
        }
      }
      assert started[..|started|] == started;
      started := kept;
    }

    /** How long until one more request may start. */
    method DelayNow(now: real) returns (wait: Wait)
      modifies this`started
      ensures (wait, At()) == Delay(settings, old(At()), now)
    {
      hide Recent;
      if settings.concurrency.Some? && inFlight >= settings.concurrency.value {
        return Slot;
      }
      if settings.perSecond.Some? {
        Forget(now);
        if |started| as real >= settings.perSecond.value {
          return if started == [] then NotANumber else After(started[0] + SECOND - now);
        }
      }
      return Now;
    }

    /** One turn of a request's loop: let through, parked, or told how long to wait. */
    method Turn(id: Id, asked: real, begun: real, ghost s: System) returns (wait: Wait)
      requires s.gate == At() && MayAsk(s, id, asked, begun)
      modifies this
      ensures At() == Ask(settings, s, id, asked, begun).gate && wait == Delay(settings, s.gate, asked).0
    {
      wait := DelayNow(asked);
      match wait
      case Now =>
        inFlight := inFlight + 1;
        started := started + [begun];
      case Slot => waiting := waiting + [id];
      case _ =>
    }

    /** A request settles: the first that waits for a slot is woken. */
    method Free(id: Id, ghost s: System) returns (woken: Option<Id>)
      requires s.gate == At() && id in s.running && inFlight > 0
      modifies this
      ensures At() == Finish(s, id).gate
      ensures woken == if old(waiting) == [] then None else Some(old(waiting)[0])
      ensures Finish(s, id).awake == s.awake + if woken.Some? then {woken.value} else {}
    {
      inFlight := inFlight - 1;
      woken := None;
      if waiting != [] {
        woken := Some(waiting[0]);
        waiting := waiting[1..];
      }
    }
  }
}
