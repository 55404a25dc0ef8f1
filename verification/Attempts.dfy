/** Retry: a call tried again while its endings say so, and the one try that stands. */
module Retrying {
  import opened Json

  /** One try's ending: what it answered, or threw, and the nested run it attached if it ran a graph. */
  datatype Ending =
    | Answered(out: Json, sub: Option<Json>)
    | Threw(message: string, refusal: bool, sub: Option<Json>)

  /** Which answer is tried again: the rule as written, and as compiled. */
  datatype Condition = Condition(text: string, holds: Json -> bool)

  /** What a site says of its call: how many more tries, the wait before them, and which answer is tried again. */
  datatype Policy = Policy(times: nat, backoffMs: nat, again: Option<Condition>)

  datatype Attempt = Attempt(error: string, sub: Option<Json>)

  /**
   * What the tries meet: how each ends, whether the run's signal had fired when it did, and whether the wait after
   * it ran out before the signal fired.
   */
  datatype Tries = Tries(ending: nat -> Ending, aborted: nat -> bool, waited: nat -> bool)

  /** The longest a timer can be set for. */
  const TIMER_MAX_MS := 2147483647

  function Doubled(n: nat): (p: nat)
    ensures p >= 1
  {
    if n == 0 then 1 else 2 * Doubled(n - 1)
  }

  /** The wait after a try, from 0: doubled for each before, and never past what a timer can wait. */
  function WaitBefore(policy: Policy, attempt: nat): nat {
    var wait := policy.backoffMs * Doubled(attempt);
    if wait < TIMER_MAX_MS then wait else TIMER_MAX_MS
  }

  /** Why an ending is tried again, or nothing when it stands. */
  function AgainBecause(ending: Ending, policy: Policy): Option<string> {
    match ending
    case Threw(message, refusal, _) => if refusal then None else Some(message)
    case Answered(out, _) =>
      if policy.again.None? || !(out.Obj? || out.Arr?) then None
      else if policy.again.value.holds(out) then Some("answer retried: " + policy.again.value.text)
      else None
  }

  /** A try is followed by another: one remains, the signal had not fired, its ending asks for it, and the wait ran out. */
  predicate GoesOn(policy: Policy, tries: Tries, n: nat) {
    n < policy.times && !tries.aborted(n) && AgainBecause(tries.ending(n), policy).Some? &&
    (WaitBefore(policy, n) == 0 || tries.waited(n))
  }

  /** The try that stands: the first that is not followed by another. */
  ghost predicate Stands(policy: Policy, tries: Tries, n: nat) {
    !GoesOn(policy, tries, n) && forall i :: 0 <= i < n ==> GoesOn(policy, tries, i)
  }

  /** What a try that did not stand leaves on its node's report. */
  ghost predicate Recorded(policy: Policy, tries: Tries, attempts: seq<Attempt>) {
    forall i :: 0 <= i < |attempts| ==>
      AgainBecause(tries.ending(i), policy) == Some(attempts[i].error) && attempts[i].sub == tries.ending(i).sub
  }

  /**
   * The loop: try, and while the ending is one to try again, wait, record it and try once more. At most one call more
   * than the site's tries is made; every call but the last is recorded, with why it was tried again and the run it
   * attached; the last ending, and the run it attached alone, are the node's.
   */
  method Tried(policy: Policy, tries: Tries)
      returns (calls: nat, attempts: seq<Attempt>, waits: seq<nat>, ending: Ending, attached: Option<Json>)
    ensures 1 <= calls <= policy.times + 1 && Stands(policy, tries, calls - 1)
    ensures |attempts| == calls - 1 && Recorded(policy, tries, attempts)
    ensures |waits| == calls - 1 && forall i :: 0 <= i < |waits| ==> waits[i] == WaitBefore(policy, i)
    ensures ending == tries.ending(calls - 1) && attached == ending.sub
  {
    var attempt: nat := 0;
    attempts, waits := [], [];
    while true
      invariant attempt <= policy.times && |attempts| == attempt && |waits| == attempt
      invariant forall i :: 0 <= i < attempt ==> GoesOn(policy, tries, i)
      invariant Recorded(policy, tries, attempts)
      invariant forall i :: 0 <= i < |waits| ==> waits[i] == WaitBefore(policy, i)
      decreases policy.times - attempt
    {
      ending := tries.ending(attempt);
      var why := if attempt < policy.times && !tries.aborted(attempt) then AgainBecause(ending, policy) else None;
      if why.None? {
        break;
      }
      var wait := WaitBefore(policy, attempt);
      if wait > 0 && !tries.waited(attempt) {
        break;
      }
      attempts := attempts + [Attempt(why.value, ending.sub)];
      waits := waits + [wait];
      attempt := attempt + 1;
    }
    calls, attached := attempt + 1, ending.sub;
  }

  /** Of the tries there were, a refusal is the last: the graph decided, and it is never asked again. */
  lemma RefusalStands(policy: Policy, tries: Tries, last: nat, n: nat)
    requires Stands(policy, tries, last) && n <= last && tries.ending(n).Threw? && tries.ending(n).refusal
    ensures n == last
  {
    assert n < last ==> GoesOn(policy, tries, n);
  }

  /** Once the run's signal has fired, the try that ended then is the last: a cancelled node is not tried again. */
  lemma AbortedStands(policy: Policy, tries: Tries, last: nat, n: nat)
    requires Stands(policy, tries, last) && n <= last && tries.aborted(n)
    ensures n == last
  {
    assert n < last ==> GoesOn(policy, tries, n);
  }

  /** Exactly one try stands, whatever the endings. */
  lemma OneStands(policy: Policy, tries: Tries, one: nat, other: nat)
    requires Stands(policy, tries, one) && Stands(policy, tries, other)
    ensures one == other
  {
    assert one < other ==> GoesOn(policy, tries, one);
    assert other < one ==> GoesOn(policy, tries, other);
  }

  /** The waits never shorten, and none is longer than a timer can wait: the doubling stops there rather than wrap. */
  lemma WaitsGrow(policy: Policy, n: nat, m: nat)
    requires n <= m
    ensures WaitBefore(policy, n) <= WaitBefore(policy, m) <= TIMER_MAX_MS
    decreases m - n
  {
    if n < m {
      WaitsGrow(policy, n, m - 1);
      assert Doubled(m) == 2 * Doubled(m - 1);
      assert policy.backoffMs * Doubled(m - 1) <= policy.backoffMs * (2 * Doubled(m - 1));
    }
  }

  /** A try that another follows, said of how it ended and of what the site says. */
  predicate TriedAgain(policy: Policy, tries: Tries, n: nat) {
    n < policy.times && !tries.aborted(n) && (WaitBefore(policy, n) > 0 ==> tries.waited(n)) &&
    match tries.ending(n)
    case Threw(_, refusal, _) => !refusal
    case Answered(out, _) =>
      (out.Obj? || out.Arr?) && match policy.again { case None => false case Some(condition) => condition.holds(out) }
  }

  /**
   * Which try stands: the first that is the last there may be, or ended once the signal had fired, or was a refusal, or an
   * answer the site's condition does not accept, or whose wait was cut short. Every other throw is tried again.
   */
  lemma StandsExactly(policy: Policy, tries: Tries, last: nat)
    ensures Stands(policy, tries, last) <==>
      !TriedAgain(policy, tries, last) && forall n :: 0 <= n < last ==> TriedAgain(policy, tries, n)
    ensures forall n: nat :: TriedAgain(policy, tries, n) ==>
      AgainBecause(tries.ending(n), policy) == Some(
        if tries.ending(n).Threw? then tries.ending(n).message else "answer retried: " + policy.again.value.text)
  {
    forall n: nat ensures GoesOn(policy, tries, n) <==> TriedAgain(policy, tries, n) {}
  }

  /** Each wait is the one before doubled, from the site's own, and none is longer than the longest a timer can be set for. */
  lemma WaitsDouble(policy: Policy, n: nat)
    ensures WaitBefore(policy, 0) == if policy.backoffMs < 2147483647 then policy.backoffMs else 2147483647
    ensures WaitBefore(policy, n + 1) == if 2 * WaitBefore(policy, n) < 2147483647 then 2 * WaitBefore(policy, n) else 2147483647
  {
    assert Doubled(n + 1) == 2 * Doubled(n);
    assert policy.backoffMs * (2 * Doubled(n)) == 2 * (policy.backoffMs * Doubled(n));
  }
}
