/** Polling a new sandbox until it answers: jittered back-off under a deadline. */
module Readiness {

  const INITIAL_DELAY := 0.05
  const MAX_DELAY := 1.0
  const BACKOFF := 2.0
  const MIN_JITTER := 0.8
  const MAX_JITTER := 1.2
  const REQUEST_TIMEOUT := 3.0

  /** What the k-th probe meets: would it answer ready, after how long, and the jitter drawn after it. */
  datatype Probe = Probe(ready: bool, latency: real, jitter: real) {
    predicate Valid() {
      0.0 <= latency && MIN_JITTER <= jitter <= MAX_JITTER
    }
  }

  type Environment = e: nat -> Probe | forall k :: e(k).Valid() witness (k: nat) => Probe(false, 0.0, 1.0)

  function Min(x: real, y: real): real {
    if x <= y then x else y
  }

  /** The delay before jitter that follows the k-th probe. */
  function Delay(k: nat): real {
    if k == 0 then INITIAL_DELAY else Min(MAX_DELAY, Delay(k - 1) * BACKOFF)
  }

  function PowerOfTwo(k: nat): real {
    if k == 0 then 1.0 else 2.0 * PowerOfTwo(k - 1)
  }

  /** The delay doubles from its initial value until the ceiling, and so stays between the two. */
  lemma {:induction false} DelayDoublesToTheCeiling(k: nat)
    ensures Delay(k) == Min(MAX_DELAY, INITIAL_DELAY * PowerOfTwo(k))
    ensures INITIAL_DELAY <= Delay(k) <= MAX_DELAY
  {
    if k > 0 {
      DelayDoublesToTheCeiling(k - 1);
    }
  }

  /** A request is cut off at its own timeout or at the deadline, whichever comes first. */
  function Cutoff(timeout: real, start: real): real {
    Min(REQUEST_TIMEOUT, timeout - start)
  }

  /** The sleep after a probe: the jittered delay, but never beyond the deadline. */
  function Sleep(timeout: real, at: real, delay: real, jitter: real): real {
    Min(timeout - at, delay * jitter)
  }

  lemma {:induction false} SleepBounds(timeout: real, at: real, delay: real, jitter: real)
    requires at <= timeout && INITIAL_DELAY <= delay && MIN_JITTER <= jitter
    ensures 0.0 <= Sleep(timeout, at, delay, jitter) <= timeout - at
    ensures at + Sleep(timeout, at, delay, jitter) < timeout ==> Sleep(timeout, at, delay, jitter) >= 0.04
  {
    assert (delay - INITIAL_DELAY) * jitter >= 0.0;
  }

  /** The moment the k-th probe starts, counted from the call. */
  function Start(timeout: real, env: Environment, k: nat): real
    decreases k, 0
  {
    if k == 0 then 0.0
    else
      var answered := Answered(timeout, env, k - 1);
      answered + Sleep(timeout, answered, Delay(k - 1), env(k - 1).jitter)
  }

  /** The moment the k-th probe is answered or cut off. */
  function Answered(timeout: real, env: Environment, k: nat): real
    decreases k, 1
  {
    var start := Start(timeout, env, k);
    start + Min(env(k).latency, Cutoff(timeout, start))
  }

  /** The k-th probe starts before the deadline and finds the sandbox ready in time. */
  predicate Succeeds(timeout: real, env: Environment, k: nat) {
    var start := Start(timeout, env, k);
    start < timeout && env(k).ready && env(k).latency <= Cutoff(timeout, start)
  }

  /** Time runs forward, and by at least 0.04 s from probe to probe, until it reaches the deadline. */
  lemma {:induction false} StartAdvances(timeout: real, env: Environment, k: nat)
    requires 0.0 < timeout
    ensures 0.0 <= Start(timeout, env, k) <= Answered(timeout, env, k) <= timeout
    ensures Start(timeout, env, k) < timeout ==> 0.04 * (k as real) <= Start(timeout, env, k)
  {
    if k > 0 {
      StartAdvances(timeout, env, k - 1);
      StepAdvances(timeout, env, k - 1);
    }
  }

  lemma {:induction false} StepAdvances(timeout: real, env: Environment, k: nat)
    requires Start(timeout, env, k) <= Answered(timeout, env, k) <= timeout
    ensures Answered(timeout, env, k) <= Start(timeout, env, k + 1) <= timeout
    ensures Start(timeout, env, k + 1) < timeout ==> Start(timeout, env, k + 1) >= Start(timeout, env, k) + 0.04
  {
    DelayDoublesToTheCeiling(k);
    Unfold(timeout, env, k);
    SleepBounds(timeout, Answered(timeout, env, k), Delay(k), env(k).jitter);
    hide Start, Answered, Delay, Sleep;
  }

  lemma {:induction false} Unfold(timeout: real, env: Environment, k: nat)
    ensures Answered(timeout, env, k)
      == Start(timeout, env, k) + Min(env(k).latency, Min(REQUEST_TIMEOUT, timeout - Start(timeout, env, k)))
    ensures Start(timeout, env, k + 1)
      == Answered(timeout, env, k) + Sleep(timeout, Answered(timeout, env, k), Delay(k), env(k).jitter)
    ensures Delay(k + 1) == Min(MAX_DELAY, Delay(k) * BACKOFF)
    ensures Succeeds(timeout, env, k) <==>
      && Start(timeout, env, k) < timeout
      && env(k).ready && env(k).latency <= Min(REQUEST_TIMEOUT, timeout - Start(timeout, env, k))
  {
    hide Sleep;
  }

  // ---- How soon ---------------------------------------------------------------------------------------

  /** A probe that is due before the deadline starts then, and no other starts before the deadline. */
  lemma {:induction false} StartsWhenDue(timeout: real, env: Environment, k: nat)
    requires 0.0 < timeout
    ensures
      var due := Answered(timeout, env, k) + env(k).jitter * Delay(k);
      Start(timeout, env, k + 1) == if due < timeout then due else timeout
  {
    Unfold(timeout, env, k);
    assert Delay(k) * env(k).jitter == env(k).jitter * Delay(k);
    hide Start, Answered, Delay;
  }

  /** An answer that comes within 3 s and before the deadline is waited for; any other probe is cut off then. */
  lemma {:induction false} AnsweredWhenItComes(timeout: real, env: Environment, k: nat)
    requires 0.0 < timeout
    ensures
      var start, came := Start(timeout, env, k), Start(timeout, env, k) + env(k).latency;
      && (env(k).latency <= 3.0 && came <= timeout ==> Answered(timeout, env, k) == came)
      && (env(k).latency > 3.0 && start + 3.0 <= timeout ==> Answered(timeout, env, k) == start + 3.0)
      && (came > timeout && start + 3.0 > timeout ==> Answered(timeout, env, k) == timeout)
      && (Succeeds(timeout, env, k) <==> start < timeout && env(k).ready && env(k).latency <= 3.0 && came <= timeout)
  {
    Unfold(timeout, env, k);
    hide Start, Answered, Delay;
  }

  lemma {:induction false} AnsweredSoon(timeout: real, env: Environment, k: nat)
    requires 0.0 < timeout
    ensures Answered(timeout, env, k) <= Start(timeout, env, k) + 3.0
  {
    Unfold(timeout, env, k);
    hide Start, Answered, Delay;
  }

  lemma {:induction false} ProbedAgainSoon(timeout: real, env: Environment, k: nat)
    requires 0.0 < timeout
    ensures Start(timeout, env, k + 1) <= Answered(timeout, env, k) + 1.2
  {
    StartsWhenDue(timeout, env, k);
    DelayDoublesToTheCeiling(k);
    JitteredAtMost(Delay(k), env(k).jitter);
    hide Start, Answered, Delay;
  }

  /** Probes start at most 4.2 s apart. */
  lemma {:induction false} StartsAreClose(timeout: real, env: Environment, k: nat)
    requires 0.0 < timeout
    ensures Start(timeout, env, k + 1) <= Start(timeout, env, k) + 4.2
  {
    AnsweredSoon(timeout, env, k);
    ProbedAgainSoon(timeout, env, k);
    hide Start, Answered, Delay;
  }

  lemma {:induction false} StartsBy(timeout: real, env: Environment, k: nat)
    requires 0.0 < timeout
    ensures Start(timeout, env, k) <= 4.2 * (k as real)
  {
    if k > 0 {
      StartsBy(timeout, env, k - 1);
      StartsAreClose(timeout, env, k - 1);
    }
    hide Answered, Delay, Sleep;
  }

  lemma {:induction false} JitteredAtMost(delay: real, jitter: real)
    requires 0.0 <= delay <= MAX_DELAY && 0.0 <= jitter <= MAX_JITTER
    ensures jitter * delay <= 1.2
  {
    assert (MAX_JITTER - jitter) * delay >= 0.0 && (MAX_JITTER - jitter) * delay == MAX_JITTER * delay - jitter * delay;
  }

  /** Every probe that starts from the moment on would answer ready, within x seconds. */
  ghost predicate ReadyFrom(timeout: real, env: Environment, moment: real, x: real) {
    forall k :: Start(timeout, env, k) >= moment ==> env(k).ready && env(k).latency <= x
  }

  /** Some probe is the first to start from the moment on. */
  lemma {:induction false} FirstStartFrom(timeout: real, env: Environment, moment: real, n: nat) returns (k: nat)
    requires 0.0 < timeout && Start(timeout, env, n) >= moment
    ensures k <= n && Start(timeout, env, k) >= moment
    ensures k > 0 ==> Start(timeout, env, k - 1) < moment
    decreases n
  {
    if n > 0 && Start(timeout, env, n - 1) >= moment {
      k := FirstStartFrom(timeout, env, moment, n - 1);
    } else {
      k := n;
    }
  }

  /** A sandbox that is ready from a moment on is found so within 4.2 s and its latency, if the deadline is later. */
  lemma {:induction false} FoundSoon(timeout: real, env: Environment, moment: real, x: real) returns (k: nat)
    requires 0.0 <= moment && 0.0 <= x <= 3.0 && moment + 4.2 + x <= timeout && ReadyFrom(timeout, env, moment, x)
    ensures Succeeds(timeout, env, k) && Answered(timeout, env, k) <= moment + 4.2 + x
  {
    var n := StartsLate(timeout, env, moment);
    k := FirstStartFrom(timeout, env, moment, n);
    AnsweredWhenItComes(timeout, env, k);
    StartsSoonAfter(timeout, env, moment, k);
    hide Start, Answered, Succeeds;
  }

  lemma {:induction false} StartsLate(timeout: real, env: Environment, moment: real) returns (n: nat)
    requires 0.0 <= moment < timeout
    ensures Start(timeout, env, n) >= moment
  {
    n := (25.0 * timeout).Floor + 1;
    StartAdvances(timeout, env, n);
    hide Start, Answered;
  }

  lemma {:induction false} StartsSoonAfter(timeout: real, env: Environment, moment: real, k: nat)
    requires 0.0 < timeout && 0.0 <= moment && (k > 0 ==> Start(timeout, env, k - 1) < moment)
    ensures Start(timeout, env, k) < moment + 4.2
  {
    if k > 0 {
      StartsAreClose(timeout, env, k - 1);
    }
    hide Answered, Delay, Sleep;
  }

  lemma {:induction false} AnsweredInOrder(timeout: real, env: Environment, i: nat, j: nat)
    requires 0.0 < timeout && i <= j
    ensures Answered(timeout, env, i) <= Answered(timeout, env, j)
    decreases j
  {
    if i < j {
      AnsweredInOrder(timeout, env, i, j - 1);
      StartAdvances(timeout, env, j - 1);
      StepAdvances(timeout, env, j - 1);
      StartAdvances(timeout, env, j);
      hide Start, Answered;
    }
  }

  /** The promise of the wait, for a sandbox that is ready from any moment on. */
  ghost predicate InGoodTime(timeout: real, env: Environment, ready: bool, elapsed: real) {
    forall moment: real, x: real ::
      0.0 <= moment && 0.0 <= x <= 3.0 && moment + 4.2 + x <= timeout && ReadyFrom(timeout, env, moment, x) ==>
        ready && elapsed <= moment + 4.2 + x
  }

  lemma {:induction false} FirstIsInGoodTime(timeout: real, env: Environment, first: nat)
    requires 0.0 < timeout && forall k :: 0 <= k < first ==> !Succeeds(timeout, env, k)
    ensures InGoodTime(timeout, env, true, Answered(timeout, env, first))
  {
    forall moment: real, x: real |
      0.0 <= moment && 0.0 <= x <= 3.0 && moment + 4.2 + x <= timeout && ReadyFrom(timeout, env, moment, x)
      ensures Answered(timeout, env, first) <= moment + 4.2 + x
    {
      var k := FoundSoon(timeout, env, moment, x);
      AnsweredInOrder(timeout, env, first, k);
    }
    hide Answered, Succeeds, ReadyFrom;
  }

  lemma {:induction false} NeverReadyInTime(timeout: real, env: Environment, elapsed: real)
    requires forall k :: !Succeeds(timeout, env, k)
    ensures InGoodTime(timeout, env, false, elapsed)
  {
    forall moment: real, x: real |
      0.0 <= moment && 0.0 <= x <= 3.0 && moment + 4.2 + x <= timeout && ReadyFrom(timeout, env, moment, x)
      ensures false
    {
      var k := FoundSoon(timeout, env, moment, x);
    }
    hide Succeeds, ReadyFrom;
  }

  /**
   Ready is reported at the first probe that succeeds, and failure only at the deadline: never later,
   never sooner.  Whatever the latencies and the jitter, at most timeout / 0.04 probes, rounded up, are made,
   and at least timeout / 4.2 before failure is reported.  A sandbox that is ready from a moment on is found so
   within 4.2 s and its latency.
   */
  method WaitForSandboxReady(timeout: real, env: Environment) returns (ready: bool, probes: nat, elapsed: real)
    ensures ready <==> exists k :: Succeeds(timeout, env, k)
    ensures ready ==> probes >= 1 && Succeeds(timeout, env, probes - 1) && elapsed == Answered(timeout, env, probes - 1)
    ensures forall k :: 0 <= k < probes - 1 ==> !Succeeds(timeout, env, k)
    ensures ready ==> elapsed <= timeout
    ensures !ready ==> elapsed == if timeout > 0.0 then timeout else 0.0
    ensures probes > 0 ==> 0.04 * ((probes - 1) as real) < timeout
    ensures !ready ==> timeout <= 4.2 * (probes as real) || timeout <= 0.0
    ensures InGoodTime(timeout, env, ready, elapsed)
  {
    var delay := INITIAL_DELAY;
    ready, probes, elapsed := false, 0, 0.0;
    hide InGoodTime;
    while true
      invariant elapsed == Start(timeout, env, probes) && delay == Delay(probes)
      invariant timeout <= 0.0 ==> probes == 0
      invariant elapsed <= timeout || probes == 0
      invariant probes > 0 ==> 0.04 * ((probes - 1) as real) < timeout
      invariant forall k :: 0 <= k < probes ==> !Succeeds(timeout, env, k)
      decreases if elapsed < timeout then (25.0 * timeout).Floor + 2 - probes else 0
    {
      if timeout - elapsed <= 0.0 {
        FailsInTime(timeout, env, probes, elapsed);
        return;
      }
      StartAdvances(timeout, env, probes);
      StepAdvances(timeout, env, probes);
      StartAdvances(timeout, env, probes + 1);
      Unfold(timeout, env, probes);
      hide Start, Answered, Delay, Succeeds, Sleep;
      var probe := env(probes);
      var cutoff := Min(REQUEST_TIMEOUT, timeout - elapsed);
      var succeeded := probe.ready && probe.latency <= cutoff;
      elapsed := elapsed + Min(probe.latency, cutoff);
      probes := probes + 1;
      if succeeded {
        FirstIsInGoodTime(timeout, env, probes - 1);
        ready := true;
        return;
      }
      if timeout - elapsed <= 0.0 {
        FailsInTime(timeout, env, probes, elapsed);
        return;
      }
      elapsed := elapsed + Sleep(timeout, elapsed, delay, probe.jitter);
      delay := Min(MAX_DELAY, delay * BACKOFF);
      FloorBound(timeout, probes, elapsed);
    }
  }

  /** Failure is reported once the deadline is reached and no probe before has succeeded. */
  lemma {:induction false} FailsInTime(timeout: real, env: Environment, probes: nat, elapsed: real)
    requires timeout <= 0.0 || Start(timeout, env, probes) >= timeout
    requires forall k :: 0 <= k < probes ==> !Succeeds(timeout, env, k)
    ensures forall k :: !Succeeds(timeout, env, k)
    ensures timeout <= 4.2 * (probes as real) || timeout <= 0.0
    ensures InGoodTime(timeout, env, false, elapsed)
  {
    NothingSucceedsLater(timeout, env, probes);
    if timeout > 0.0 {
      StartsBy(timeout, env, probes);
    }
    hide Succeeds, Start;
    NeverReadyInTime(timeout, env, elapsed);
  }

  lemma {:induction false} FloorBound(timeout: real, probes: nat, elapsed: real)
    requires elapsed <= timeout
    requires elapsed < timeout ==> 0.04 * (probes as real) <= elapsed
    ensures elapsed < timeout ==> probes <= (25.0 * timeout).Floor
  {
  }

  /** Once the deadline is reached no probe starts any more. */
  lemma {:induction false} NothingSucceedsLater(timeout: real, env: Environment, from: nat)
    requires timeout <= 0.0 || Start(timeout, env, from) >= timeout
    ensures forall k :: from <= k ==> !Succeeds(timeout, env, k)
  {
    forall k | from <= k ensures !Succeeds(timeout, env, k) {
      if timeout <= 0.0 {
        NoTimeNoStart(timeout, env, k);
      } else {
        StaysAtDeadline(timeout, env, from, k);
      }
    }
  }

  lemma {:induction false} StaysAtDeadline(timeout: real, env: Environment, from: nat, k: nat)
    requires 0.0 < timeout && from <= k && Start(timeout, env, from) >= timeout
    ensures Start(timeout, env, k) >= timeout
    decreases k - from
  {
    if from < k {
      StaysAtDeadline(timeout, env, from, k - 1);
      StartAdvances(timeout, env, k - 1);
      StepAdvances(timeout, env, k - 1);
    }
  }

  lemma {:induction false} NoTimeNoStart(timeout: real, env: Environment, k: nat)
    requires timeout <= 0.0
    ensures Start(timeout, env, k) >= timeout
    ensures Answered(timeout, env, k) == timeout
  {
    if k > 0 {
      NoTimeNoStart(timeout, env, k - 1);
      Unfold(timeout, env, k - 1);
      DelayDoublesToTheCeiling(k - 1);
      SleepBounds(timeout, timeout, Delay(k - 1), env(k - 1).jitter);
    }
  }
}
