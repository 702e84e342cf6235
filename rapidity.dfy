/** The SLOW/FAST decision of TaskRapidityResolver.java. The stopwatch is not
    modelled: the time the task took is an input, in milliseconds. */
module RapidityResolver {

  datatype Rapidity = Slow | Fast

  /** `StopWatch.getTime(TimeUnit.SECONDS)`: elapsed time truncated to whole seconds. */
  function ElapsedSeconds(elapsedMillis: nat): (seconds: nat)
    ensures 1000 * seconds <= elapsedMillis < 1000 * (seconds + 1)
  {
    elapsedMillis / 1000
  }

  /** The decision `executeTask` makes after the task has run. */
  function Resolve(slowTaskLowerBoundInSeconds: int, elapsedMillis: nat): (r: Rapidity)
    ensures r == Slow <==> ElapsedSeconds(elapsedMillis) >= slowTaskLowerBoundInSeconds
  {
    if ElapsedSeconds(elapsedMillis) >= slowTaskLowerBoundInSeconds then Slow else Fast
  }

  /** The same rule without the truncation: a task is SLOW exactly when it took at
      least the bound, in milliseconds. A task shorter than `1000 * bound` ms is FAST
      even when it took more than `bound - 1` whole seconds. */
  lemma ResolveInMillis(bound: int, elapsedMillis: nat)
    ensures Resolve(bound, elapsedMillis) == Slow <==> elapsedMillis >= 1000 * bound
  {
    var q := elapsedMillis / 1000;
    assert elapsedMillis == 1000 * q + elapsedMillis % 1000;
    if q >= bound {
      assert 1000 * q >= 1000 * bound;
    } else {
      assert q + 1 <= bound;
      assert 1000 * (q + 1) <= 1000 * bound;
    }
  }

  /** With a bound of 0 seconds every task is SLOW, so no subscriber is ever promoted. */
  lemma ZeroBoundAlwaysSlow(elapsedMillis: nat)
    ensures Resolve(0, elapsedMillis) == Slow
  {
  }

  /** Taking longer never turns a SLOW task FAST. */
  lemma ResolveMonotone(bound: int, e1: nat, e2: nat)
    requires e1 <= e2 && Resolve(bound, e1) == Slow
    ensures Resolve(bound, e2) == Slow
  {
    ResolveInMillis(bound, e1);
    ResolveInMillis(bound, e2);
  }
}
