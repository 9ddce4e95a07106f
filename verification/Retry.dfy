/** `with_backoff`: bounded retries with capped exponential backoff and full jitter. */
module Retry {
  import opened Random

  /** What a call of the function comes to: a value, an error worth retrying, or another error. */
  datatype Attempt<T, E> = Returned(value: T) | Retryable(error: E) | Fatal(error: E)

  /** What the whole comes to. `time.sleep` refuses a negative time with a ValueError; with no
      attempt at all the closing assertion fails. */
  datatype Outcome<T, E> = Value(value: T) | Raised(error: E) | SleepRefused | AssertionFailed

  function Power2(n: nat): (r: real)
    ensures r >= 1.0
  {
    if n == 0 then 1.0 else 2.0 * Power2(n - 1)
  }

  function Least(a: real, b: real): real {
    if b < a then b else a
  }

  /** The longest sleep after attempt `n`. */
  function Delay(n: nat, base: real, max: real): real {
    Least(max, Part(base, Power2(n)))
  }

  /** The sleeps slept between the calls, in order, each a fresh draw. */
  predicate Jittered(sleeps: seq<real>, jitter: Stream, base: real, max: real) {
    forall k :: 0 <= k < |sleeps| ==> sleeps[k] == UniformOf(jitter(k), 0.0, Delay(k, base, max))
  }

  /** After `n` calls the retries are over: all but the last failed retryably, and so did the last
      only when no attempt is left. */
  predicate Over<T, E>(fn: nat -> Attempt<T, E>, attempts: nat, n: nat) {
    && 1 <= n <= attempts
    && (forall i: nat :: i < n - 1 ==> fn(i).Retryable?)
    && (fn(n - 1).Retryable? ==> n == attempts)
  }

  lemma SleepRange(u: Unit, n: nat, base: real, max: real)
    requires 0.0 <= base && 0.0 <= max
    ensures 0.0 <= UniformOf(u, 0.0, Delay(n, base, max)) <= Delay(n, base, max)
  {
    Product(base, Power2(n));
    UniformRange(u, 0.0, Delay(n, base, max));
  }

  /** Calls `fn`, whose i-th call comes to `fn(i)`, until it returns, fails for good, or the attempts
      are used up. */
  method WithBackoff<T, E>(fn: nat -> Attempt<T, E>, jitter: Stream, attempts: int, base: real, max: real)
    returns (r: Outcome<T, E>, calls: nat, sleeps: seq<real>)
    ensures r.AssertionFailed? <==> attempts <= 0
    ensures r.AssertionFailed? ==> calls == 0 && sleeps == []
    ensures r.SleepRefused? ==> (base < 0.0 || max < 0.0) && 1 <= calls < attempts
    ensures r.SleepRefused? ==> forall i: nat :: i < calls ==> fn(i).Retryable?
    ensures r.Value? || r.Raised? ==>
              && attempts >= 1 && Over(fn, attempts, calls)
              && r == (if fn(calls - 1).Returned? then Value(fn(calls - 1).value) else Raised(fn(calls - 1).error))
    ensures attempts >= 1 ==> |sleeps| == calls - 1
    ensures Jittered(sleeps, jitter, base, max)
    ensures forall k :: 0 <= k < |sleeps| ==> sleeps[k] >= 0.0
  {
    calls, sleeps := 0, [];
    r := AssertionFailed;
    var attempt := 0;
    while attempt < attempts
      invariant calls == attempt == |sleeps| && (attempts <= 0 ==> attempt == 0) && (attempts >= 1 ==> attempt < attempts)
      invariant forall i: nat :: i < attempt ==> fn(i).Retryable?
      invariant Jittered(sleeps, jitter, base, max) && forall k :: 0 <= k < |sleeps| ==> sleeps[k] >= 0.0
    {
      var outcome := fn(calls);
      calls := calls + 1;
      if !outcome.Retryable? {
        return if outcome.Returned? then Value(outcome.value) else Raised(outcome.error), calls, sleeps;
      }
      if attempt == attempts - 1 {
        return Raised(outcome.error), calls, sleeps;
      }
      var sleep := UniformOf(jitter(attempt), 0.0, Delay(attempt, base, max));
      if sleep < 0.0 {
        if base >= 0.0 && max >= 0.0 { SleepRange(jitter(attempt), attempt, base, max); }
        return SleepRefused, calls, sleeps;
      }
      sleeps := sleeps + [sleep];
      attempt := attempt + 1;
    }
  }

  /** The delay starts at the base and doubles with every attempt until the cap, where it stays. */
  lemma DelayDoubles(n: nat, base: real, max: real)
    requires 0.0 <= base && 0.0 <= max
    ensures Delay(0, base, max) == if max < base then max else base
    ensures Delay(n + 1, base, max) == if max < 2.0 * Delay(n, base, max) then max else 2.0 * Delay(n, base, max)
  {
    var d := Power2(n);
    assert Power2(n + 1) == 2.0 * d;
    assert Part(base, 2.0 * d) == 2.0 * Part(base, d);
    assert Power2(0) == 1.0 && Part(base, 1.0) == base;
  }

  /** A sleep is the drawn share of the delay, from nothing up to all of it. */
  lemma SleepIsShare(u: Unit, n: nat, base: real, max: real)
    ensures UniformOf(u, 0.0, Delay(n, base, max)) == u * Delay(n, base, max)
  {
  }

  /** With at least one attempt the retries are over after exactly one number of calls. */
  lemma {:induction false} OverOnce<T, E>(fn: nat -> Attempt<T, E>, attempts: nat, k: nat) returns (n: nat)
    requires k < attempts && forall i: nat :: i < k ==> fn(i).Retryable?
    ensures Over(fn, attempts, n) && forall m: nat :: Over(fn, attempts, m) ==> m == n
    decreases attempts - k
  {
    if k == attempts - 1 || !fn(k).Retryable? {
      n := k + 1;
    } else {
      n := OverOnce(fn, attempts, k + 1);
    }
  }

  // ---------------------------------------------------------------------------
  // The time slept
  // ---------------------------------------------------------------------------

  function Sum(xs: seq<real>): real {
    if xs == [] then 0.0 else Sum(xs[..|xs| - 1]) + xs[|xs| - 1]
  }

  lemma Doubling(base: real, n: nat)
    ensures Part(base, Power2(n) - 1.0) + Part(base, Power2(n)) == Part(base, Power2(n + 1) - 1.0)
  {
    var d := Power2(n);
    assert Power2(n + 1) == 2.0 * d;
    assert base * (d - 1.0) == base * d - base && base * (2.0 * d - 1.0) == 2.0 * (base * d) - base;
  }

  lemma OneMore(max: real, n: nat)
    ensures Part(max, n as real) + max == Part(max, (n + 1) as real)
  {
    assert max * (n as real + 1.0) == max * n as real + max;
  }

  lemma {:induction false} SleptSoFar(sleeps: seq<real>, jitter: Stream, base: real, max: real)
    requires 0.0 <= base && 0.0 <= max && Jittered(sleeps, jitter, base, max)
    ensures 0.0 <= Sum(sleeps) <= Part(max, |sleeps| as real)
    ensures Sum(sleeps) <= Part(base, Power2(|sleeps|) - 1.0)
  {
    assert Part(max, 0.0) == 0.0 && Part(base, Power2(0) - 1.0) == 0.0;
    hide Part, UniformOf, Power2;
    if sleeps != [] {
      var n := |sleeps| - 1;
      SleptSoFar(sleeps[..n], jitter, base, max);
      SleepRange(jitter(n), n, base, max);
      Doubling(base, n);
      OneMore(max, n);
      assert sleeps[n] == UniformOf(jitter(n), 0.0, Delay(n, base, max));
    }
  }

  lemma {:induction false} Power2Grows(m: nat, n: nat)
    requires m <= n
    ensures Power2(m) <= Power2(n)
    decreases n
  {
    if m < n {
      Power2Grows(m, n - 1);
    }
  }

  /** Whatever the outcomes and the jitter, the total time slept is at most every cap reached, and
      at most the uncapped delays added up. */
  lemma TotalSleep(sleeps: seq<real>, jitter: Stream, attempts: nat, base: real, max: real)
    requires 0.0 <= base && 0.0 <= max && Jittered(sleeps, jitter, base, max) && |sleeps| <= attempts - 1
    ensures 0.0 <= Sum(sleeps)
    ensures Sum(sleeps) <= Least(Part(max, (attempts - 1) as real), Part(base, Power2(attempts - 1) - 1.0))
  {
    SleptSoFar(sleeps, jitter, base, max);
    PartMonotone(max, |sleeps| as real, (attempts - 1) as real);
    Power2Grows(|sleeps|, attempts - 1);
    PartMonotone(base, Power2(|sleeps|) - 1.0, Power2(attempts - 1) - 1.0);
  }
}
