/**
 * The `backoff` retry loop of `dagster._utils.backoff`.
 *
 * The wrapped callable is seen through its outcomes: `attempt(k)` is what the
 * k-th call (counting from 0) does. The delay generator is seen through the
 * values it yields: `delay(k)` is the k-th value drawn from it during this call.
 * Sleeping is recorded, not performed: `sleeps` lists the delays slept, in order.
 */
module RetryBackoff {
  import opened Optional

  /** `BACKOFF_MAX_RETRIES`, the default for `max_retries`. */
  const BackoffMaxRetries: int := 4

  /** What one call of the wrapped callable does. */
  datatype Outcome<T, E> =
    | Success(value: T)
    | RetryableError(error: E)  // an exception of a class in `retry_on`
    | OtherError(error: E)      // any other exception

  /** How `backoff` ends: it returns a value or raises an exception. */
  datatype Ending<T, E> = Returned(value: T) | Raised(error: E)

  /** How many calls `backoff` may make: the first one and at most `maxRetries` retries. */
  function Budget(maxRetries: int): (n: nat)
    ensures n >= 1 && n - 1 <= if maxRetries > 0 then maxRetries else 0
  {
    if maxRetries > 0 then maxRetries + 1 else 1
  }

  /** How a call's outcome ends `backoff` when it is the last call. */
  function Conclude<T, E>(outcome: Outcome<T, E>): Ending<T, E> {
    match outcome
    case Success(v) => Returned(v)
    case RetryableError(e) => Raised(e)
    case OtherError(e) => Raised(e)
  }

  /** The number of calls in `[lo, hi)` that raised a retryable exception. */
  function CountRetryable<T, E>(attempt: nat -> Outcome<T, E>, lo: nat, hi: nat): nat
    decreases hi
  {
    if hi <= lo then 0
    else CountRetryable(attempt, lo, hi - 1) + (if attempt(hi - 1).RetryableError? then 1 else 0)
  }

  /**
   * The specification of one run of `backoff`: `calls` calls were made, every
   * call but the last raised a retryable exception, the last one either
   * exhausted the budget or did not raise a retryable exception, the run ends
   * as the last call did, one delay was drawn and slept before each retry, and
   * `retries` is the number of retries that raised a retryable exception.
   */
  ghost predicate IsBackoffRun<T, E, D>(
    attempt: nat -> Outcome<T, E>, delay: nat -> D, maxRetries: int,
    result: Ending<T, E>, calls: nat, sleeps: seq<D>, retries: nat)
  {
    && 1 <= calls <= Budget(maxRetries)
    && (forall k | 0 <= k < calls - 1 :: attempt(k).RetryableError?)
    && (calls < Budget(maxRetries) ==> !attempt(calls - 1).RetryableError?)
    && result == Conclude(attempt(calls - 1))
    && |sleeps| == calls - 1
    && (forall k | 0 <= k < |sleeps| :: sleeps[k] == delay(k))
    && retries == CountRetryable(attempt, 1, calls)
  }

  /** `backoff(fn, retry_on, max_retries=maxRetries, delay_generator=...)`. */
  method Backoff<T, E, D>(attempt: nat -> Outcome<T, E>, delay: nat -> D, maxRetries: int)
    returns (result: Ending<T, E>, calls: nat, sleeps: seq<D>, retries: nat)
    ensures IsBackoffRun(attempt, delay, maxRetries, result, calls, sleeps, retries)
  {
    retries := 0;
    var toRaise: Option<E> := None;
    sleeps := [];
    var drawn: nat := 0;  // how many values the delay generator has yielded

    var first := attempt(0);
    calls := 1;
    if !first.RetryableError? {
      return Conclude(first), calls, sleeps, retries;
    }
    toRaise := Some(first.error);

    while retries < maxRetries
      invariant calls == retries + 1 && drawn == retries && |sleeps| == retries
      invariant retries == 0 || retries <= maxRetries
      invariant forall k | 0 <= k < |sleeps| :: sleeps[k] == delay(k)
      invariant forall k | 0 <= k < calls :: attempt(k).RetryableError?
      invariant toRaise == Some(attempt(calls - 1).error)
      invariant retries == CountRetryable(attempt, 1, calls)
      decreases maxRetries - retries
    {
      sleeps := sleeps + [delay(drawn)];
      drawn := drawn + 1;
      var outcome := attempt(calls);
      calls := calls + 1;
      if !outcome.RetryableError? {
        return Conclude(outcome), calls, sleeps, retries;
      }
      retries := retries + 1;
      toRaise := Some(outcome.error);
    }
    // `raise to_raise` always raises an exception: `to_raise` is never None here.
    result := Raised(toRaise.value);
  }

  /** The values yielded by `backoff_delay_generator`: 0.1, then doubling (as exact reals). */
  function DefaultDelay(k: nat): (d: real)
    ensures d >= 0.1
  {
    if k == 0 then 0.1 else 2.0 * DefaultDelay(k - 1)
  }

  // ---------------------------------------------------------------------------
  // Properties of a run.
  // ---------------------------------------------------------------------------

  /** The specification determines the run: any two runs that meet it agree. */
  lemma BackoffRunIsUnique<T, E, D>(
    attempt: nat -> Outcome<T, E>, delay: nat -> D, maxRetries: int,
    result1: Ending<T, E>, calls1: nat, sleeps1: seq<D>, retries1: nat,
    result2: Ending<T, E>, calls2: nat, sleeps2: seq<D>, retries2: nat)
    requires IsBackoffRun(attempt, delay, maxRetries, result1, calls1, sleeps1, retries1)
    requires IsBackoffRun(attempt, delay, maxRetries, result2, calls2, sleeps2, retries2)
    ensures result1 == result2 && calls1 == calls2 && sleeps1 == sleeps2 && retries1 == retries2
  {
  }

  /** The callable is called at most `max_retries + 1` times, and exactly once when `max_retries <= 0`. */
  lemma CallsBounded<T, E, D>(
    attempt: nat -> Outcome<T, E>, delay: nat -> D, maxRetries: int,
    result: Ending<T, E>, calls: nat, sleeps: seq<D>, retries: nat)
    requires IsBackoffRun(attempt, delay, maxRetries, result, calls, sleeps, retries)
    ensures maxRetries >= 0 ==> calls <= maxRetries + 1
    ensures maxRetries <= 0 ==> calls == 1
  {
  }

  /** A first call that succeeds is returned at once, with no sleep and no retry. */
  lemma FirstSuccessReturnsAtOnce<T, E, D>(
    attempt: nat -> Outcome<T, E>, delay: nat -> D, maxRetries: int,
    result: Ending<T, E>, calls: nat, sleeps: seq<D>, retries: nat)
    requires IsBackoffRun(attempt, delay, maxRetries, result, calls, sleeps, retries)
    requires attempt(0).Success?
    ensures result == Returned(attempt(0).value) && calls == 1 && sleeps == [] && retries == 0
  {
  }

  /** A run returns exactly when some call within the budget succeeds after only retryable failures, and returns that call's value. */
  lemma ReturnsFirstSuccess<T, E, D>(
    attempt: nat -> Outcome<T, E>, delay: nat -> D, maxRetries: int,
    result: Ending<T, E>, calls: nat, sleeps: seq<D>, retries: nat, k: nat)
    requires IsBackoffRun(attempt, delay, maxRetries, result, calls, sleeps, retries)
    requires k < Budget(maxRetries) && attempt(k).Success?
    requires forall j | 0 <= j < k :: attempt(j).RetryableError?
    ensures calls == k + 1 && result == Returned(attempt(k).value)
  {
  }

  /** A returned value is that of the last call, which succeeded after only retryable failures. */
  lemma ReturnedValueIsFromSuccess<T, E, D>(
    attempt: nat -> Outcome<T, E>, delay: nat -> D, maxRetries: int,
    result: Ending<T, E>, calls: nat, sleeps: seq<D>, retries: nat)
    requires IsBackoffRun(attempt, delay, maxRetries, result, calls, sleeps, retries)
    requires result.Returned?
    ensures attempt(calls - 1) == Success(result.value)
    ensures forall j | 0 <= j < calls - 1 :: !attempt(j).Success?
  {
  }

  /** An exception outside `retry_on` propagates at once: no call follows it. */
  lemma OtherErrorPropagates<T, E, D>(
    attempt: nat -> Outcome<T, E>, delay: nat -> D, maxRetries: int,
    result: Ending<T, E>, calls: nat, sleeps: seq<D>, retries: nat, k: nat)
    requires IsBackoffRun(attempt, delay, maxRetries, result, calls, sleeps, retries)
    requires k < Budget(maxRetries) && attempt(k).OtherError?
    requires forall j | 0 <= j < k :: attempt(j).RetryableError?
    ensures calls == k + 1 && result == Raised(attempt(k).error)
  {
  }

  /** When every call within the budget raises a retryable exception, the last one is raised. */
  lemma ExhaustionRaisesLast<T, E, D>(
    attempt: nat -> Outcome<T, E>, delay: nat -> D, maxRetries: int,
    result: Ending<T, E>, calls: nat, sleeps: seq<D>, retries: nat)
    requires IsBackoffRun(attempt, delay, maxRetries, result, calls, sleeps, retries)
    requires forall j | 0 <= j < Budget(maxRetries) :: attempt(j).RetryableError?
    ensures calls == Budget(maxRetries)
    ensures result == Raised(attempt(Budget(maxRetries) - 1).error)
    ensures |sleeps| == Budget(maxRetries) - 1
  {
  }

  /** In a range of retryable failures, every call is counted. */
  lemma {:induction false} CountAllRetryable<T, E>(attempt: nat -> Outcome<T, E>, lo: nat, hi: nat)
    requires lo <= hi
    requires forall j | lo <= j < hi :: attempt(j).RetryableError?
    ensures CountRetryable(attempt, lo, hi) == hi - lo
  {
    if lo < hi {
      CountAllRetryable(attempt, lo, hi - 1);
    }
  }

  /**
   * `retries` counts the failed retries only: all retries when the budget is
   * exhausted, all but the last one otherwise; it never exceeds `max_retries`.
   */
  lemma RetriesCountFailedRetries<T, E, D>(
    attempt: nat -> Outcome<T, E>, delay: nat -> D, maxRetries: int,
    result: Ending<T, E>, calls: nat, sleeps: seq<D>, retries: nat)
    requires IsBackoffRun(attempt, delay, maxRetries, result, calls, sleeps, retries)
    ensures attempt(calls - 1).RetryableError? ==> retries == calls - 1
    ensures !attempt(calls - 1).RetryableError? && calls > 1 ==> retries == calls - 2
    ensures retries == 0 || retries <= maxRetries
  {
    if calls > 1 {
      CountAllRetryable(attempt, 1, calls - 1);
    }
  }

  /** Default delays never decrease from one draw to the next. */
  lemma {:induction false} DefaultDelayIncreases(j: nat, k: nat)
    requires j <= k
    ensures DefaultDelay(j) <= DefaultDelay(k)
  {
    if j < k {
      DefaultDelayIncreases(j, k - 1);
    }
  }
}
