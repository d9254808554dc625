/**
  `retryRequest(func, retries = 5, delay = 5000)`: call `func` until it succeeds, at most `retries`
  times, sleeping `delay` milliseconds between two attempts. `func` is given as the outcome of each
  of its calls, by call index (`Success` when it resolves, `Failure` when it throws); time is given as the trace of calls and sleeps.
 */
module Retry {
  import opened Wrappers

  const DefaultRetries: int := 5
  const DefaultDelayMs: int := 5000

  /** How `retryRequest` settles: with a value, by rethrowing, or with `undefined` when it never calls `func`. */
  datatype RetryResult<T, E> = Returned(value: T) | Threw(error: E) | ReturnedUndefined

  /** The observable steps of a run: the `attempt`-th call of `func`, or a sleep of `ms` milliseconds. */
  datatype Event = Call(attempt: nat) | Sleep(ms: int)

  /** A run's result and its trace. */
  datatype Run<T, E> = Run(result: RetryResult<T, E>, trace: seq<Event>)

  /** `n` calls of `func`, numbered from 0, with one sleep between each two. */
  function Attempts(n: nat, delayMs: int): (t: seq<Event>)
    ensures |t| == if n == 0 then 0 else 2 * n - 1
    ensures forall i :: 0 <= i < |t| ==> t[i] == if i % 2 == 0 then Call(i / 2) else Sleep(delayMs)
  {
    if n == 0 then []
    else if n == 1 then [Call(0)]
    else Attempts(n - 1, delayMs) + [Sleep(delayMs), Call(n - 1)]
  }

  /** The index of the first call below `n` that succeeds, if any. */
  function FirstSuccess<T, E>(func: nat -> Result<T, E>, n: nat): (k: Option<nat>)
    ensures k.Some? ==> k.value < n && func(k.value).Success? && forall i :: 0 <= i < k.value ==> func(i).Failure?
    ensures k.None? ==> forall i :: 0 <= i < n ==> func(i).Failure?
  {
    if n == 0 then None
    else match FirstSuccess(func, n - 1)
      case Some(k) => Some(k)
      case None => if func(n - 1).Success? then Some(n - 1) else None
  }

  /**
    What `retryRequest` does, stated without its loop: nothing when `retries <= 0`; otherwise the
    value of the first successful call among the first `retries`, or the error of the last call
    when all of them fail, with a sleep between each two calls made.
   */
  function RetrySpec<T, E>(func: nat -> Result<T, E>, retries: int, delayMs: int): Run<T, E> {
    if retries <= 0 then Run(ReturnedUndefined, [])
    else match FirstSuccess(func, retries)
      case Some(k) => Run(Returned(func(k).value), Attempts(k + 1, delayMs))
      case None => Run(Threw(func(retries - 1).error), Attempts(retries, delayMs))
  }

  /** The loop of `retryRequest`, with `try`/`catch` as a test on the outcome of each call. */
  method RetryRequest<T, E>(func: nat -> Result<T, E>, retries: int, delayMs: int)
    returns (result: RetryResult<T, E>, trace: seq<Event>)
    ensures Run(result, trace) == RetrySpec(func, retries, delayMs)
  {
    var attempt: nat := 0;
    trace := [];
    while attempt < retries
      invariant attempt == 0 || attempt < retries
      invariant forall i :: 0 <= i < attempt ==> func(i).Failure?
      invariant trace == if attempt == 0 then [] else Attempts(attempt, delayMs) + [Sleep(delayMs)]
    {
      trace := trace + [Call(attempt)];
      var outcome := func(attempt);
      if outcome.Success? {
        result := Returned(outcome.value);
        assert FirstSuccess(func, retries) == Some(attempt);
        return;
      }
      if attempt < retries - 1 {
        trace := trace + [Sleep(delayMs)];
      } else {
        result := Threw(outcome.error);
        return;
      }
      attempt := attempt + 1;
    }
    result := ReturnedUndefined;
  }

  function CallCount(t: seq<Event>): nat {
    if t == [] then 0 else CallCount(t[..|t| - 1]) + (if t[|t| - 1].Call? then 1 else 0)
  }

  function SleepCount(t: seq<Event>): nat {
    if t == [] then 0 else SleepCount(t[..|t| - 1]) + (if t[|t| - 1].Sleep? then 1 else 0)
  }

  /** `n` attempts make `n` calls and `n - 1` sleeps, and never end with a sleep. */
  lemma {:induction false} AttemptsCounts(n: nat, delayMs: int)
    ensures CallCount(Attempts(n, delayMs)) == n
    ensures SleepCount(Attempts(n, delayMs)) == if n == 0 then 0 else n - 1
    ensures n > 0 ==> Attempts(n, delayMs)[|Attempts(n, delayMs)| - 1] == Call(n - 1)
  {
    if n > 1 {
      AttemptsCounts(n - 1, delayMs);
      var prefix := Attempts(n - 1, delayMs);
      var t := Attempts(n, delayMs);
      assert t[..|t| - 1] == prefix + [Sleep(delayMs)];
      assert (prefix + [Sleep(delayMs)])[..|prefix|] == prefix;
    } else if n == 1 {
      assert Attempts(1, delayMs)[..0] == [];
    }
  }

  /**
    `k` failures followed by a success within `retries` attempts: the value of call `k` is
    returned after exactly `k + 1` calls and `k` sleeps.
   */
  lemma SuccessAfterFailures<T, E>(func: nat -> Result<T, E>, retries: int, delayMs: int, k: nat)
    requires k < retries
    requires forall i :: 0 <= i < k ==> func(i).Failure?
    requires func(k).Success?
    ensures var run := RetrySpec(func, retries, delayMs);
      && run.result == Returned(func(k).value)
      && CallCount(run.trace) == k + 1 && SleepCount(run.trace) == k
  {
    assert FirstSuccess(func, retries) == Some(k);
    AttemptsCounts(k + 1, delayMs);
  }

  /** When every one of the `retries > 0` calls fails, the last call's error is rethrown unchanged after `retries` calls and `retries - 1` sleeps. */
  lemma AllAttemptsFail<T, E>(func: nat -> Result<T, E>, retries: int, delayMs: int)
    requires retries > 0
    requires forall i :: 0 <= i < retries ==> func(i).Failure?
    ensures var run := RetrySpec(func, retries, delayMs);
      && run.result == Threw(func(retries - 1).error)
      && CallCount(run.trace) == retries && SleepCount(run.trace) == retries - 1
  {
    AttemptsCounts(retries, delayMs);
  }

  /**
    In every run `func` is called at most `retries` times, each call but the last is followed by
    exactly one sleep, and the trace never ends with a sleep.
   */
  lemma RunShape<T, E>(func: nat -> Result<T, E>, retries: int, delayMs: int)
    ensures var run := RetrySpec(func, retries, delayMs);
      && CallCount(run.trace) <= (if retries <= 0 then 0 else retries)
      && (run.trace == [] <==> retries <= 0)
      && (run.trace != [] ==>
            run.trace[|run.trace| - 1].Call? && SleepCount(run.trace) == CallCount(run.trace) - 1)
  {
    if retries > 0 {
      match FirstSuccess(func, retries)
      case Some(k) => AttemptsCounts(k + 1, delayMs);
      case None => AttemptsCounts(retries, delayMs);
    }
  }

  /** With the default arguments, `func` is called at most 5 times and waited on at most 4 times 5000 ms. */
  lemma DefaultBudget<T, E>(func: nat -> Result<T, E>)
    ensures var run := RetrySpec(func, DefaultRetries, DefaultDelayMs);
      && 1 <= CallCount(run.trace) <= 5 && SleepCount(run.trace) <= 4
      && forall e :: e in run.trace && e.Sleep? ==> e.ms == 5000
  {
    RunShape(func, DefaultRetries, DefaultDelayMs);
  }
}
