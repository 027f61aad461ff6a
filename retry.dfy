/**
 * The retry combinator of the Cloudflare client: error classification,
 * capped exponential backoff, and the bounded retry loop. The wrapped call
 * and the context-aware sleep are oracles indexed by attempt number.
 */
module Retry {
  import opened Wrappers

  /**
   * The errors the classification can tell apart: the two context errors, a
   * `net.Error` with its `Timeout()` answer, any other error, and an error
   * wrapped with `%w` around another.
   */
  datatype Error =
    | Canceled
    | DeadlineExceeded
    | NetError(timeout: bool)
    | Plain(msg: string)
    | Wrapped(context: string, inner: Error)

  /** `errors.Is(err, target)` for a context error: the target occurs in the wrap chain. */
  predicate ChainHas(err: Error, target: Error)
    requires target == Canceled || target == DeadlineExceeded
  {
    err == target || (err.Wrapped? && ChainHas(err.inner, target))
  }

  /**
   * `errors.As(err, &netErr)` followed by `netErr.Timeout()`: the answer of the
   * first `net.Error` in the chain. `context.DeadlineExceeded` implements
   * `net.Error` with `Timeout() == true`.
   */
  function NetTimeout(err: Error): Option<bool>
  {
    match err
    case NetError(t) => Some(t)
    case DeadlineExceeded => Some(true)
    case Wrapped(_, inner) => NetTimeout(inner)
    case _ => None
  }

  /** `isRetryableError`: only a transport timeout that is not a context error is retried. */
  predicate IsRetryableError(err: Option<Error>)
  {
    if err.None? then false
    else if ChainHas(err.value, Canceled) || ChainHas(err.value, DeadlineExceeded) then false
    else NetTimeout(err.value) == Some(true)
  }

  /** The innermost error of a wrap chain. */
  function Root(err: Error): Error
  {
    if err.Wrapped? then Root(err.inner) else err
  }

  /**
   * The classification depends only on the innermost error: it is retryable
   * exactly when that error is a `net.Error` reporting a timeout.
   */
  lemma {:induction false} RetryableIffTimeoutRoot(err: Error)
    ensures IsRetryableError(Some(err)) <==> Root(err) == NetError(true)
  {
    if err.Wrapped? {
      RetryableIffTimeoutRoot(err.inner);
    }
  }

  /** Nil, cancellation and deadline errors, and non-network errors are never retried. */
  lemma NeverRetried(msg: string)
    ensures !IsRetryableError(None)
    ensures !IsRetryableError(Some(Canceled))
    ensures !IsRetryableError(Some(DeadlineExceeded))
    ensures !IsRetryableError(Some(Plain(msg)))
    ensures !IsRetryableError(Some(NetError(false)))
    ensures IsRetryableError(Some(NetError(true)))
  {
  }

  function Pow2(n: nat): (r: nat)
    ensures r >= 1
  {
    if n == 0 then 1 else 2 * Pow2(n - 1)
  }

  /** `minDelay * 2^n`, written as repeated doubling. */
  function Backoff(minDelay: int, n: nat): int
  {
    if n == 0 then minDelay else 2 * Backoff(minDelay, n - 1)
  }

  /** The doubling is the product of the source's shift: `minDelay * (1 << n)`. */
  lemma {:induction false} BackoffIsProduct(minDelay: int, n: nat)
    ensures Backoff(minDelay, n) == minDelay * Pow2(n)
  {
    if n > 0 {
      BackoffIsProduct(minDelay, n - 1);
      assert minDelay * Pow2(n) == 2 * (minDelay * Pow2(n - 1));
    }
  }

  /** `retryDelay`: `min(minDelay * 2^max(attempt, 0), maxDelay)`, with unbounded integers. */
  function RetryDelay(attempt: int, minDelay: int, maxDelay: int): (d: int)
    ensures d <= maxDelay
  {
    var a := if attempt < 0 then 0 else attempt;
    var backoff := Backoff(minDelay, a);
    if backoff > maxDelay then maxDelay else backoff
  }

  /** With a non-negative base the doubling never shrinks. */
  lemma {:induction false} BackoffMonotone(minDelay: int, a: nat, b: nat)
    requires a <= b && minDelay >= 0
    ensures 0 <= Backoff(minDelay, a) <= Backoff(minDelay, b)
  {
    if a < b {
      BackoffMonotone(minDelay, a, b - 1);
    } else if a > 0 {
      BackoffMonotone(minDelay, a - 1, a - 1);
    }
  }

  /** With a non-negative base delay the backoff never shrinks from one attempt to a later one. */
  lemma RetryDelayMonotone(a: int, b: int, minDelay: int, maxDelay: int)
    requires a <= b && minDelay >= 0
    ensures RetryDelay(a, minDelay, maxDelay) <= RetryDelay(b, minDelay, maxDelay)
  {
    BackoffMonotone(minDelay, if a < 0 then 0 else a, if b < 0 then 0 else b);
  }

  /** Each further attempt doubles the delay until the cap is reached. */
  lemma RetryDelayDoubles(a: nat, minDelay: int, maxDelay: int)
    requires minDelay >= 0 && maxDelay >= 0
    ensures RetryDelay(a + 1, minDelay, maxDelay) ==
      (if 2 * RetryDelay(a, minDelay, maxDelay) > maxDelay then maxDelay else 2 * RetryDelay(a, minDelay, maxDelay))
  {
  }

  /** `retryConfig`. */
  datatype RetryConfig = RetryConfig(maxRetries: int, minDelay: int, maxDelay: int)

  /** `cfRetryConfig`: one retry, 500 ms initial delay, 5 s cap (in milliseconds). */
  const DefaultRetryConfig := RetryConfig(1, 500, 5000)

  /** One answer of the wrapped call. */
  datatype Attempt<T> = Success(value: T) | Failure(error: Error)

  /**
   * What `withRetry` returns: the call's value, an error, or -- when the
   * loop never runs because `maxRetries` is negative -- the zero value with a nil error.
   */
  datatype Outcome<T> = Returned(value: T) | Failed(error: Error) | ZeroNil

  /** The outcome with the number of calls made and the delay passed to each sleep, in order. */
  datatype Trace<T> = Trace(outcome: Outcome<T>, calls: nat, delays: seq<int>)

  /** The retry loop from attempt `attempt` on, with `fn(k)` and `sleep(k)` answering attempt `k`. */
  function RunFrom<T>(cfg: RetryConfig, fn: nat -> Attempt<T>, sleep: nat -> Option<Error>, attempt: nat): Trace<T>
    requires attempt <= cfg.maxRetries
    decreases cfg.maxRetries - attempt
  {
    match fn(attempt)
    case Success(v) => Trace(Returned(v), 1, [])
    case Failure(e) =>
      if !IsRetryableError(Some(e)) || attempt == cfg.maxRetries then Trace(Failed(e), 1, [])
      else
        var d := RetryDelay(attempt, cfg.minDelay, cfg.maxDelay);
        match sleep(attempt)
        case Some(se) => Trace(Failed(se), 1, [d])
        case None =>
          var rest := RunFrom(cfg, fn, sleep, attempt + 1);
          Trace(rest.outcome, rest.calls + 1, [d] + rest.delays)
  }

  /** The whole of `withRetry`. */
  function Run<T>(cfg: RetryConfig, fn: nat -> Attempt<T>, sleep: nat -> Option<Error>): Trace<T>
  {
    if cfg.maxRetries < 0 then Trace(ZeroNil, 0, []) else RunFrom(cfg, fn, sleep, 0)
  }

  /** A trace `t` preceded by `calls` calls and the sleeps `delays`. */
  function After<T>(calls: nat, delays: seq<int>, t: Trace<T>): Trace<T>
  {
    Trace(t.outcome, calls + t.calls, delays + t.delays)
  }

  /** A retried attempt contributes one call and one sleep before the rest of the loop. */
  lemma RunFromStep<T>(cfg: RetryConfig, fn: nat -> Attempt<T>, sleep: nat -> Option<Error>, a: nat,
                       calls: nat, delays: seq<int>)
    requires a < cfg.maxRetries && fn(a).Failure? && IsRetryableError(Some(fn(a).error)) && sleep(a).None?
    ensures After(calls, delays, RunFrom(cfg, fn, sleep, a))
      == After(calls + 1, delays + [RetryDelay(a, cfg.minDelay, cfg.maxDelay)], RunFrom(cfg, fn, sleep, a + 1))
  {
    var rest := RunFrom(cfg, fn, sleep, a + 1).delays;
    assert delays + ([RetryDelay(a, cfg.minDelay, cfg.maxDelay)] + rest)
      == (delays + [RetryDelay(a, cfg.minDelay, cfg.maxDelay)]) + rest;
  }

  /** The traces of attempt `a` when it ends the loop: a success, a final or permanent error, or a failed sleep. */
  lemma RunFromStop<T>(cfg: RetryConfig, fn: nat -> Attempt<T>, sleep: nat -> Option<Error>, a: nat,
                       calls: nat, delays: seq<int>)
    requires a <= cfg.maxRetries
    ensures fn(a).Success? ==>
      After(calls, delays, RunFrom(cfg, fn, sleep, a)) == Trace(Returned(fn(a).value), calls + 1, delays)
    ensures fn(a).Failure? && (!IsRetryableError(Some(fn(a).error)) || a == cfg.maxRetries) ==>
      After(calls, delays, RunFrom(cfg, fn, sleep, a)) == Trace(Failed(fn(a).error), calls + 1, delays)
    ensures fn(a).Failure? && IsRetryableError(Some(fn(a).error)) && a < cfg.maxRetries && sleep(a).Some? ==>
      After(calls, delays, RunFrom(cfg, fn, sleep, a))
        == Trace(Failed(sleep(a).value), calls + 1, delays + [RetryDelay(a, cfg.minDelay, cfg.maxDelay)])
  {
    assert delays + [] == delays;
  }

  /**
   * `withRetry`: calls `fn` until it succeeds, fails with an error that is not
   * retryable, or has been called `maxRetries + 1` times, sleeping between
   * attempts; a failed sleep ends the loop with the sleep's error.
   */
  method WithRetry<T>(cfg: RetryConfig, fn: nat -> Attempt<T>, sleep: nat -> Option<Error>)
    returns (outcome: Outcome<T>, calls: nat, delays: seq<int>)
    ensures Trace(outcome, calls, delays) == Run(cfg, fn, sleep)
  {
    calls, delays := 0, [];
    var attempt: nat := 0;
    if 0 <= cfg.maxRetries {
      assert [] + RunFrom(cfg, fn, sleep, 0).delays == RunFrom(cfg, fn, sleep, 0).delays;
    }
    while attempt <= cfg.maxRetries
      invariant attempt == 0 || attempt <= cfg.maxRetries
      invariant calls == attempt && |delays| == attempt
      invariant attempt <= cfg.maxRetries ==> Run(cfg, fn, sleep) == After(calls, delays, RunFrom(cfg, fn, sleep, attempt))
      decreases cfg.maxRetries - attempt
    {
      var result := fn(attempt);
      RunFromStop(cfg, fn, sleep, attempt, calls, delays);
      if result.Success? {
        return Returned(result.value), calls + 1, delays;
      }
      if !IsRetryableError(Some(result.error)) || attempt == cfg.maxRetries {
        return Failed(result.error), calls + 1, delays;
      }
      var delay := RetryDelay(attempt, cfg.minDelay, cfg.maxDelay);
      var sleepErr := sleep(attempt);
      if sleepErr.Some? {
        return Failed(sleepErr.value), calls + 1, delays + [delay];
      }
      RunFromStep(cfg, fn, sleep, attempt, calls, delays);
      calls := calls + 1;
      delays := delays + [delay];
      attempt := attempt + 1;
    }
    // The body returns on its last attempt, so the loop only falls through
    // when it never ran: Go's `return zero, err` with `err == nil`.
    outcome := ZeroNil;
  }

  /**
   * Calls from attempt `a` on: at most `maxRetries - a + 1` of them; the k-th
   * sleep uses `RetryDelay(a + k)`; a sleep follows every call but possibly the
   * last; and a returned error is the last call's error or the last sleep's.
   */
  lemma {:induction false} RunFromShape<T>(cfg: RetryConfig, fn: nat -> Attempt<T>, sleep: nat -> Option<Error>, a: nat)
    requires a <= cfg.maxRetries
    decreases cfg.maxRetries - a
    ensures var t := RunFrom(cfg, fn, sleep, a);
      && 1 <= t.calls <= cfg.maxRetries - a + 1
      && (|t.delays| == t.calls - 1 || |t.delays| == t.calls)
      && (forall k :: 0 <= k < |t.delays| ==> t.delays[k] == RetryDelay(a + k, cfg.minDelay, cfg.maxDelay))
      && (t.outcome.Returned? ==> |t.delays| == t.calls - 1 && fn(a + t.calls - 1) == Success(t.outcome.value))
      && (t.outcome.Failed? ==>
            (|t.delays| == t.calls - 1 && fn(a + t.calls - 1) == Failure(t.outcome.error))
            || (|t.delays| == t.calls && sleep(a + t.calls - 1) == Some(t.outcome.error)))
      && !t.outcome.ZeroNil?
  {
    match fn(a)
    case Success(v) =>
    case Failure(e) =>
      if IsRetryableError(Some(e)) && a != cfg.maxRetries && sleep(a).None? {
        RunFromShape(cfg, fn, sleep, a + 1);
        var rest := RunFrom(cfg, fn, sleep, a + 1);
        var d := RetryDelay(a, cfg.minDelay, cfg.maxDelay);
        assert RunFrom(cfg, fn, sleep, a).delays == [d] + rest.delays;
      }
  }

  /**
   * `withRetry` calls `fn` at most `maxRetries + 1` times, the k-th sleep uses
   * `RetryDelay(k)`, sleeps happen only between attempts, and the error it
   * returns is unchanged from the last call or the sleep.
   */
  lemma RunShape<T>(cfg: RetryConfig, fn: nat -> Attempt<T>, sleep: nat -> Option<Error>)
    ensures var t := Run(cfg, fn, sleep);
      && t.calls <= (if cfg.maxRetries < 0 then 0 else cfg.maxRetries + 1)
      && (forall k :: 0 <= k < |t.delays| ==> t.delays[k] == RetryDelay(k, cfg.minDelay, cfg.maxDelay))
      && (t.outcome.Returned? ==> |t.delays| == t.calls - 1 && fn(t.calls - 1) == Success(t.outcome.value))
      && (t.outcome.Failed? ==>
            (|t.delays| == t.calls - 1 && fn(t.calls - 1) == Failure(t.outcome.error))
            || (|t.delays| == t.calls && sleep(t.calls - 1) == Some(t.outcome.error)))
      && (t.outcome.ZeroNil? <==> cfg.maxRetries < 0)
  {
    if cfg.maxRetries >= 0 {
      RunFromShape(cfg, fn, sleep, 0);
    }
  }

  /** The first success ends the loop with that value. */
  lemma FirstSuccessReturned<T>(cfg: RetryConfig, fn: nat -> Attempt<T>, sleep: nat -> Option<Error>)
    requires cfg.maxRetries >= 0 && fn(0).Success?
    ensures Run(cfg, fn, sleep) == Trace(Returned(fn(0).value), 1, [])
  {
  }

  /** A permanent error ends the loop after one call and no sleep, whatever `maxRetries` is. */
  lemma PermanentErrorNotRetried<T>(cfg: RetryConfig, fn: nat -> Attempt<T>, sleep: nat -> Option<Error>)
    requires cfg.maxRetries >= 0 && fn(0).Failure? && !IsRetryableError(Some(fn(0).error))
    ensures Run(cfg, fn, sleep) == Trace(Failed(fn(0).error), 1, [])
  {
  }

  /** With `maxRetries = 2`, two timeouts followed by a success take three calls and return the success. */
  lemma TimeoutTwiceThenSuccess<T>(cfg: RetryConfig, fn: nat -> Attempt<T>, sleep: nat -> Option<Error>, v: T)
    requires cfg.maxRetries == 2
    requires fn(0) == Failure(NetError(true)) && fn(1) == Failure(NetError(true)) && fn(2) == Success(v)
    requires sleep(0) == None && sleep(1) == None
    ensures Run(cfg, fn, sleep).outcome == Returned(v) && Run(cfg, fn, sleep).calls == 3
  {
    assert IsRetryableError(Some(NetError(true)));
    assert RunFrom(cfg, fn, sleep, 2) == Trace(Returned(v), 1, []);
    RunFromStep(cfg, fn, sleep, 1, 0, []);
    RunFromStep(cfg, fn, sleep, 0, 0, []);
  }

  /** A cancelled context ends the loop at the first sleep, after one call, with `context.Canceled`. */
  lemma CancelledDuringBackoff<T>(cfg: RetryConfig, fn: nat -> Attempt<T>, sleep: nat -> Option<Error>)
    requires cfg.maxRetries >= 1 && fn(0) == Failure(NetError(true)) && sleep(0) == Some(Canceled)
    ensures Run(cfg, fn, sleep).outcome == Failed(Canceled) && Run(cfg, fn, sleep).calls == 1
  {
  }
}
