/**
 * Retry classification, capped exponential backoff, the retry attempt loop,
 * the token-bucket rate limiter and the (connect, read) timeout pair.
 * Clocks and sleeps are parameters or logged events; delays are `real`.
 */
module Reliability {
  import opened Text

  /** The exceptions the HTTP layer can raise, plus everything else. */
  datatype Error =
    | ConnectionError
    | Timeout
    | ChunkedEncodingError
    | HttpError(status: Option<int>, retryAfter: Option<string>)  // status None: no response attached
    | OtherRequestError                                          // any other requests exception
    | OtherError(message: string)                                // not an HTTP-layer exception

  /** Python's own exceptions, raised where the code reads a value of the wrong shape. */
  const AttributeError := OtherError("AttributeError")
  const TypeError := OtherError("TypeError")
  const KeyError := OtherError("KeyError")
  const ValueError := OtherError("ValueError")

  /** The exception classes a configuration can list as retriable. */
  datatype ErrorClass = ConnectionClass | TimeoutClass | ChunkedClass | HttpClass | OtherRequestClass | OtherClass

  function ClassOf(e: Error): ErrorClass {
    match e
    case ConnectionError => ConnectionClass
    case Timeout => TimeoutClass
    case ChunkedEncodingError => ChunkedClass
    case HttpError(_, _) => HttpClass
    case OtherRequestError => OtherRequestClass
    case OtherError(_) => OtherClass
  }

  /** Whether the HTTP layer raised it (an instance of `RequestException`). */
  predicate IsRequestException(e: Error) { !e.OtherError? }

  datatype RetryConfig = RetryConfig(
    maxAttempts: int,
    baseDelay: real,
    maxDelay: real,
    exponentialBase: real,
    retriableStatusCodes: set<int>,
    retriableExceptions: set<ErrorClass>)

  const DefaultStatusCodes: set<int> := {429, 500, 502, 503, 504}

  /** `RetryConfig()` with every field at its default. */
  const DefaultRetryConfig: RetryConfig :=
    RetryConfig(3, 1.0, 60.0, 2.0, DefaultStatusCodes, {ConnectionClass, TimeoutClass, ChunkedClass})

  /** `is_retriable_error`: a listed exception class, or an HTTP error whose
      response carries a listed status. */
  predicate IsRetriableError(e: Error, config: RetryConfig) {
    ClassOf(e) in config.retriableExceptions
    || (e.HttpError? && e.status.Some? && e.status.value in config.retriableStatusCodes)
  }

  /** Under the default configuration exactly the transport failures and the
      five transient statuses are retried. */
  lemma DefaultRetriable(e: Error)
    ensures IsRetriableError(e, DefaultRetryConfig) <==>
      (e.ConnectionError? || e.Timeout? || e.ChunkedEncodingError?
       || (e.HttpError? && e.status.Some? && e.status.value in {429, 500, 502, 503, 504}))
  {
  }

  /** `b ** n` for a whole exponent. */
  function Pow(b: real, n: nat): real {
    if n == 0 then 1.0 else b * Pow(b, n - 1)
  }

  lemma {:induction false} PowAtLeastOne(b: real, n: nat)
    requires b >= 1.0
    ensures Pow(b, n) >= 1.0
  {
    if n > 0 {
      PowAtLeastOne(b, n - 1);
    }
  }

  lemma {:induction false} PowMonotone(b: real, m: nat, n: nat)
    requires b >= 1.0 && m <= n
    ensures Pow(b, m) <= Pow(b, n)
    decreases n
  {
    if m < n {
      PowMonotone(b, m, n - 1);
      PowAtLeastOne(b, n - 1);
      assert Pow(b, n) == b * Pow(b, n - 1);
      assert b * Pow(b, n - 1) >= Pow(b, n - 1);
    }
  }

  /** `calculate_backoff`: the delay before retry number `attempt` (1-based). */
  function CalculateBackoff(attempt: int, config: RetryConfig): (r: real)
    requires attempt >= 1
    ensures r <= config.maxDelay
    ensures r == config.maxDelay || r == config.baseDelay * Pow(config.exponentialBase, attempt - 1)
  {
    RealMin(config.baseDelay * Pow(config.exponentialBase, attempt - 1), config.maxDelay)
  }

  /** With a growth factor of at least one, later retries never wait less. */
  lemma BackoffMonotone(a: int, b: int, config: RetryConfig)
    requires 1 <= a <= b
    requires config.exponentialBase >= 1.0 && config.baseDelay >= 0.0
    ensures CalculateBackoff(a, config) <= CalculateBackoff(b, config)
  {
    PowMonotone(config.exponentialBase, a - 1, b - 1);
    var pa := Pow(config.exponentialBase, a - 1);
    var pb := Pow(config.exponentialBase, b - 1);
    assert config.baseDelay * pa <= config.baseDelay * pb by {
      assert config.baseDelay * (pb - pa) >= 0.0;
    }
  }

  /** The default schedule: 1, 2, 4 seconds, capped at a minute. */
  lemma DefaultBackoffs()
    ensures CalculateBackoff(1, DefaultRetryConfig) == 1.0
    ensures CalculateBackoff(2, DefaultRetryConfig) == 2.0
    ensures CalculateBackoff(3, DefaultRetryConfig) == 4.0
    ensures CalculateBackoff(8, DefaultRetryConfig) == 60.0
  {
    assert Pow(2.0, 7) == 128.0;
  }

  // ---------------------------------------------------------------------
  // The retry decorator's attempt loop
  // ---------------------------------------------------------------------

  datatype Outcome<T> = Ok(value: T) | Raised(error: Error)

  /** What the wrapper does, in order: calls the wrapped function, calls the
      `on_retry` hook, sleeps. */
  datatype RetryEvent = Call(attempt: int) | OnRetry(error: Error, attempt: int) | Sleep(seconds: real)

  const LoopExitMessage := "Unexpected retry loop exit"

  /** The run of the wrapper from attempt `attempt` on, when the wrapped
      function's `k`-th call produces `call(k)`. */
  function RetryFrom<T>(config: RetryConfig, call: int -> Outcome<T>, hook: bool, attempt: int): (Outcome<T>, seq<RetryEvent>)
    requires attempt >= 1
    decreases config.maxAttempts - attempt
  {
    if attempt > config.maxAttempts then (Raised(OtherError(LoopExitMessage)), [])
    else
      match call(attempt)
      case Ok(v) => (Ok(v), [Call(attempt)])
      case Raised(e) =>
        if !IsRetriableError(e, config) || attempt >= config.maxAttempts then (Raised(e), [Call(attempt)])
        else
          var rest := RetryFrom(config, call, hook, attempt + 1);
          var pause := [Sleep(CalculateBackoff(attempt, config))];
          (rest.0, [Call(attempt)] + (if hook then [OnRetry(e, attempt)] else []) + pause + rest.1)
  }

  /** The wrapper produced by `with_retry(...)`, applied to a function whose
      successive outcomes are `call(1), call(2), ...`. */
  method WithRetry<T>(config: RetryConfig, call: int -> Outcome<T>, hook: bool)
    returns (r: Outcome<T>, events: seq<RetryEvent>)
    ensures (r, events) == RetryFrom(config, call, hook, 1)
  {
    events := [];
    var attempt := 1;
    while attempt <= config.maxAttempts
      invariant 1 <= attempt
      invariant RetryFrom(config, call, hook, 1).1 == events + RetryFrom(config, call, hook, attempt).1
      invariant RetryFrom(config, call, hook, 1).0 == RetryFrom(config, call, hook, attempt).0
      decreases config.maxAttempts - attempt
    {
      var outcome := call(attempt);
      events := events + [Call(attempt)];
      if outcome.Ok? {
        r := outcome;
        return;
      }
      var e := outcome.error;
      if !IsRetriableError(e, config) || attempt >= config.maxAttempts {
        r := Raised(e);
        return;
      }
      var delay := CalculateBackoff(attempt, config);
      if hook {
        events := events + [OnRetry(e, attempt)];
      }
      ghost var rest := RetryFrom(config, call, hook, attempt + 1);
      assert RetryFrom(config, call, hook, attempt).1
        == [Call(attempt)] + (if hook then [OnRetry(e, attempt)] else []) + [Sleep(delay)] + rest.1;
      events := events + [Sleep(delay)];
      attempt := attempt + 1;
    }
    assert RetryFrom(config, call, hook, attempt).1 == [];
    assert events + [] == events;
    r := Raised(OtherError(LoopExitMessage));
  }

  function CallCount(events: seq<RetryEvent>): nat {
    if events == [] then 0 else (if events[0].Call? then 1 else 0) + CallCount(events[1..])
  }

  lemma {:induction false} CallCountAppend(a: seq<RetryEvent>, b: seq<RetryEvent>)
    ensures CallCount(a + b) == CallCount(a) + CallCount(b)
  {
    if a != [] {
      assert (a + b)[0] == a[0];
      assert (a + b)[1..] == a[1..] + b;
      CallCountAppend(a[1..], b);
    } else {
      assert a + b == b;
    }
  }

  /** One failed attempt that is retried contributes exactly one call. */
  lemma CallCountOfPause(attempt: int, e: Error, hook: bool, delay: real)
    ensures CallCount([Call(attempt)] + (if hook then [OnRetry(e, attempt)] else []) + [Sleep(delay)]) == 1
  {
    var pre := [Call(attempt)] + (if hook then [OnRetry(e, attempt)] else []) + [Sleep(delay)];
    var tail := (if hook then [OnRetry(e, attempt)] else []) + [Sleep(delay)];
    assert pre[0] == Call(attempt) && pre[1..] == tail;
    assert CallCount([Sleep(delay)]) == 0 by { assert [Sleep(delay)][1..] == []; }
    if hook {
      assert tail[0] == OnRetry(e, attempt) && tail[1..] == [Sleep(delay)];
    } else {
      assert tail == [Sleep(delay)];
    }
    assert CallCount(tail) == 0;
  }

  /** The wrapped function is called at most `max_attempts` times (counting
      from the current attempt), and never when `max_attempts < 1`. */
  lemma {:induction false} RetryCallsBounded<T>(config: RetryConfig, call: int -> Outcome<T>, hook: bool, attempt: int)
    requires attempt >= 1
    ensures CallCount(RetryFrom(config, call, hook, attempt).1) <= if config.maxAttempts >= attempt then config.maxAttempts - attempt + 1 else 0
    decreases config.maxAttempts - attempt
  {
    if attempt <= config.maxAttempts {
      var o := call(attempt);
      if o.Raised? && IsRetriableError(o.error, config) && attempt < config.maxAttempts {
        RetryCallsBounded(config, call, hook, attempt + 1);
        var rest := RetryFrom(config, call, hook, attempt + 1);
        var pre := [Call(attempt)] + (if hook then [OnRetry(o.error, attempt)] else []) + [Sleep(CalculateBackoff(attempt, config))];
        CallCountAppend(pre, rest.1);
        CallCountOfPause(attempt, o.error, hook, CalculateBackoff(attempt, config));
      } else {
        assert CallCount([Call(attempt)]) == 1 by { assert [Call(attempt)][1..] == []; }
      }
    }
  }

  /** A non-retriable failure of the first call propagates after one call. */
  lemma NonRetriablePropagates<T>(config: RetryConfig, call: int -> Outcome<T>, hook: bool)
    requires config.maxAttempts >= 1
    requires call(1).Raised? && !IsRetriableError(call(1).error, config)
    ensures RetryFrom(config, call, hook, 1) == (Raised(call(1).error), [Call(1)])
  {
  }

  /** When every call fails retriably, all `max_attempts` calls are made and
      the last call's error is re-raised. */
  lemma {:induction false} ExhaustedReraisesLast<T>(config: RetryConfig, call: int -> Outcome<T>, hook: bool, attempt: int)
    requires 1 <= attempt <= config.maxAttempts
    requires forall k :: attempt <= k <= config.maxAttempts ==> call(k).Raised? && IsRetriableError(call(k).error, config)
    ensures RetryFrom(config, call, hook, attempt).0 == Raised(call(config.maxAttempts).error)
    ensures CallCount(RetryFrom(config, call, hook, attempt).1) == config.maxAttempts - attempt + 1
    decreases config.maxAttempts - attempt
  {
    var o := call(attempt);
    if attempt < config.maxAttempts {
      ExhaustedReraisesLast(config, call, hook, attempt + 1);
      var rest := RetryFrom(config, call, hook, attempt + 1);
      var pre := [Call(attempt)] + (if hook then [OnRetry(o.error, attempt)] else []) + [Sleep(CalculateBackoff(attempt, config))];
      CallCountAppend(pre, rest.1);
      CallCountOfPause(attempt, o.error, hook, CalculateBackoff(attempt, config));
    } else {
      assert CallCount([Call(attempt)]) == 1 by { assert [Call(attempt)][1..] == []; }
    }
  }

  /** Every sleep in `ev` comes right after an `on_retry` call that names
      the same attempt as the call before it. */
  predicate HookPrecedesSleeps(ev: seq<RetryEvent>) {
    forall i :: 0 <= i < |ev| && ev[i].Sleep? ==>
      i >= 2 && ev[i - 1].OnRetry? && ev[i - 2].Call? && ev[i - 1].attempt == ev[i - 2].attempt
  }

  /** With the hook installed, `on_retry` runs once per retry, before its sleep. */
  lemma {:induction false} HookBeforeEachSleep<T>(config: RetryConfig, call: int -> Outcome<T>, attempt: int)
    requires attempt >= 1
    ensures HookPrecedesSleeps(RetryFrom(config, call, true, attempt).1)
    decreases config.maxAttempts - attempt
  {
    if attempt <= config.maxAttempts {
      var o := call(attempt);
      if o.Raised? && IsRetriableError(o.error, config) && attempt < config.maxAttempts {
        HookBeforeEachSleep(config, call, attempt + 1);
        var rest := RetryFrom(config, call, true, attempt + 1).1;
        var pre := [Call(attempt), OnRetry(o.error, attempt), Sleep(CalculateBackoff(attempt, config))];
        var ev := RetryFrom(config, call, true, attempt).1;
        assert ev == pre + rest;
        forall i | 0 <= i < |ev| && ev[i].Sleep?
          ensures i >= 2 && ev[i - 1].OnRetry? && ev[i - 2].Call? && ev[i - 1].attempt == ev[i - 2].attempt
        {
          if i >= 3 {
            assert ev[i] == rest[i - 3];
            assert rest[i - 3].Sleep?;
            assert i - 3 >= 2;
            assert ev[i - 1] == rest[i - 4] && ev[i - 2] == rest[i - 5];
          }
        }
      } else {
        assert RetryFrom(config, call, true, attempt).1 == [Call(attempt)];
      }
    }
  }

  // ---------------------------------------------------------------------
  // Token bucket
  // ---------------------------------------------------------------------

  /** `int(x)` on a real: truncation toward zero. */
  function TruncToInt(x: real): (r: int)
    ensures x >= 0.0 ==> r as real <= x < r as real + 1.0
    ensures x < 0.0 ==> r as real - 1.0 < x <= r as real
  {
    if x >= 0.0 then x.Floor else -((-x).Floor)
  }

  /** What one pass of the blocking `acquire` loop decides. */
  datatype AcquireStep = Acquired | Refused | TimedOut | WaitFor(seconds: real)

  class RateLimiter {
    var callsPerSecond: real
    var burstSize: int
    var tokens: real
    var lastUpdate: real

    /** The bucket never holds more than its burst size. */
    predicate Valid()
      reads this
    {
      tokens <= burstSize as real
    }

    /** The token count a refill at time `now` produces. */
    function Refilled(now: real): real
      reads this
    {
      RealMin(burstSize as real, tokens + (now - lastUpdate) * callsPerSecond)
    }

    /** `RateLimiter(calls_per_second, burst_size)` created at time `now`:
        the burst defaults to `int(calls_per_second)` and the bucket starts full. */
    constructor (rate: real, burst: Option<int>, now: real)
      ensures Valid()
      ensures callsPerSecond == rate && lastUpdate == now
      ensures burstSize == (if burst.Some? then burst.value else TruncToInt(rate))
      ensures tokens == burstSize as real
    {
      callsPerSecond := rate;
      burstSize := if burst.Some? then burst.value else TruncToInt(rate);
      tokens := (if burst.Some? then burst.value else TruncToInt(rate)) as real;
      lastUpdate := now;
    }

    /** `_refill` at time `now`. */
    method Refill(now: real)
      requires Valid()
      modifies this
      ensures Valid()
      ensures tokens == old(Refilled(now)) && lastUpdate == now
      ensures callsPerSecond == old(callsPerSecond) && burstSize == old(burstSize)
    {
      var elapsed := now - lastUpdate;
      tokens := RealMin(burstSize as real, tokens + elapsed * callsPerSecond);
      lastUpdate := now;
    }

    /** `acquire(blocking=False)` at time `now`: succeeds iff a whole token is
        available after the refill, and then spends exactly one. */
    method TryAcquire(now: real) returns (ok: bool)
      requires Valid()
      modifies this
      ensures Valid()
      ensures ok <==> old(Refilled(now)) >= 1.0
      ensures tokens == old(Refilled(now)) - (if ok then 1.0 else 0.0)
      ensures lastUpdate == now
      ensures callsPerSecond == old(callsPerSecond) && burstSize == old(burstSize)
    {
      Refill(now);
      if tokens >= 1.0 {
        tokens := tokens - 1.0;
        ok := true;
      } else {
        ok := false;
      }
    }

    /** One pass of the blocking `acquire(timeout=...)` loop at time `now`,
        where `deadline` is the absolute time the caller gave up at, if any. */
    method AcquireStepAt(now: real, blocking: bool, deadline: Option<real>) returns (step: AcquireStep)
      requires Valid() && callsPerSecond > 0.0
      modifies this
      ensures Valid() && lastUpdate == now
      ensures step.Acquired? <==> old(Refilled(now)) >= 1.0
      ensures step.Acquired? ==> tokens == old(Refilled(now)) - 1.0
      ensures !step.Acquired? ==> tokens == old(Refilled(now))
      ensures step.Refused? <==> (!blocking && old(Refilled(now)) < 1.0)
      ensures step.TimedOut? <==> (blocking && old(Refilled(now)) < 1.0 && deadline.Some? && deadline.value - now <= 0.0)
      ensures callsPerSecond == old(callsPerSecond) && burstSize == old(burstSize)
      ensures step.WaitFor? ==> 0.0 < step.seconds
      ensures step.WaitFor? ==> step.seconds == (if deadline.Some? then RealMin((1.0 - tokens) / callsPerSecond, deadline.value - now) else (1.0 - tokens) / callsPerSecond)
    {
      Refill(now);
      if tokens >= 1.0 {
        tokens := tokens - 1.0;
        return Acquired;
      }
      if !blocking {
        return Refused;
      }
      var waitTime := (1.0 - tokens) / callsPerSecond;
      if deadline.Some? {
        var remaining := deadline.value - now;
        if remaining <= 0.0 {
          return TimedOut;
        }
        waitTime := RealMin(waitTime, remaining);
      }
      return WaitFor(waitTime);
    }

    /** `n` non-blocking acquires at the same instant `now`: the first ones
        succeed while a whole token is left, every later one fails. */
    method AcquireBurst(now: real, n: nat) returns (results: seq<bool>)
      requires Valid()
      modifies this
      ensures Valid()
      ensures |results| == n
      ensures forall i :: 0 <= i < n ==> (results[i] <==> old(Refilled(now)) - i as real >= 1.0)
    {
      ghost var start := Refilled(now);
      ghost var granted: nat := 0;
      results := [];
      var k := 0;
      while k < n
        invariant 0 <= granted <= k <= n && |results| == k
        invariant Valid()
        invariant Refilled(now) == start - granted as real
        invariant granted == k || start - granted as real < 1.0
        invariant forall i :: 0 <= i < k ==> (results[i] <==> start - i as real >= 1.0)
      {
        var ok := TryAcquire(now);
        if ok {
          granted := granted + 1;
        }
        results := results + [ok];
        k := k + 1;
      }
    }
  }

  function RealMin(a: real, b: real): (r: real)
    ensures r <= a && r <= b && (r == a || r == b)
  {
    if a <= b then a else b
  }

  /** A fresh limiter at a single instant grants exactly `burst` requests. */
  method FreshBurst(rate: real, burst: nat, now: real) returns (results: seq<bool>)
    ensures |results| == burst + 1
    ensures forall i :: 0 <= i < burst ==> results[i]
    ensures !results[burst]
  {
    var limiter := new RateLimiter(rate, Some(burst), now);
    assert limiter.Refilled(now) == burst as real;
    results := limiter.AcquireBurst(now, burst + 1);
  }

  /** `with_timeout(seconds).as_tuple`: a connect timeout of at most ten
      seconds and the full duration as the read timeout. */
  function AsTuple(seconds: real): (r: (real, real))
    ensures r.1 == seconds
    ensures r.0 <= 10.0 && r.0 <= seconds
    ensures r.0 == 10.0 || r.0 == seconds
  {
    (RealMin(10.0, seconds), seconds)
  }

  const DefaultTimeoutSeconds: real := 30.0
}
