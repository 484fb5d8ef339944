/** The retry loop around an HTTP operation and its exponential delays.

    What the operation does on each attempt, which errors are retryable and what a Retry-After
    header parses to are given from outside. Numbers are exact reals. */
module HttpRetry {
  import opened Common

  /** What an attempt can throw: a Response with the delay its Retry-After header asks for, an
      Error object, or any other value. */
  datatype Thrown =
    | HttpResponse(response: int, retryAfter: Option<real>)
    | ErrorObject(error: int)
    | OtherValue(other: int)

  datatype Attempt<+T> = Resolves(value: T) | Rejects(thrown: Thrown)

  datatype Result<+T> = Returned(value: T) | Threw(thrown: Thrown) | RetryExhausted

  datatype Options = Options(maxAttempts: real, baseDelayMs: real, maxDelayMs: real, isRetryable: (Thrown, int) -> bool)

  function Pow2(n: nat): (r: int)
    ensures r >= 1
  {
    if n == 0 then 1 else 2 * Pow2(n - 1)
  }

  function Min(a: real, b: real): real {
    if a <= b then a else b
  }

  /** The base delay times two to the power `n`, see `DoubledIsPower`. */
  function Doubled(baseDelayMs: real, n: nat): real {
    if n == 0 then baseDelayMs else 2.0 * Doubled(baseDelayMs, n - 1)
  }

  lemma {:induction false} DoubledIsPower(baseDelayMs: real, n: nat)
    ensures Doubled(baseDelayMs, n) == baseDelayMs * Pow2(n) as real
  {
    if n > 0 {
      DoubledIsPower(baseDelayMs, n - 1);
    }
  }

  function ComputeRetryDelayMs(attempt: int, baseDelayMs: real, maxDelayMs: real): real {
    Min(maxDelayMs, Doubled(baseDelayMs, if attempt - 1 >= 0 then attempt - 1 else 0))
  }

  function DelayAfter(thrown: Thrown, attempt: int, options: Options): real {
    if thrown.HttpResponse? && thrown.retryAfter.Some? then thrown.retryAfter.value
    else ComputeRetryDelayMs(attempt, options.baseDelayMs, options.maxDelayMs)
  }

  predicate WaitIs<T>(operation: int -> Attempt<T>, options: Options, a: int, delay: real) {
    operation(a).Rejects? && delay == DelayAfter(operation(a).thrown, a, options)
  }

  /** The waits of a run, one after each of its first attempts. */
  predicate WaitsAre<T>(operation: int -> Attempt<T>, options: Options, delays: seq<real>) {
    forall i | 0 <= i < |delays| :: WaitIs(operation, options, i + 1, delays[i])
  }

  /** Attempt number `a` fails in a way that lets the loop go on. */
  predicate GoesOn<T>(operation: int -> Attempt<T>, options: Options, a: int) {
    operation(a).Rejects? && (a as real) < options.maxAttempts && options.isRetryable(operation(a).thrown, a)
  }

  /** The number of calls made by a loop that may run `maxAttempts` times: none at all when that
      is below one, else up to and including the first attempt that does not go on. */
  predicate StopsAfter<T>(operation: int -> Attempt<T>, options: Options, calls: nat) {
    && (calls == 0 || calls as real <= options.maxAttempts)
    && (forall a | 1 <= a < calls :: GoesOn(operation, options, a))
    && (calls == 0 || !GoesOn(operation, options, calls) || calls as real + 1.0 > options.maxAttempts)
    && (calls == 0 ==> options.maxAttempts < 1.0)
  }

  /** Every attempt but the last failed in a way that may be retried, and was followed by the wait the server
      asks for or else by the doubling one. The last one is the first that resolves, or that may not be
      retried, or that the limit lets no other follow; its own value or error is the outcome. A limit
      with a fraction has one more wait in the end, and then an error that is no `Error` object is
      replaced. */
  ghost predicate EndsRightly<T>(
    operation: int -> Attempt<T>, options: Options, result: Result<T>, calls: nat, delays: seq<real>)
  {
    && (calls == 0 <==> options.maxAttempts < 1.0)
    && (calls == 0 ==> result == RetryExhausted && delays == [])
    && (calls > 0 ==> calls as real <= options.maxAttempts)
    && (forall a | 1 <= a < calls :: operation(a).Rejects? && options.isRetryable(operation(a).thrown, a))
    && (calls > 0 && operation(calls).Resolves? ==>
          result == Returned(operation(calls).value) && |delays| == calls - 1)
    && (calls > 0 && operation(calls).Rejects? ==>
          var thrown := operation(calls).thrown;
          if calls as real == options.maxAttempts || !options.isRetryable(thrown, calls)
          then result == Threw(thrown) && |delays| == calls - 1
          else
            && options.maxAttempts < calls as real + 1.0 && |delays| == calls
            && result == if thrown.ErrorObject? then Threw(thrown) else RetryExhausted)
    && (forall i | 0 <= i < |delays| && operation(i + 1).Rejects? ::
          match operation(i + 1).thrown
          case HttpResponse(_, Some(wait)) => delays[i] == wait
          case _ => delays[i] == ComputeRetryDelayMs(i + 1, options.baseDelayMs, options.maxDelayMs))
  }

  /** The delay is the base up to the first attempt, one more attempt doubles the base, and no delay is
      above the cap. */
  lemma DelayInPlainTerms(attempt: int, baseDelayMs: real, maxDelayMs: real)
    ensures attempt <= 1 ==>
      ComputeRetryDelayMs(attempt, baseDelayMs, maxDelayMs) ==
        if baseDelayMs <= maxDelayMs then baseDelayMs else maxDelayMs
    ensures attempt >= 1 ==>
      ComputeRetryDelayMs(attempt + 1, baseDelayMs, maxDelayMs) ==
      ComputeRetryDelayMs(attempt, 2.0 * baseDelayMs, maxDelayMs)
    ensures ComputeRetryDelayMs(attempt, baseDelayMs, maxDelayMs) <= maxDelayMs
  {
    if attempt >= 1 {
      DoubledBase(baseDelayMs, attempt - 1);
    }
  }

  lemma {:induction false} DoubledBase(baseDelayMs: real, n: nat)
    ensures Doubled(baseDelayMs, n + 1) == Doubled(2.0 * baseDelayMs, n)
  {
    if n > 0 {
      DoubledBase(baseDelayMs, n - 1);
    }
  }

  method ExecuteWithRetry<T>(operation: int -> Attempt<T>, options: Options)
    returns (result: Result<T>, calls: nat, delays: seq<real>)
    ensures StopsAfter(operation, options, calls)
    ensures calls == 0 ==> result == RetryExhausted
    ensures calls > 0 ==>
      match operation(calls)
      case Resolves(value) => result == Returned(value)
      case Rejects(thrown) =>
        result == if GoesOn(operation, options, calls) && !thrown.ErrorObject? then RetryExhausted else Threw(thrown)
    ensures |delays| == if calls > 0 && !GoesOn(operation, options, calls) then calls - 1 else calls
    ensures WaitsAre(operation, options, delays)
    ensures EndsRightly(operation, options, result, calls, delays)
  {
    delays := [];
    calls := 0;
    var lastError: Option<Thrown> := None;
    var attempt := 1;
    while attempt as real <= options.maxAttempts
      invariant attempt == calls + 1 && |delays| == calls
      invariant calls as real <= options.maxAttempts || calls == 0
      invariant forall a | 1 <= a <= calls :: GoesOn(operation, options, a)
      invariant forall a | 1 <= a <= calls :: operation(a).Rejects? && options.isRetryable(operation(a).thrown, a)
      invariant calls == 0 || GoesOn(operation, options, calls)
      invariant lastError == if calls == 0 then None else Some(operation(calls).thrown)
      invariant WaitsAre(operation, options, delays)
      decreases options.maxAttempts.Floor - attempt
    {
      calls := attempt;
      match operation(attempt) {
        case Resolves(value) => return Returned(value), calls, delays;
        case Rejects(thrown) =>
          lastError := Some(thrown);
          if attempt as real >= options.maxAttempts || !options.isRetryable(thrown, attempt) {
            return Threw(thrown), calls, delays;
          }
          var delayMs := ComputeRetryDelayMs(attempt, options.baseDelayMs, options.maxDelayMs);
          if thrown.HttpResponse? && thrown.retryAfter.Some? {
            delayMs := thrown.retryAfter.value;
          }
          assert WaitIs(operation, options, attempt, delayMs);
          delays := delays + [delayMs];
      }
      attempt := attempt + 1;
    }
    result := if lastError.Some? && lastError.value.ErrorObject? then Threw(lastError.value) else RetryExhausted;
  }

  /** The number of calls is determined, so the loop has no freedom in when it stops. */
  lemma CallsAreDetermined<T>(operation: int -> Attempt<T>, options: Options, m: nat, n: nat)
    requires StopsAfter(operation, options, m) && StopsAfter(operation, options, n)
    ensures m == n
  {}

  /** With a whole number of attempts, every retried run ends in its last attempt's own outcome,
      and `retry_exhausted` is left for loops that may not run at all. */
  lemma WholeLimitNeverFallsThrough<T>(operation: int -> Attempt<T>, options: Options, calls: nat, whole: int)
    requires options.maxAttempts == whole as real && StopsAfter(operation, options, calls) && calls > 0
    ensures !GoesOn(operation, options, calls)
    ensures calls <= whole
  {}

  // ----- Delays -----

  function Sum(delays: seq<real>): real {
    if delays == [] then 0.0 else Sum(delays[..|delays| - 1]) + delays[|delays| - 1]
  }

  predicate NoServerDelay<T>(operation: int -> Attempt<T>, attempts: nat) {
    forall a | 1 <= a <= attempts :: operation(a).Rejects? ==>
      !(operation(a).thrown.HttpResponse? && operation(a).thrown.retryAfter.Some?)
  }

  function Times(x: real, n: nat): real {
    if n == 0 then 0.0 else Times(x, n - 1) + x
  }

  predicate WithinBounds(waits: nat, waited: real, baseDelayMs: real, maxDelayMs: real) {
    waited <= Times(maxDelayMs, waits) && waited <= Doubled(baseDelayMs, waits) - baseDelayMs
  }

  /** However long the run and whatever the signs, the waiting is bounded both by the maximum
      delay per wait and by the doubling of the base delay. */
  lemma {:induction false} WaitingIsBounded(delays: seq<real>, baseDelayMs: real, maxDelayMs: real)
    requires forall i | 0 <= i < |delays| :: delays[i] == ComputeRetryDelayMs(i + 1, baseDelayMs, maxDelayMs)
    ensures WithinBounds(|delays|, Sum(delays), baseDelayMs, maxDelayMs)
  {
    if delays != [] {
      var n := |delays| - 1;
      WaitingIsBounded(delays[..n], baseDelayMs, maxDelayMs);
      assert delays[n] <= maxDelayMs && delays[n] <= Doubled(baseDelayMs, n);
    }
  }

  lemma {:induction false} TimesIsProduct(x: real, n: nat)
    ensures Times(x, n) == n as real * x
  {
    if n > 0 {
      TimesIsProduct(x, n - 1);
    }
  }

  lemma BoundsInClosedForm(waits: nat, waited: real, baseDelayMs: real, maxDelayMs: real)
    requires WithinBounds(waits, waited, baseDelayMs, maxDelayMs)
    ensures waited <= waits as real * maxDelayMs
    ensures waited <= baseDelayMs * (Pow2(waits) - 1) as real
  {
    TimesIsProduct(maxDelayMs, waits);
    DoubledIsPower(baseDelayMs, waits);
  }

  lemma RunWaitsAtMost<T>(operation: int -> Attempt<T>, options: Options, delays: seq<real>)
    requires NoServerDelay(operation, |delays|)
    requires WaitsAre(operation, options, delays)
    ensures Sum(delays) <= |delays| as real * options.maxDelayMs
    ensures Sum(delays) <= options.baseDelayMs * (Pow2(|delays|) - 1) as real
  {
    forall i | 0 <= i < |delays|
      ensures delays[i] == ComputeRetryDelayMs(i + 1, options.baseDelayMs, options.maxDelayMs)
    {
      assert WaitIs(operation, options, i + 1, delays[i]);
    }
    WaitingIsBounded(delays, options.baseDelayMs, options.maxDelayMs);
    BoundsInClosedForm(|delays|, Sum(delays), options.baseDelayMs, options.maxDelayMs);
  }

  ghost predicate NeverShrinks(baseDelayMs: real, maxDelayMs: real) {
    forall a: int :: NoShorterNext(a, baseDelayMs, maxDelayMs)
  }

  predicate NoShorterNext(attempt: int, baseDelayMs: real, maxDelayMs: real) {
    ComputeRetryDelayMs(attempt, baseDelayMs, maxDelayMs) <= ComputeRetryDelayMs(attempt + 1, baseDelayMs, maxDelayMs)
  }

  lemma {:induction false} Pow2Grows(n: nat)
    ensures Pow2(n) > n
  {
    if n > 0 {
      Pow2Grows(n - 1);
    }
  }

  lemma {:induction false} DoubledSign(baseDelayMs: real, n: nat)
    ensures baseDelayMs >= 0.0 ==> Doubled(baseDelayMs, n) >= 0.0
    ensures baseDelayMs < 0.0 ==> Doubled(baseDelayMs, n) < 0.0
  {
    if n > 0 {
      DoubledSign(baseDelayMs, n - 1);
    }
  }

  lemma ExceedsMaximum(baseDelayMs: real, maxDelayMs: real) returns (n: nat)
    requires baseDelayMs < 0.0
    ensures Doubled(baseDelayMs, n) < maxDelayMs
  {
    var ratio := maxDelayMs / baseDelayMs;
    n := if ratio > 0.0 then ratio.Floor + 1 else 1;
    Pow2Grows(n);
    DoubledIsPower(baseDelayMs, n);
    var excess := Pow2(n) as real - ratio;
    assert excess > 0.0;
    assert baseDelayMs * (ratio + excess) == baseDelayMs * ratio + baseDelayMs * excess;
    assert baseDelayMs * excess < 0.0;
  }

  /** Delays never get shorter exactly when the base delay is not negative. */
  lemma NeverShrinksIff(baseDelayMs: real, maxDelayMs: real)
    ensures NeverShrinks(baseDelayMs, maxDelayMs) <==> baseDelayMs >= 0.0
  {
    if baseDelayMs >= 0.0 {
      forall a: int ensures NoShorterNext(a, baseDelayMs, maxDelayMs) {
        NonNegativeGrows(a, baseDelayMs, maxDelayMs);
      }
    } else {
      var n := ExceedsMaximum(baseDelayMs, maxDelayMs);
      NegativeShrinks(n, baseDelayMs, maxDelayMs);
    }
  }

  lemma NonNegativeGrows(a: int, baseDelayMs: real, maxDelayMs: real)
    requires baseDelayMs >= 0.0
    ensures NoShorterNext(a, baseDelayMs, maxDelayMs)
  {
    if a >= 1 {
      DoubledSign(baseDelayMs, a - 1);
    }
  }

  lemma NegativeShrinks(n: nat, baseDelayMs: real, maxDelayMs: real)
    requires baseDelayMs < 0.0 && Doubled(baseDelayMs, n) < maxDelayMs
    ensures !NoShorterNext(n + 1, baseDelayMs, maxDelayMs)
  {}

  predicate NonDecreasing(delays: seq<real>) {
    forall i, j | 0 <= i < j < |delays| :: delays[i] <= delays[j]
  }

  lemma {:induction false} LaterIsNoShorter(a: int, b: int, baseDelayMs: real, maxDelayMs: real)
    requires baseDelayMs >= 0.0 && a <= b
    ensures ComputeRetryDelayMs(a, baseDelayMs, maxDelayMs) <= ComputeRetryDelayMs(b, baseDelayMs, maxDelayMs)
    decreases b - a
  {
    if a < b {
      NonNegativeGrows(a, baseDelayMs, maxDelayMs);
      assert NoShorterNext(a, baseDelayMs, maxDelayMs);
      LaterIsNoShorter(a + 1, b, baseDelayMs, maxDelayMs);
    }
  }

  lemma ComputedWait<T>(operation: int -> Attempt<T>, options: Options, delays: seq<real>, i: nat)
    requires i < |delays| && WaitsAre(operation, options, delays) && NoServerDelay(operation, |delays|)
    ensures delays[i] == ComputeRetryDelayMs(i + 1, options.baseDelayMs, options.maxDelayMs)
  {
    assert WaitIs(operation, options, i + 1, delays[i]);
  }

  /** The waits of every run without server-given delays are non-decreasing exactly when the base
      delay is not negative. */
  lemma RunWaitsNeverShrinkIff<T>(options: Options)
    ensures
      (forall operation: int -> Attempt<T>, delays: seq<real> |
         WaitsAre(operation, options, delays) && NoServerDelay(operation, |delays|) :: NonDecreasing(delays))
      <==> options.baseDelayMs >= 0.0
  {
    if options.baseDelayMs >= 0.0 {
      forall operation: int -> Attempt<T>, delays: seq<real> |
        WaitsAre(operation, options, delays) && NoServerDelay(operation, |delays|)
        ensures NonDecreasing(delays)
      {
        forall i, j | 0 <= i < j < |delays| ensures delays[i] <= delays[j] {
          ComputedWait(operation, options, delays, i);
          ComputedWait(operation, options, delays, j);
          LaterIsNoShorter(i + 1, j + 1, options.baseDelayMs, options.maxDelayMs);
        }
      }
    } else {
      ShrinkingRun<T>(options);
    }
  }

  /** An operation that keeps failing shows a negative base delay. */
  lemma ShrinkingRun<T>(options: Options)
    requires options.baseDelayMs < 0.0
    ensures exists operation: int -> Attempt<T>, delays: seq<real> ::
      WaitsAre(operation, options, delays) && NoServerDelay(operation, |delays|) && !NonDecreasing(delays)
  {
    var n := ExceedsMaximum(options.baseDelayMs, options.maxDelayMs);
    NegativeShrinks(n, options.baseDelayMs, options.maxDelayMs);
    var operation: int -> Attempt<T> := _ => Rejects(OtherValue(0));
    var delays := seq(n + 2, (i: nat) => ComputeRetryDelayMs(i + 1, options.baseDelayMs, options.maxDelayMs));
    assert delays[n] > delays[n + 1];
    assert WaitsAre(operation, options, delays);
    assert NoServerDelay(operation, |delays|);
  }
}
