/** The `retry` helper of `src/util/retry.ts`: run a fallible callback until it
    succeeds, the attempt budget `retries` runs out, or the time budget
    `timeout` is used up, sleeping `delay` milliseconds after every failure.

    The callback is an oracle: `callback(i)` is the outcome of the i-th call
    (counting from 0). `sleep` is not run; every call and every sleep is
    recorded as an event in a ghost trace instead. */
module Retry {
  import opened Wrappers

  /** `Number.MAX_SAFE_INTEGER`, 2^53 - 1. */
  const MAX_SAFE_INTEGER: int := 9007199254740991
  const DEFAULT_TIMEOUT: int := 5000
  const DEFAULT_DELAY: int := 100
  /** The attempt budget used when no `retries` is given and `timeout` is 0. */
  const DEFAULT_RETRIES_WITHOUT_TIMEOUT: int := 10

  /** `RetryOptions`: every field may be left out (None). */
  datatype RetryOptions = RetryOptions(retries: Option<int>, timeout: Option<int>, delay: Option<int>)

  /** The options once the defaults are filled in. */
  datatype Settings = Settings(retries: int, timeout: int, delay: int)

  /** What one call of the callback does: return a value or throw an error. */
  datatype Attempt<T, E> = Success(value: T) | Failure(error: E)

  /** How `retry` ends: it resolves with a value or rejects with an error. */
  datatype Outcome<T, E> = Returned(value: T) | Thrown(error: E)

  /** An observable step of `retry`: the call with index `attempt`, or a sleep. */
  datatype Event = Call(attempt: nat) | Sleep(ms: int)

  /** The trace of one run and how it ended. */
  datatype Run<T, E> = Run(outcome: Outcome<T, E>, trace: seq<Event>)

  function Max(a: int, b: int): int { if a < b then b else a }

  function Min(a: int, b: int): int { if a < b then a else b }

  /** Default resolution: an absent `timeout` is 5000 and an absent `delay` is
      100; an absent `retries` is MAX_SAFE_INTEGER unless the timeout is 0
      (falsy), in which case it is 10. Given values are kept as they are. */
  function Resolve(options: RetryOptions): (s: Settings)
    ensures options.timeout.Some? ==> s.timeout == options.timeout.value
    ensures options.timeout.None? ==> s.timeout == DEFAULT_TIMEOUT
    ensures options.delay.Some? ==> s.delay == options.delay.value
    ensures options.delay.None? ==> s.delay == DEFAULT_DELAY
    ensures options.retries.Some? ==> s.retries == options.retries.value
    ensures options.retries.None? && s.timeout != 0 ==> s.retries == MAX_SAFE_INTEGER
    ensures options.retries.None? && s.timeout == 0 ==> s.retries == DEFAULT_RETRIES_WITHOUT_TIMEOUT
  {
    var timeout := options.timeout.GetOr(DEFAULT_TIMEOUT);
    var retries := options.retries.GetOr(if timeout != 0 then MAX_SAFE_INTEGER else DEFAULT_RETRIES_WITHOUT_TIMEOUT);
    Settings(retries, timeout, options.delay.GetOr(DEFAULT_DELAY))
  }

  /** `timeSlept` after `k` failed iterations: `delay` added `k` times, that
      is `k * delay` (`TimeSleptAfterIsProduct`). */
  function TimeSleptAfter(k: nat, delay: int): int {
    if k == 0 then 0 else TimeSleptAfter(k - 1, delay) + delay
  }

  lemma {:induction false} TimeSleptAfterIsProduct(k: nat, delay: int)
    ensures TimeSleptAfter(k, delay) == k * delay
  {
    if k > 0 {
      TimeSleptAfterIsProduct(k - 1, delay);
      SleptOneMore(k - 1, delay);
    }
  }

  /** After `k` failed attempts the loop guard `attemptsLeft > 0 && timeSlept < timeout`
      is false: `attemptsLeft` is then `retries - k` and `timeSlept` is `k * delay`. */
  predicate Stops(s: Settings, k: nat) {
    k >= s.retries || TimeSleptAfter(k, s.delay) >= s.timeout
  }

  /** The least `n >= k` at which the loop stops. */
  function FirstStopFrom(s: Settings, k: nat): (n: nat)
    requires 1 <= k
    ensures k <= n && Stops(s, n)
    ensures forall j :: k <= j < n ==> !Stops(s, j)
    decreases s.retries - k
  {
    if Stops(s, k) then k else FirstStopFrom(s, k + 1)
  }

  /** The number of calls `retry` makes when every call fails: the least
      `n >= 1` such that `n >= retries` or `n * delay >= timeout`. It is never
      more than `max(retries, 1)`. */
  function Attempts(s: Settings): (n: nat)
    ensures 1 <= n && Stops(s, n)
    ensures forall j :: 1 <= j < n ==> !Stops(s, j)
    ensures n <= Max(s.retries, 1)
  {
    var n := FirstStopFrom(s, 1);
    assert n > 1 ==> !Stops(s, n - 1);
    n
  }

  /** The index of the first successful call among the first `n`, or `n`. */
  function FirstSuccess<T, E>(callback: nat -> Attempt<T, E>, n: nat): (k: nat)
    ensures k <= n
    ensures forall i :: 0 <= i < k ==> callback(i).Failure?
    ensures k < n ==> callback(k).Success?
  {
    if n == 0 then 0
    else
      var k := FirstSuccess(callback, n - 1);
      if k < n - 1 then k
      else if callback(n - 1).Success? then n - 1
      else n
  }

  /** Event `j` of a run of failed calls: call `j / 2` at even positions,
      the sleep after it at odd ones. */
  function LoopEvent(j: nat, delay: int): Event {
    if j % 2 == 0 then Call(j / 2) else Sleep(delay)
  }

  /** The trace of `k` failed calls, each followed by its sleep. */
  function FailedAttempts(k: nat, delay: int): (t: seq<Event>)
    ensures |t| == 2 * k
    ensures forall j :: 0 <= j < |t| ==> t[j] == LoopEvent(j, delay)
  {
    if k == 0 then [] else FailedAttempts(k - 1, delay) + [Call(k - 1), Sleep(delay)]
  }

  /** What `retry` does, stated without its loop: with `n` the number of calls
      the settings allow, it returns the value of the first successful call
      among the first `n`, after sleeping once per earlier failure; if all `n`
      fail, it sleeps after each of them and throws the error of call `n - 1`. */
  function Expected<T, E>(callback: nat -> Attempt<T, E>, s: Settings): (run: Run<T, E>)
    ensures run.outcome.Returned? <==> exists k :: 0 <= k < Attempts(s) && callback(k).Success?
  {
    var n := Attempts(s);
    var k := FirstSuccess(callback, n);
    if k < n then
      Run(Returned(callback(k).value), FailedAttempts(k, s.delay) + [Call(k)])
    else
      Run(Thrown(callback(n - 1).error), FailedAttempts(n, s.delay))
  }

  /** `retry(callback, options)`: the do-while loop of the source over
      `attemptsLeft`, `timeSlept` and `mostRecentError`. `attempt` is the
      index the oracle is consulted with. */
  method Retry<T, E>(callback: nat -> Attempt<T, E>, options: RetryOptions)
    returns (r: Outcome<T, E>, ghost trace: seq<Event>)
    ensures r == Expected(callback, Resolve(options)).outcome
    ensures trace == Expected(callback, Resolve(options)).trace
  {
    var settings := Resolve(options);
    var timeout, retries, delay := settings.timeout, settings.retries, settings.delay;
    var attemptsLeft := retries;
    var mostRecentError: Option<E> := None;
    var timeSlept := 0;
    var attempt: nat := 0;
    trace := [];
    while true
      invariant Continues(settings, attempt)
      invariant attemptsLeft == retries - attempt && timeSlept == TimeSleptAfter(attempt, delay)
      invariant forall i :: 0 <= i < attempt ==> callback(i).Failure?
      invariant trace == FailedAttempts(attempt, delay)
      invariant attempt > 0 ==> mostRecentError == Some(callback(attempt - 1).error)
      decreases attemptsLeft
    {
      trace := trace + [Call(attempt)];
      var outcome := callback(attempt);
      if outcome.Success? {
        ContinuesBelowAttempts(settings, attempt);
        ExpectedOnSuccess(callback, settings, attempt);
        r := Returned(outcome.value);
        return;
      }
      mostRecentError := Some(outcome.error);
      assert trace + [Sleep(delay)] == FailedAttempts(attempt + 1, delay);
      attemptsLeft := attemptsLeft - 1;
      timeSlept := timeSlept + delay;
      trace := trace + [Sleep(delay)];
      attempt := attempt + 1;
      if !(attemptsLeft > 0 && timeSlept < timeout) {
        break;
      }
    }
    ExpectedOnExhaustion(callback, settings, attempt);
    r := Thrown(mostRecentError.value);
  }

  /** One more failed call adds one delay to the time slept. */
  lemma SleptOneMore(k: nat, delay: int)
    ensures (k + 1) * delay == k * delay + delay
  {
  }

  /** `Expected` when call `k` is the first success within the budget. */
  lemma ExpectedOnSuccess<T, E>(callback: nat -> Attempt<T, E>, s: Settings, k: nat)
    requires k < Attempts(s)
    requires forall i :: 0 <= i < k ==> callback(i).Failure?
    requires callback(k).Success?
    ensures Expected(callback, s) == Run(Returned(callback(k).value), FailedAttempts(k, s.delay) + [Call(k)])
  {
    assert FirstSuccess(callback, Attempts(s)) == k;
  }

  /** `Expected` when the loop stops after `k` failed calls: `k` is then the
      number of attempts, and the error of call `k - 1` is thrown. */
  lemma ExpectedOnExhaustion<T, E>(callback: nat -> Attempt<T, E>, s: Settings, k: nat)
    requires 1 <= k && Continues(s, k - 1) && Stops(s, k)
    requires forall i :: 0 <= i < k ==> callback(i).Failure?
    ensures k == Attempts(s)
    ensures Expected(callback, s) == Run(Thrown(callback(k - 1).error), FailedAttempts(k, s.delay))
  {
    ContinuesBelowAttempts(s, k - 1);
    assert FirstSuccess(callback, k) == k;
  }

  /** The loop guard held after each of the first `k` failed calls. */
  ghost predicate Continues(s: Settings, k: nat) {
    k == 0 || (Continues(s, k - 1) && !Stops(s, k))
  }

  /** While the guard keeps holding, the budget is not used up. */
  lemma {:induction false} ContinuesBelowAttempts(s: Settings, k: nat)
    requires Continues(s, k)
    ensures k < Attempts(s)
  {
    if k > 0 {
      ContinuesBelowAttempts(s, k - 1);
    }
  }

  /** Conversely, the guard holds after every call short of the budget. */
  lemma {:induction false} BelowAttemptsContinues(s: Settings, k: nat)
    requires k < Attempts(s)
    ensures Continues(s, k)
  {
    if k > 0 {
      BelowAttemptsContinues(s, k - 1);
    }
  }

  // ---------------------------------------------------------------------------
  // Reading a trace

  /** How many calls a trace records. */
  function CallCount(trace: seq<Event>): nat {
    if trace == [] then 0
    else CallCount(trace[..|trace| - 1]) + (if trace[|trace| - 1].Call? then 1 else 0)
  }

  /** How many sleeps a trace records. */
  function SleepCount(trace: seq<Event>): nat {
    if trace == [] then 0
    else SleepCount(trace[..|trace| - 1]) + (if trace[|trace| - 1].Sleep? then 1 else 0)
  }

  /** The milliseconds slept over a trace. */
  function TimeSlept(trace: seq<Event>): int {
    if trace == [] then 0
    else TimeSlept(trace[..|trace| - 1]) + (if trace[|trace| - 1].Sleep? then trace[|trace| - 1].ms else 0)
  }

  /** Appending one event adds to the counts exactly what it records. */
  lemma EventAppended(trace: seq<Event>, e: Event)
    ensures CallCount(trace + [e]) == CallCount(trace) + (if e.Call? then 1 else 0)
    ensures SleepCount(trace + [e]) == SleepCount(trace) + (if e.Sleep? then 1 else 0)
    ensures TimeSlept(trace + [e]) == TimeSlept(trace) + (if e.Sleep? then e.ms else 0)
  {
    assert (trace + [e])[..|trace|] == trace;
  }

  /** One failed iteration adds one call, one sleep and `delay` milliseconds. */
  lemma FailedIterationAppended(trace: seq<Event>, k: nat, delay: int)
    ensures CallCount(trace + [Call(k), Sleep(delay)]) == CallCount(trace) + 1
    ensures SleepCount(trace + [Call(k), Sleep(delay)]) == SleepCount(trace) + 1
    ensures TimeSlept(trace + [Call(k), Sleep(delay)]) == TimeSlept(trace) + delay
  {
    assert trace + [Call(k), Sleep(delay)] == (trace + [Call(k)]) + [Sleep(delay)];
    EventAppended(trace, Call(k));
    EventAppended(trace + [Call(k)], Sleep(delay));
  }

  /** `k` failed attempts make `k` calls and `k` sleeps, `k * delay`
      milliseconds in all. */
  lemma {:induction false} FailedAttemptsTotals(k: nat, delay: int)
    ensures CallCount(FailedAttempts(k, delay)) == k
    ensures SleepCount(FailedAttempts(k, delay)) == k
    ensures TimeSlept(FailedAttempts(k, delay)) == k * delay
  {
    if k > 0 {
      FailedAttemptsTotals(k - 1, delay);
      FailedIterationAppended(FailedAttempts(k - 1, delay), k - 1, delay);
      SleptOneMore(k - 1, delay);
    }
  }

  // ---------------------------------------------------------------------------
  // Properties of retry

  /** The callback is called at least once, whatever the settings (even with
      `retries <= 0` or `timeout <= 0`): the body runs before the guard. */
  lemma CallbackRunsAtLeastOnce<T, E>(callback: nat -> Attempt<T, E>, s: Settings)
    ensures |Expected(callback, s).trace| > 0
    ensures Expected(callback, s).trace[0] == Call(0)
  {
  }

  /** If call `k` is the first to succeed and the budget allows it, `retry`
      returns its value: calls 0..k were made in order, one sleep follows each
      earlier failure, and nothing follows the successful call. */
  lemma SuccessIsReturned<T, E>(callback: nat -> Attempt<T, E>, s: Settings, k: nat)
    requires k < Attempts(s)
    requires forall i :: 0 <= i < k ==> callback(i).Failure?
    requires callback(k).Success?
    ensures Expected(callback, s).outcome == Returned(callback(k).value)
    ensures var t := Expected(callback, s).trace;
      && |t| == 2 * k + 1
      && (forall j :: 0 <= j < |t| ==> t[j] == LoopEvent(j, s.delay))
      && CallCount(t) == k + 1
      && SleepCount(t) == k
  {
    ExpectedOnSuccess(callback, s, k);
    var t := FailedAttempts(k, s.delay) + [Call(k)];
    forall j | 0 <= j < |t|
      ensures t[j] == LoopEvent(j, s.delay)
    {
      if j == 2 * k {
        CallEvent(k, s.delay);
      }
    }
    FailedAttemptsTotals(k, s.delay);
    EventAppended(FailedAttempts(k, s.delay), Call(k));
  }

  lemma CallEvent(k: nat, delay: int)
    ensures LoopEvent(2 * k, delay) == Call(k)
  {
  }

  /** When all the calls the budget allows fail, `retry` throws the error of
      the last call (earlier errors are dropped), and it has slept once after
      every call, the last one included: `Attempts(s) * delay` in all. */
  lemma ExhaustionThrowsLastError<T, E>(callback: nat -> Attempt<T, E>, s: Settings)
    requires forall i :: 0 <= i < Attempts(s) ==> callback(i).Failure?
    ensures Expected(callback, s).outcome == Thrown(callback(Attempts(s) - 1).error)
    ensures var t := Expected(callback, s).trace;
      && |t| == 2 * Attempts(s)
      && (forall j :: 0 <= j < |t| ==> t[j] == LoopEvent(j, s.delay))
      && CallCount(t) == Attempts(s)
      && SleepCount(t) == Attempts(s)
      && TimeSlept(t) == Attempts(s) * s.delay
  {
    var n := Attempts(s);
    BelowAttemptsContinues(s, n - 1);
    ExpectedOnExhaustion(callback, s, n);
    FailedAttemptsTotals(n, s.delay);
  }

  /** Any `m >= 1` at which the loop stops, and before which it does not, is
      the number of attempts. */
  lemma AttemptsIsLeast(s: Settings, m: nat)
    requires 1 <= m && Stops(s, m)
    requires forall j :: 1 <= j < m ==> !Stops(s, j)
    ensures Attempts(s) == m
  {
    var n := Attempts(s);
    var stopsAtN := Stops(s, n);
    assert n < m ==> !stopsAtN;
    assert m < n ==> !Stops(s, m);
  }

  lemma MulMonotone(a: int, b: int, d: int)
    requires a <= b && d >= 0
    ensures a * d <= b * d
  {
  }

  /** With a positive delay and a positive timeout the time budget allows
      `ceil(timeout / delay)` calls, and the attempt budget `max(retries, 1)`. */
  lemma AttemptsWithPositiveDelay(s: Settings)
    requires s.delay > 0 && s.timeout > 0
    ensures Attempts(s) == Min(Max(s.retries, 1), (s.timeout + s.delay - 1) / s.delay)
  {
    var c := (s.timeout + s.delay - 1) / s.delay;
    var r := (s.timeout + s.delay - 1) % s.delay;
    assert c * s.delay + r == s.timeout + s.delay - 1;
    assert c * s.delay >= s.timeout;
    assert (c - 1) * s.delay < s.timeout;
    assert c >= 1;
    var m := Min(Max(s.retries, 1), c);
    assert m >= c ==> m * s.delay >= s.timeout by {
      if m >= c { MulMonotone(c, m, s.delay); }
    }
    TimeSleptAfterIsProduct(m, s.delay);
    forall j | 1 <= j < m
      ensures !Stops(s, j)
    {
      MulMonotone(j, c - 1, s.delay);
      TimeSleptAfterIsProduct(j, s.delay);
    }
    AttemptsIsLeast(s, m);
  }

  /** With no options at all (timeout 5000, delay 100, retries MAX_SAFE_INTEGER)
      a callback that always fails is called exactly 50 times, and `retry`
      throws the 50th error after sleeping 5000 milliseconds in all. */
  lemma AllDefaultsTryFiftyTimes<T, E>(callback: nat -> Attempt<T, E>)
    requires forall i :: 0 <= i < 50 ==> callback(i).Failure?
    ensures Attempts(Resolve(RetryOptions(None, None, None))) == 50
    ensures Expected(callback, Resolve(RetryOptions(None, None, None))).outcome == Thrown(callback(49).error)
    ensures TimeSlept(Expected(callback, Resolve(RetryOptions(None, None, None))).trace) == 5000
  {
    var s := Resolve(RetryOptions(None, None, None));
    assert s == Settings(MAX_SAFE_INTEGER, 5000, 100);
    AttemptsWithPositiveDelay(s);
    assert Attempts(s) == 50;
    ExhaustionThrowsLastError(callback, s);
  }

  /** A timeout of 0 does not mean "unbounded": with a non-negative delay the
      guard `timeSlept < timeout` is false after the first call, so exactly one
      call is made, although `retries` then defaults to 10. */
  lemma ZeroTimeoutMakesOneAttempt<T, E>(callback: nat -> Attempt<T, E>, options: RetryOptions)
    requires options.timeout == Some(0)
    requires options.delay.GetOr(DEFAULT_DELAY) >= 0
    ensures options.retries.None? ==> Resolve(options).retries == 10
    ensures Attempts(Resolve(options)) == 1
    ensures CallCount(Expected(callback, Resolve(options)).trace) == 1
  {
    var s := Resolve(options);
    AttemptsIsLeast(s, 1);
    if callback(0).Success? {
      SuccessIsReturned(callback, s, 0);
    } else {
      ExhaustionThrowsLastError(callback, s);
    }
  }

  /** With an unbounded attempt budget, delay 100 and timeout 250, a callback
      that always fails is called 3 times: after the third failure 300 >= 250. */
  lemma TimeoutBoundsAttempts()
    ensures Attempts(Settings(MAX_SAFE_INTEGER, 250, 100)) == 3
  {
    AttemptsWithPositiveDelay(Settings(MAX_SAFE_INTEGER, 250, 100));
  }
}
