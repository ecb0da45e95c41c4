/** The retry policy of platform calls and of history requests, and the
    optional-to-stream conversion. A failing call is retried under retryWhen:
    its stream of errors is paired with a finite counter range, each pair is
    turned into either one timed wait (then a new attempt) or the surfacing of
    the original error, and when that stream of signals itself completes the
    retried call completes. The timers are a recorded delay here. */
module StreamUtil {
  import opened Orders

  /** A call failure: the platform's rejection of an order call, or any other
      (unexpected) error. */
  datatype CallError = OrderCallReject(event: OrderEvent) | UnexpectedError(code: nat)

  /** The configured retry parameters (delays in milliseconds). */
  datatype RetrySettings = RetrySettings(
    delayOnOrderFailRetry: nat,
    maxRetriesOnOrderFail: nat,
    delayOnHistoryFailRetry: nat,
    maxRetriesOnHistoryFail: nat)

  /** What the error filter makes of one error: hand it on to be counted, or
      raise it at once. */
  datatype Filtered = PassOn(error: CallError) | RaiseNow(error: CallError)

  /** Rejections are handed on to the retry counter; any other error is raised
      unchanged. */
  function FilterCallErrorType(error: CallError): (r: Filtered)
    ensures r.error == error
    ensures r.PassOn? <==> error.OrderCallReject?
  {
    if error.OrderCallReject? then PassOn(error) else RaiseNow(error)
  }

  /** Observable.range(start, count): count consecutive integers from start. */
  function CounterRange(start: int, count: nat): (r: seq<int>)
    ensures |r| == count
    ensures forall i :: 0 <= i < count ==> r[i] == start + i
    decreases count
  {
    if count == 0 then [] else [start] + CounterRange(start + 1, count - 1)
  }

  /** The retry counters for a bound: 1, 2, ..., maxRetries + 1. */
  function RetryCounter(maxRetries: nat): (r: seq<int>)
    ensures |r| == maxRetries + 1 && r[0] == 1 && r[maxRetries] == maxRetries + 1
    ensures forall i :: 0 <= i < |r| ==> r[i] == i + 1
  {
    CounterRange(1, maxRetries + 1)
  }

  /** The answer to one failed attempt: wait and try again, or surface an error. */
  datatype RetrySignal = Wait(delay: nat) | Surface(error: CallError)

  /** An error paired with a counter above the bound surfaces as itself;
      otherwise the call waits for the delay and is retried. */
  function EvaluateRetryPair(error: CallError, counter: int, delay: nat, maxRetries: int): (r: RetrySignal)
    ensures r.Surface? <==> counter > maxRetries
    ensures r.Surface? ==> r.error == error
    ensures r.Wait? ==> r.delay == delay
  {
    if counter > maxRetries then Surface(error) else Wait(delay)
  }

  /** How a retried call ends: an attempt succeeds, an error surfaces, or the
      retry signals run out and the call completes without either. */
  datatype RetryEnd = Succeeded | Failed(error: CallError) | CompletedSilently

  /** The waits the retry asked for, in order, and how the call ended. */
  datatype RetryOutcome = RetryOutcome(waits: seq<nat>, end: RetryEnd)

  /** The number of attempts behind an outcome that ended with an attempt. */
  function Attempts(o: RetryOutcome): nat
  {
    |o.waits| + 1
  }

  function Repeat(delay: nat, n: nat): (r: seq<nat>)
    ensures |r| == n && forall i :: 0 <= i < n ==> r[i] == delay
  {
    seq(n, _ => delay)
  }

  /** A call retried under retryWhen: errors[i] is how attempt i + 1 failed, and
      the attempt after the last error succeeds. When filtered, each error passes
      through FilterCallErrorType before it is paired with the next counter. */
  function RetryWhen(errors: seq<CallError>, counters: seq<int>, delay: nat, maxRetries: int, filtered: bool): (r: RetryOutcome)
    ensures |r.waits| <= |errors| && |r.waits| <= |counters|
    ensures forall i :: 0 <= i < |r.waits| ==> r.waits[i] == delay && counters[i] <= maxRetries
    ensures r.end == Succeeded ==> |r.waits| == |errors|
    decreases |errors|
  {
    if errors == [] then RetryOutcome([], Succeeded)
    else if filtered && FilterCallErrorType(errors[0]).RaiseNow? then RetryOutcome([], Failed(errors[0]))
    else if counters == [] then RetryOutcome([], CompletedSilently)
    else
      match EvaluateRetryPair(errors[0], counters[0], delay, maxRetries)
      case Surface(e) => RetryOutcome([], Failed(e))
      case Wait(d) =>
        var rest := RetryWhen(errors[1..], counters[1..], delay, maxRetries, filtered);
        RetryOutcome([d] + rest.waits, rest.end)
  }

  /** retryOnRejectObservable applied to a call. */
  function RetryOnReject(errors: seq<CallError>, settings: RetrySettings): (r: RetryOutcome)
    ensures |r.waits| <= settings.maxRetriesOnOrderFail
    ensures forall i :: 0 <= i < |r.waits| ==> r.waits[i] == settings.delayOnOrderFailRetry
  {
    RetryWhen(errors, RetryCounter(settings.maxRetriesOnOrderFail),
              settings.delayOnOrderFailRetry, settings.maxRetriesOnOrderFail, true)
  }

  /** retryOnHistoryFailObservable as written: every error is counted, the
      counter range is the one for a bound of 5, and the comparison uses the
      configured bound. */
  function RetryOnHistoryFailAsWritten(errors: seq<CallError>, settings: RetrySettings): (r: RetryOutcome)
    ensures |r.waits| <= 6 && |r.waits| <= settings.maxRetriesOnHistoryFail
    ensures forall i :: 0 <= i < |r.waits| ==> r.waits[i] == settings.delayOnHistoryFailRetry
  {
    var counters := RetryCounter(5);
    assert settings.maxRetriesOnHistoryFail < 6 ==>
             counters[settings.maxRetriesOnHistoryFail] == settings.maxRetriesOnHistoryFail + 1;
    RetryWhen(errors, counters, settings.delayOnHistoryFailRetry, settings.maxRetriesOnHistoryFail, false)
  }

  /** retryOnHistoryFailObservable with its counter range taken from the
      configured bound, as the comparison it feeds evidently intends. */
  function RetryOnHistoryFail(errors: seq<CallError>, settings: RetrySettings): (r: RetryOutcome)
    ensures |r.waits| <= settings.maxRetriesOnHistoryFail
    ensures forall i :: 0 <= i < |r.waits| ==> r.waits[i] == settings.delayOnHistoryFailRetry
  {
    RetryWhen(errors, RetryCounter(settings.maxRetriesOnHistoryFail),
              settings.delayOnHistoryFailRetry, settings.maxRetriesOnHistoryFail, false)
  }

  /** Stream.of(value) for a present optional, the empty stream otherwise. */
  function OptionalStream<T>(o: Option<T>): (s: seq<T>)
    ensures |s| <= 1
    ensures s == [] <==> o.None?
    ensures o.Some? ==> s[0] == o.value
  {
    if o.Some? then [o.value] else []
  }

  /** Stream.findFirst. */
  function FindFirst<T>(s: seq<T>): Option<T>
  {
    if s == [] then None else Some(s[0])
  }

  // ---------------------------------------------------------------------------
  // Properties of the retry policy

  /** The first n failures, each counted (a rejection, or any error when not
      filtered) against a counter within the bound, each cost one wait of the
      configured delay; the rest of the outcome is decided by what follows. */
  lemma {:induction false} CountedFailuresWait(errors: seq<CallError>, counters: seq<int>, delay: nat,
                                               maxRetries: int, filtered: bool, n: nat)
    requires n <= |errors| && n <= |counters|
    requires forall i :: 0 <= i < n ==> !filtered || errors[i].OrderCallReject?
    requires forall i :: 0 <= i < n ==> counters[i] <= maxRetries
    ensures var rest := RetryWhen(errors[n..], counters[n..], delay, maxRetries, filtered);
            RetryWhen(errors, counters, delay, maxRetries, filtered)
              == RetryOutcome(Repeat(delay, n) + rest.waits, rest.end)
    decreases n
  {
    if n > 0 {
      CountedFailuresWait(errors[1..], counters[1..], delay, maxRetries, filtered, n - 1);
      assert errors[1..][n - 1..] == errors[n..];
      assert counters[1..][n - 1..] == counters[n..];
      var rest := RetryWhen(errors[n..], counters[n..], delay, maxRetries, filtered);
      var next := RetryWhen(errors[1..], counters[1..], delay, maxRetries, filtered);
      assert EvaluateRetryPair(errors[0], counters[0], delay, maxRetries) == Wait(delay);
      assert RetryWhen(errors, counters, delay, maxRetries, filtered) == RetryOutcome([delay] + next.waits, next.end);
      assert [delay] + (Repeat(delay, n - 1) + rest.waits) == Repeat(delay, n) + rest.waits;
    }
  }

  /** With k = maxRetriesOnOrderFail, a call rejected k + 1 times is retried k
      times, each after the configured delay, and the (k + 1)-th rejection
      surfaces unchanged: k + 1 attempts in all. */
  lemma RejectRetryBound(errors: seq<CallError>, settings: RetrySettings)
    requires |errors| > settings.maxRetriesOnOrderFail
    requires forall i :: 0 <= i <= settings.maxRetriesOnOrderFail ==> errors[i].OrderCallReject?
    ensures var k := settings.maxRetriesOnOrderFail;
            && RetryOnReject(errors, settings) == RetryOutcome(Repeat(settings.delayOnOrderFailRetry, k), Failed(errors[k]))
            && Attempts(RetryOnReject(errors, settings)) == k + 1
  {
    var k := settings.maxRetriesOnOrderFail;
    CountedFailuresWait(errors, RetryCounter(k), settings.delayOnOrderFailRetry, k, true, k);
  }

  /** A call rejected at most k times is retried after each rejection and ends
      with the succeeding attempt. */
  lemma RejectRetrySucceeds(errors: seq<CallError>, settings: RetrySettings)
    requires |errors| <= settings.maxRetriesOnOrderFail
    requires forall i :: 0 <= i < |errors| ==> errors[i].OrderCallReject?
    ensures RetryOnReject(errors, settings)
            == RetryOutcome(Repeat(settings.delayOnOrderFailRetry, |errors|), Succeeded)
  {
    var k := settings.maxRetriesOnOrderFail;
    CountedFailuresWait(errors, RetryCounter(k), settings.delayOnOrderFailRetry, k, true, |errors|);
  }

  /** An error that is not a rejection surfaces at the attempt that produced it,
      without a wait for it: a fatal first error ends the call after exactly one
      attempt. */
  lemma UnexpectedErrorSurfacesAtOnce(errors: seq<CallError>, settings: RetrySettings, i: nat)
    requires i < |errors| && i <= settings.maxRetriesOnOrderFail
    requires forall j :: 0 <= j < i ==> errors[j].OrderCallReject?
    requires !errors[i].OrderCallReject?
    ensures RetryOnReject(errors, settings)
            == RetryOutcome(Repeat(settings.delayOnOrderFailRetry, i), Failed(errors[i]))
  {
    var k := settings.maxRetriesOnOrderFail;
    CountedFailuresWait(errors, RetryCounter(k), settings.delayOnOrderFailRetry, k, true, i);
  }

  /** Whenever the last counter exceeds the bound, the signals cannot run out
      first: the call ends with a success or a surfaced error. */
  lemma {:induction false} NeverSilentWhenRangeExceedsBound(errors: seq<CallError>, start: int, count: nat,
                                                            delay: nat, maxRetries: int, filtered: bool)
    requires count >= 1 && start + count - 1 > maxRetries
    ensures RetryWhen(errors, CounterRange(start, count), delay, maxRetries, filtered).end != CompletedSilently
    decreases |errors|
  {
    if errors != [] && start <= maxRetries {
      assert CounterRange(start, count)[1..] == CounterRange(start + 1, count - 1);
      NeverSilentWhenRangeExceedsBound(errors[1..], start + 1, count - 1, delay, maxRetries, filtered);
    }
  }

  /** A surfaced error is always one of the call's own errors. */
  lemma {:induction false} SurfacedErrorIsOriginal(errors: seq<CallError>, counters: seq<int>, delay: nat,
                                                   maxRetries: int, filtered: bool)
    ensures var o := RetryWhen(errors, counters, delay, maxRetries, filtered);
            o.end.Failed? ==> o.end.error in errors
    decreases |errors|
  {
    if errors != [] && |counters| > 0 {
      SurfacedErrorIsOriginal(errors[1..], counters[1..], delay, maxRetries, filtered);
    }
  }

  /** The order-call retry never ends silently. */
  lemma RejectRetryNeverSilent(errors: seq<CallError>, settings: RetrySettings)
    ensures RetryOnReject(errors, settings).end != CompletedSilently
  {
    var k := settings.maxRetriesOnOrderFail;
    NeverSilentWhenRangeExceedsBound(errors, 1, k + 1, settings.delayOnOrderFailRetry, k, true);
  }

  /** The history retry as written, with any configured bound of 6 or more:
      seven or more failed attempts give six waits and then a silent
      completion; the seventh error never surfaces. */
  lemma HistoryRetryAsWrittenSwallowsError(settings: RetrySettings, errors: seq<CallError>)
    requires settings.maxRetriesOnHistoryFail >= 6
    requires |errors| >= 7
    ensures RetryOnHistoryFailAsWritten(errors, settings)
            == RetryOutcome(Repeat(settings.delayOnHistoryFailRetry, 6), CompletedSilently)
  {
    var counters := RetryCounter(5);
    CountedFailuresWait(errors, counters, settings.delayOnHistoryFailRetry, settings.maxRetriesOnHistoryFail, false, 6);
    assert counters[6..] == [] && errors[6..] != [];
  }

  /** The corrected history retry: with k = maxRetriesOnHistoryFail, any k + 1
      failures, of whatever kind, give k waits of the history delay and then
      the (k + 1)-th error surfaces. */
  lemma HistoryRetryBound(errors: seq<CallError>, settings: RetrySettings)
    requires |errors| > settings.maxRetriesOnHistoryFail
    ensures var k := settings.maxRetriesOnHistoryFail;
            RetryOnHistoryFail(errors, settings) == RetryOutcome(Repeat(settings.delayOnHistoryFailRetry, k), Failed(errors[k]))
  {
    var k := settings.maxRetriesOnHistoryFail;
    CountedFailuresWait(errors, RetryCounter(k), settings.delayOnHistoryFailRetry, k, false, k);
  }

  /** The corrected history retry never ends silently. */
  lemma HistoryRetryNeverSilent(errors: seq<CallError>, settings: RetrySettings)
    ensures RetryOnHistoryFail(errors, settings).end != CompletedSilently
  {
    var k := settings.maxRetriesOnHistoryFail;
    NeverSilentWhenRangeExceedsBound(errors, 1, k + 1, settings.delayOnHistoryFailRetry, k, false);
  }

  /** Up to a configured bound of 5 the history retry as written and the
      corrected one behave alike. */
  lemma HistoryRetryAsWrittenAgreesUpToFive(errors: seq<CallError>, settings: RetrySettings)
    requires settings.maxRetriesOnHistoryFail <= 5
    ensures RetryOnHistoryFailAsWritten(errors, settings) == RetryOnHistoryFail(errors, settings)
  {
    var k := settings.maxRetriesOnHistoryFail;
    var d := settings.delayOnHistoryFailRetry;
    var n := if |errors| < k then |errors| else k;
    CountedFailuresWait(errors, RetryCounter(5), d, k, false, n);
    CountedFailuresWait(errors, RetryCounter(k), d, k, false, n);
  }

  /** Turning an optional into a stream and taking its first element gives the
      optional back. */
  lemma OptionalStreamRoundTrip<T>(o: Option<T>)
    ensures FindFirst(OptionalStream(o)) == o
  {
  }
}
