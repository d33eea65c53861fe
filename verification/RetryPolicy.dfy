// Classification and bounded retry of Google operations (server/integrations/google.py:99-135,
// :243-268, :325-376).  Seconds are real numbers.

module RetryPolicy {
  import opened Common

  datatype ProviderError =
    | Timeout
    | Unavailable(status: Option<int>, retryAfter: Option<real>)
    | Quota(status: Option<int>, retryAfter: Option<real>)
    | Rejected(status: Option<int>)
    | Authentication(status: Option<int>)
    | Internal

  datatype Safety = Read | IdempotentWrite | AmbiguousWrite

  datatype Category = Retryable | Permanent | AuthenticationFailure | QuotaFailure | AmbiguousFailure | InternalFailure

  datatype Classification = Classification(category: Category, retryAfter: Option<real>) {
    predicate CanRetry() { category.Retryable? || category.QuotaFailure? }
  }

  function Classify(error: ProviderError, safety: Safety): Classification {
    if safety.AmbiguousWrite? && (error.Timeout? || error.Unavailable? || error.Quota?)
    then Classification(AmbiguousFailure, None)
    else
      match error
      case Authentication(_) => Classification(AuthenticationFailure, None)
      case Quota(_, retryAfter) => Classification(QuotaFailure, retryAfter)
      case Timeout => Classification(Retryable, None)
      case Unavailable(_, retryAfter) => Classification(Retryable, retryAfter)
      case Rejected(_) => Classification(Permanent, None)
      case Internal => Classification(InternalFailure, None)
  }

  // What the SDK raises.
  datatype RawError =
    | DeadlineExceeded
    | CapacityExceeded
    | Http(code: Option<int>, retryAfter: Option<real>, quotaReason: bool)
    | TransportError
    | OtherError

  function Translate(error: RawError): ProviderError {
    match error
    case DeadlineExceeded => Timeout
    case CapacityExceeded => Unavailable(None, None)
    case Http(code, retryAfter, quotaReason) =>
      if code == Some(403) && quotaReason then Quota(code, retryAfter)
      else if code == Some(401) || code == Some(403) then Authentication(code)
      else if code == Some(429) then Quota(code, retryAfter)
      else if code.Some? && code.value >= 500 then Unavailable(code, retryAfter)
      else Rejected(code)
    case TransportError => Unavailable(None, None)
    case OtherError => Internal
  }

  // The settings of server/config.py:112-115 and :330-335.
  datatype Config = Config(timeout: real, maxAttempts: int, initial: real, maximum: real, deadline: real) {
    predicate Valid() {
      timeout > 0.0 && 1 <= maxAttempts && 0.0 < initial <= maximum && deadline > 0.0
    }
  }

  function Doubled(seconds: real, times: nat): real {
    if times == 0 then seconds else 2.0 * Doubled(seconds, times - 1)
  }

  function Exponential(cfg: Config, attempt: int): real {
    var raw := Doubled(cfg.initial, Max(0, attempt - 1));
    if raw <= cfg.maximum then raw else cfg.maximum
  }

  function Jittered(seconds: real, random: real): real {
    seconds * random
  }

  function RetryDelay(cfg: Config, attempt: int, retryAfter: Option<real>, random: real): real {
    var jittered, floor := Jittered(Exponential(cfg, attempt), random), retryAfter.GetOr(0.0);
    if jittered >= floor then jittered else floor
  }

  // ---------- Properties of classification and delay ----------

  // No failure of an ambiguous write is ever retried.
  lemma AmbiguousIsNeverRetried(error: ProviderError)
    ensures !Classify(error, AmbiguousWrite).CanRetry()
  {
  }

  // For the other operations exactly these failures are: deadline, capacity, transport, 429, 5xx,
  // and a 403 whose body names a quota or rate limit.
  lemma RetriedFailures(error: RawError, safety: Safety)
    requires !safety.AmbiguousWrite?
    ensures Classify(Translate(error), safety).CanRetry() <==>
            || error.DeadlineExceeded? || error.CapacityExceeded? || error.TransportError?
            || (error.Http? && error.code.Some? &&
                (error.code.value == 429 || error.code.value >= 500 || (error.code.value == 403 && error.quotaReason)))
  {
  }

  // Section 10.2.3 of RFC 9110: never retry before Retry-After; otherwise at most the cap.
  lemma DelayBounds(cfg: Config, attempt: int, retryAfter: Option<real>, random: real)
    requires cfg.Valid() && 0.0 <= random < 1.0
    ensures var d := RetryDelay(cfg, attempt, retryAfter, random);
            && d >= 0.0
            && (retryAfter.Some? ==> d >= retryAfter.value)
            && (d <= cfg.maximum || (retryAfter.Some? && d == retryAfter.value))
            && (retryAfter.None? && attempt <= 1 ==> d < cfg.initial)
  {
    ExponentialBounds(cfg, attempt);
    JitterShrinks(Exponential(cfg, attempt), random);
    hide Exponential, Jittered;
  }

  lemma ExponentialBounds(cfg: Config, attempt: int)
    requires cfg.Valid()
    ensures 0.0 < Exponential(cfg, attempt) <= cfg.maximum
    ensures attempt <= 1 ==> Exponential(cfg, attempt) == cfg.initial
  {
    DoubledIsPositive(cfg.initial, Max(0, attempt - 1));
  }

  // The backoff is the initial one before the first retry and doubles with each attempt up to the
  // cap; of it a random part is waited, but never less than Retry-After.
  lemma DelaysDouble(cfg: Config, attempt: int, retryAfter: Option<real>, random: real)
    requires cfg.Valid()
    ensures attempt <= 1 ==> Exponential(cfg, attempt) == cfg.initial
    ensures attempt >= 1 ==>
              Exponential(cfg, attempt + 1) ==
              if 2.0 * Exponential(cfg, attempt) <= cfg.maximum then 2.0 * Exponential(cfg, attempt) else cfg.maximum
    ensures var d := RetryDelay(cfg, attempt, retryAfter, random);
            var floor := if retryAfter.Some? then retryAfter.value else 0.0;
            && d >= floor && d >= Exponential(cfg, attempt) * random
            && (d == floor || d == Exponential(cfg, attempt) * random)
  {
    if attempt >= 1 {
      DoubledIsPositive(cfg.initial, attempt - 1);
      assert Doubled(cfg.initial, attempt) == 2.0 * Doubled(cfg.initial, attempt - 1);
    }
  }

  // The wait that a response asks for is passed on with every failure that is retried.
  lemma RetryAfterIsPassedOn(error: RawError, safety: Safety)
    ensures var c := Classify(Translate(error), safety);
            c.CanRetry() ==> c.retryAfter == if error.Http? then error.retryAfter else None
  {
  }

  lemma JitterShrinks(whole: real, random: real)
    requires whole > 0.0 && 0.0 <= random < 1.0
    ensures 0.0 <= Jittered(whole, random) < whole
  {
  }

  lemma {:induction false} DoubledIsPositive(seconds: real, times: nat)
    requires seconds > 0.0
    ensures Doubled(seconds, times) > 0.0
  {
    if times > 0 {
      DoubledIsPositive(seconds, times - 1);
    }
  }

  // ---------- The retry loop ----------

  datatype Outcome<+T> = Success(value: T) | Failure(error: ProviderError) | Cancelled

  // What one pass of the loop meets: the clock at its head, how the operation ends, the clock and
  // the random number after a failure.
  datatype Try<+T> = Try(head: real, outcome: Outcome<T>, after: real, random: real)

  // What one pass does: the attempt with its timeout, and the wait after it.
  datatype Made = Made(at: real, timeout: real, wait: Option<real>)

  function Delay<T>(cfg: Config, safety: Safety, tries: seq<Try<T>>, k: nat): real
    requires k < |tries| && tries[k].outcome.Failure?
  {
    RetryDelay(cfg, k + 1, Classify(tries[k].outcome.error, safety).retryAfter, tries[k].random)
  }

  // The failure of attempt k (counted from 0) may be followed by another attempt.
  predicate MayRetry<T>(cfg: Config, safety: Safety, tries: seq<Try<T>>, k: nat, deadline: real)
    requires k < |tries| && tries[k].outcome.Failure?
  {
    && Classify(tries[k].outcome.error, safety).CanRetry()
    && k + 1 < cfg.maxAttempts
    && tries[k].after + Delay(cfg, safety, tries, k) < deadline
  }

  // A pass that was followed by a wait.
  predicate Waited<T>(cfg: Config, safety: Safety, tries: seq<Try<T>>, made: Made, k: nat, deadline: real)
    requires k < |tries|
  {
    && tries[k].outcome.Failure? && MayRetry(cfg, safety, tries, k, deadline)
    && made.wait == Some(Delay(cfg, safety, tries, k))
  }

  // Every attempt starts before the deadline and cannot outlast it.
  predicate InBudget<T>(cfg: Config, tries: seq<Try<T>>, made: Made, k: nat, deadline: real)
    requires k < |tries|
  {
    && made.at == tries[k].head < deadline
    && 0.0 < made.timeout <= cfg.timeout && made.at + made.timeout <= deadline
  }

  // `run_google_retryable_operation`.  The result is exact: a success or failure is that of the last
  // attempt, a failure is raised as soon as it may not be retried and not before, and a deadline
  // that passes while waiting raises a timeout.  The raise after the loop is never reached.
  method RunRetryable<T>(cfg: Config, safety: Safety, start: real, tries: seq<Try<T>>)
    returns (result: Outcome<T>, trace: seq<Made>, fellThrough: bool)
    requires cfg.Valid() && |tries| >= cfg.maxAttempts
    ensures !fellThrough
    ensures |trace| <= cfg.maxAttempts && |trace| <= |tries|
    ensures safety.AmbiguousWrite? ==> |trace| == 1 && trace[0].wait.None? && result == tries[0].outcome
    ensures !safety.AmbiguousWrite? ==>
              var deadline := start + cfg.deadline;
              && (forall k :: 0 <= k < |trace| ==> InBudget(cfg, tries, trace[k], k, deadline))
              && (forall k :: 0 <= k < |trace| - 1 ==> Waited(cfg, safety, tries, trace[k], k, deadline))
              && if |trace| > 0 && trace[|trace| - 1].wait.None? then
                   var last := |trace| - 1;
                   result == tries[last].outcome && (result.Failure? ==> !MayRetry(cfg, safety, tries, last, deadline))
                 else
                   && (|trace| > 0 ==> Waited(cfg, safety, tries, trace[|trace| - 1], |trace| - 1, deadline))
                   && |trace| < cfg.maxAttempts && tries[|trace|].head >= deadline && result == Failure(Timeout)
  {
    trace, fellThrough := [], false;
    if safety.AmbiguousWrite? {
      trace := [Made(tries[0].head, cfg.timeout, None)];
      return tries[0].outcome, trace, false;
    }
    var deadline := start + cfg.deadline;
    for attempt := 1 to cfg.maxAttempts + 1
      invariant attempt <= cfg.maxAttempts && |trace| == attempt - 1
      invariant forall k :: 0 <= k < |trace| ==> InBudget(cfg, tries, trace[k], k, deadline)
      invariant forall k :: 0 <= k < |trace| ==> Waited(cfg, safety, tries, trace[k], k, deadline)
    {
      var pass := tries[attempt - 1];
      var remainingDuration := deadline - pass.head;
      if remainingDuration <= 0.0 {
        return Failure(Timeout), trace, false;
      }
      var attemptTimeout := if cfg.timeout <= remainingDuration then cfg.timeout else remainingDuration;
      if !pass.outcome.Failure? {
        trace := trace + [Made(pass.head, attemptTimeout, None)];
        return pass.outcome, trace, false;
      }
      var failure := Classify(pass.outcome.error, safety);
      if !failure.CanRetry() || attempt >= cfg.maxAttempts {
        trace := trace + [Made(pass.head, attemptTimeout, None)];
        return pass.outcome, trace, false;
      }
      var delay := RetryDelay(cfg, attempt, failure.retryAfter, pass.random);
      if pass.after + delay >= deadline {
        trace := trace + [Made(pass.head, attemptTimeout, None)];
        return pass.outcome, trace, false;
      }
      trace := trace + [Made(pass.head, attemptTimeout, Some(delay))];
    }
    assert false;
    return Failure(Internal), trace, true;
  }
}
