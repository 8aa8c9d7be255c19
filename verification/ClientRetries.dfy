/** When a request is tried again, told by the failures themselves. */
module ClientRetries {
  import opened Options
  import opened Backoff
  import opened ClientSpec
  import opened ClientTheorems

  /** A failure of the service or of the way to it, which the next attempt may not meet. */
  predicate IsTransient(failure: Failure) {
    || failure in {SystemUnavailable, NetworkFailure, TimedOut}
    || failure.RateLimited?
    || (failure.ApiResponse? && failure.status >= 500)
  }

  lemma WorthRetryingIsTransient(failure: Failure)
    ensures IsWorthRetrying(failure) <==> IsTransient(failure)
  {
  }

  /** Of the failures worth retrying, only a rate limit may ask for a wait of its own. */
  lemma OnlyARateLimitAsks(failure: Failure)
    requires IsTransient(failure)
    ensures RequestedDelayMs(failure) == if failure.RateLimited? then failure.retryAfterMs else None
  {
  }

  predicate AsksTooMuch(config: Config, failure: Failure) {
    failure.RateLimited? && failure.retryAfterMs.Some? && failure.retryAfterMs.value > config.maxDelayMs
  }

  /**
   * A read that failed ended in the abort of a wait, in a failure that is not transient, in a rate
   * limit asking for more than the ceiling, or with as many tries made as are allowed.
   */
  lemma ReadsPersistUntil(config: Config, world: Scenario)
    requires ReadRequest(config, world).failure.Some?
    ensures var course := ReadRequest(config, world);
            && course.acts != []
            && (|| course.acts[|course.acts| - 1].WaitAborted?
                || !IsTransient(course.failure.value)
                || AsksTooMuch(config, course.failure.value)
                || Waits(course.acts) + 1 == Max(1, config.maxAttempts))
  {
    ReadsGiveUpOnlyWhen(config, world);
    var failure := ReadRequest(config, world).failure.value;
    WorthRetryingIsTransient(failure);
    if IsTransient(failure) {
      OnlyARateLimitAsks(failure);
    }
    hide ReadRequest, IsWorthRetrying, IsTransient, Waits;
  }

  /** A read waits only after a transient failure, and never less than a rate limit asked for. */
  lemma WaitsFollowTransientFailures(config: Config, world: Scenario, i: nat)
    requires i < |ReadRequest(config, world).acts|
    requires ReadRequest(config, world).acts[i].Waited? || ReadRequest(config, world).acts[i].WaitAborted?
    ensures var acts := ReadRequest(config, world).acts;
            && i >= 1 && FailureOf(acts[i - 1]).Some?
            && var failure := FailureOf(acts[i - 1]).value;
               && IsTransient(failure) && !AsksTooMuch(config, failure) && acts[i].ms <= config.maxDelayMs
               && (failure.RateLimited? && failure.retryAfterMs.Some? ==> failure.retryAfterMs.value <= acts[i].ms)
  {
    hide ReadRequest;
    ReadsAreOrderly(config, world);
    var acts := ReadRequest(config, world).acts;
    assert WaitIsDue(config, acts, i);
    WorthRetryingIsTransient(FailureOf(acts[i - 1]).value);
    OnlyARateLimitAsks(FailureOf(acts[i - 1]).value);
    hide IsOrderly, IsTransient, IsWorthRetrying, FailureOf, RequestedDelayMs;
  }

  /** The delay is the backoff's own, or the longer one that was asked for, and there is none exactly when that is too long. */
  lemma DelayIsTheLonger(failure: Failure, attempt: nat, config: Config, random: Draw)
    requires attempt >= 1 && IsTransient(failure)
    ensures var backoffMs := ComputeBackoffMs(attempt, config.baseDelayMs, config.maxDelayMs, random);
            var delay := ResolveDelayMs(failure, attempt, config, random);
            && (delay.None? <==> AsksTooMuch(config, failure))
            && (!failure.RateLimited? || failure.retryAfterMs.None? ==> delay == Some(backoffMs))
            && (failure.RateLimited? && failure.retryAfterMs.Some? && delay.Some? ==>
                  && delay.value >= backoffMs && delay.value >= failure.retryAfterMs.value
                  && delay.value in {backoffMs, failure.retryAfterMs.value})
  {
    OnlyARateLimitAsks(failure);
    DelayIsDue(failure, attempt, config, random);
  }

  /** An attempt that a read replays on a fresh session: an expired session, or an answer that is not the service's. */
  predicate HasLapsed(failure: Option<Failure>, replay: Replay) {
    failure == Some(SessionExpired) || (replay == OnLapse && failure == Some(ApiParse))
  }

  /**
   * An attempt is made over exactly when its session had lapsed, once, on a new session; the second
   * attempt's outcome is then the whole of it. A write is made over for a 401 and nothing else.
   */
  lemma MadeOverExactlyWhen(world: Scenario, from: nat, replay: Replay)
    ensures var first, second := Guarded(world.attemptAt(from)), Guarded(world.attemptAt(from + 1));
            var course := Recovered(world, from, replay);
            if HasLapsed(first.failure, replay) then
              course.used == 2 && course.failure == second.failure && course.acts == first.acts + [Invalidated] + second.acts
            else
              course.used == 1 && course.failure == first.failure && course.acts == first.acts
  {
  }

  /** What stops an attempt: the first of session, pacing and breaker to say no, and else the answer. */
  lemma AttemptEndsWhere(a: Attempt)
    ensures var failure := Guarded(a).failure;
            && (a.login.Some? ==> failure == a.login && Sends(Guarded(a).acts) == 0)
            && (a.login.None? && a.pacing != Granted ==>
                  failure.Some? && failure.value in {PacingRefused, Aborted} && Sends(Guarded(a).acts) == 0)
            && (a.login.None? && a.pacing == Granted && a.isCircuitOpen ==>
                  failure == Some(CircuitOpen) && Sends(Guarded(a).acts) == 0)
            && (a.login.None? && a.pacing == Granted && !a.isCircuitOpen ==>
                  failure == a.answer && Sends(Guarded(a).acts) == 1)
  {
    GuardedCounts(a);
    hide Sends;
  }

  /** No attempt of this world gets through, each for a transient reason that asks for no long wait, and nobody aborts. */
  ghost predicate IsTransientlyDown(config: Config, world: Scenario) {
    && (forall n: nat :: var failure := Guarded(world.attemptAt(n)).failure;
          failure.Some? && IsTransient(failure.value) && !AsksTooMuch(config, failure.value))
    && (forall n: nat :: !world.isWaitAborted(n))
  }

  /** In such a world a read makes every try it is allowed, one wait between each two, and then fails. */
  lemma {:induction false} DownMeansEveryTryIsMade(config: Config, world: Scenario, from: nat, attempt: nat)
    requires attempt >= 1 && IsTransientlyDown(config, world)
    ensures var course := Retried(config, world, from, attempt);
            var left := Max(1, config.maxAttempts - attempt + 1);
            course.failure.Some? && course.used == left && Waits(course.acts) == left - 1
    decreases config.maxAttempts - attempt
  {
    hide Waits, Guarded, IsTransient, AsksTooMuch, ResolveDelayMs, IsWorthRetrying;
    var tried := Recovered(world, from, OnLapse);
    RecoveredCounts(world, from, OnLapse);
    MadeOverExactlyWhen(world, from, OnLapse);
    NoLapseIsTransient(Guarded(world.attemptAt(from)).failure.value);
    WorthRetryingIsTransient(tried.failure.value);
    if attempt < config.maxAttempts {
      DelayIsTheLonger(tried.failure.value, attempt, config, world.drawAt(attempt));
      var delay := ResolveDelayMs(tried.failure.value, attempt, config, world.drawAt(attempt));
      var rest := Retried(config, world, from + tried.used, attempt + 1);
      DownMeansEveryTryIsMade(config, world, from + tried.used, attempt + 1);
      CountsOfOne(Waited(delay.value));
      CountsAdd(tried.acts, [Waited(delay.value)]);
      CountsAdd(tried.acts + [Waited(delay.value)], rest.acts);
    }
  }

  lemma NoLapseIsTransient(failure: Failure)
    requires IsTransient(failure)
    ensures !HasLapsed(Some(failure), OnLapse)
  {
  }

  lemma OutagesAreRetriedToTheLast(config: Config, world: Scenario)
    requires IsTransientlyDown(config, world)
    ensures var course := ReadRequest(config, world);
            && course.failure.Some? && course.used == Max(1, config.maxAttempts)
            && Waits(course.acts) == course.used - 1
  {
    DownMeansEveryTryIsMade(config, world, 0, 1);
    hide IsTransientlyDown;
  }
}
