/** The request path of `AlarmComClient` and the `withRetry` loop, proved to run `ClientSpec`'s courses. */
module Clients {
  import opened Options
  import opened Backoff
  import opened ClientSpec

  class AlarmComClient {
    const world: Scenario
    const config: Config

    var acts: seq<Act>
    var attempts: nat

    constructor (world: Scenario, config: Config)
      ensures this.world == world && this.config == config && acts == [] && attempts == 0
    {
      this.world, this.config := world, config;
      acts, attempts := [], 0;
    }

    /** `#guardedAttempt`: each stage in turn, the first failure ending it. */
    method GuardedAttempt() returns (failure: Option<Failure>)
      modifies this`acts, this`attempts
      ensures var course := Guarded(world.attemptAt(old(attempts)));
              && acts == old(acts) + course.acts && attempts == old(attempts) + 1 && failure == course.failure
    {
      var attempt := world.attemptAt(attempts);
      attempts := attempts + 1;
      if attempt.login.Some? {
        acts := acts + [NoSession(attempt.login.value)];
        return attempt.login;
      }
      acts := acts + [GotSession];
      match attempt.pacing
      case TooLong =>
        acts := acts + [NotPaced(PacingRefused)];
        return Some(PacingRefused);
      case Stopped =>
        acts := acts + [NotPaced(Aborted)];
        return Some(Aborted);
      case Granted =>
        acts := acts + [Paced];
        if attempt.isCircuitOpen {
          acts := acts + [Refused];
          return Some(CircuitOpen);
        }
        acts := acts + [Admitted];
        acts := acts + [Sent(attempt.answer)];
        return attempt.answer;
    }

    /** `#withSessionRecovery`: one more attempt on a fresh session, if the failure allows it. */
    method WithSessionRecovery(replay: Replay) returns (failure: Option<Failure>)
      modifies this`acts, this`attempts
      ensures var course := Recovered(world, old(attempts), replay);
              && acts == old(acts) + course.acts && attempts == old(attempts) + course.used && failure == course.failure
    {
      hide IsReplayable;
      failure := GuardedAttempt();
      UsedOne(world.attemptAt(old(attempts)));
      hide Guarded;
      if failure.Some? && IsReplayable(replay, failure.value) {
        acts := acts + [Invalidated];
        failure := GuardedAttempt();
      }
    }

    static lemma UsedOne(a: Attempt)
      ensures Guarded(a).used == 1
    {
    }

    /** `withRetry` around a read. */
    method Request() returns (failure: Option<Failure>)
      modifies this`acts, this`attempts
      ensures var course := Retried(config, world, old(attempts), 1);
              && acts == old(acts) + course.acts && attempts == old(attempts) + course.used && failure == course.failure
    {
      hide Recovered, IsWorthRetrying, ResolveDelayMs;
      ghost var whole := Retried(config, world, attempts, 1);
      var attempt := 1;
      while true
        invariant attempt >= 1
        invariant var rest := Retried(config, world, attempts, attempt);
                  && acts + rest.acts == old(acts) + whole.acts
                  && attempts + rest.used == old(attempts) + whole.used && rest.failure == whole.failure
        decreases config.maxAttempts - attempt
      {
        failure := WithSessionRecovery(OnLapse);
        if failure.None? {
          return;
        }
        if !IsWorthRetrying(failure.value) || attempt >= config.maxAttempts {
          return;
        }
        var delayMs := ResolveDelayMs(failure.value, attempt, config, world.drawAt(attempt));
        if delayMs.None? {
          return;
        }
        if world.isWaitAborted(attempt) {
          acts := acts + [WaitAborted(delayMs.value)];
          return Some(Aborted);
        }
        acts := acts + [Waited(delayMs.value)];
        attempt := attempt + 1;
      }
    }

    /** `commandPartition`: never retried, and replayed only on an outright rejection. */
    method CommandPartition() returns (failure: Option<Failure>)
      modifies this`acts, this`attempts
      ensures var course := Recovered(world, old(attempts), OnRejection);
              && acts == old(acts) + course.acts && attempts == old(attempts) + course.used && failure == course.failure
    {
      failure := WithSessionRecovery(OnRejection);
    }
  }
}
