/**
 * One request as a course of acts: what the client does, in order, given how each act turns out.
 * `Scenario` is the world the acts meet, an outcome for every attempt and every wait.
 */
module ClientSpec {
  import opened Options
  import opened Backoff

  /** The error hierarchy, as far as retrying tells its classes apart. */
  datatype Failure =
    | SessionExpired
    | LoginThrottled(waitMs: nat)
    | SystemUnavailable
    | NetworkFailure
    | TimedOut
    | RateLimited(retryAfterMs: Option<nat>)
    | ApiResponse(status: int)
    | ApiParse
    | Configuration
    | Authentication
    | LoginForm
    | PacingRefused
    | Aborted
    | Forbidden
    | ReadOnlyPartition
    | CircuitOpen
    | Foreign

  datatype Pacing = Granted | TooLong | Stopped

  /** How each stage of one guarded attempt would turn out. */
  datatype Attempt = Attempt(login: Option<Failure>, pacing: Pacing, isCircuitOpen: bool, answer: Option<Failure>)

  datatype Scenario = Scenario(attemptAt: nat -> Attempt, drawAt: nat -> Draw, isWaitAborted: nat -> bool)

  datatype Config = Config(maxAttempts: nat, baseDelayMs: nat, maxDelayMs: nat)

  datatype Act =
    | GotSession
    | NoSession(failure: Failure)
    | Paced
    | NotPaced(failure: Failure)
    | Admitted
    | Refused
    | Sent(answer: Option<Failure>)
    | Invalidated
    | Waited(ms: nat)
    | WaitAborted(ms: nat)

  /** The acts of a call, how many attempts it used, and the error it ends in, if any. */
  datatype Course = Course(acts: seq<Act>, used: nat, failure: Option<Failure>)

  // ---- What the errors say of themselves. ----

  predicate IsRetryable(failure: Failure) {
    match failure
    case SessionExpired | LoginThrottled(_) | SystemUnavailable | NetworkFailure | TimedOut | RateLimited(_) | ApiParse => true
    case ApiResponse(status) => status >= 500
    case _ => false
  }

  predicate IsLapsedSession(failure: Failure) {
    failure.SessionExpired? || failure.ApiParse?
  }

  predicate IsWorthRetrying(failure: Failure) {
    !IsLapsedSession(failure) && !failure.CircuitOpen? && !failure.LoginThrottled? && IsRetryable(failure)
  }

  /** The wait the server, or the login floor, asked for. */
  function RequestedDelayMs(failure: Failure): Option<nat> {
    match failure
    case RateLimited(retryAfterMs) => retryAfterMs
    case LoginThrottled(waitMs) => Some(waitMs)
    case _ => None
  }

  /** `None` is the source's `null`: the wait asked for is too long to sleep through. */
  function ResolveDelayMs(failure: Failure, attempt: nat, config: Config, random: Draw): Option<nat>
    requires attempt >= 1
  {
    var backoffMs := ComputeBackoffMs(attempt, config.baseDelayMs, config.maxDelayMs, random);
    var requested := RequestedDelayMs(failure);
    if requested.None? then Some(backoffMs)
    else if requested.value > config.maxDelayMs then None
    else Some(Max(requested.value, backoffMs))
  }

  // ---- The three layers of a request. ----

  /** Session, then pacing, then breaker, then the network; the first to fail ends the attempt. */
  function Guarded(a: Attempt): Course {
    if a.login.Some? then Course([NoSession(a.login.value)], 1, a.login)
    else if a.pacing == TooLong then Course([GotSession, NotPaced(PacingRefused)], 1, Some(PacingRefused))
    else if a.pacing == Stopped then Course([GotSession, NotPaced(Aborted)], 1, Some(Aborted))
    else if a.isCircuitOpen then Course([GotSession, Paced, Refused], 1, Some(CircuitOpen))
    else Course([GotSession, Paced, Admitted, Sent(a.answer)], 1, a.answer)
  }

  /** Which failures a call may be replayed on: a read on any lapse, a write on a 401 alone. */
  datatype Replay = OnLapse | OnRejection

  predicate IsReplayable(replay: Replay, failure: Failure) {
    match replay
    case OnLapse => IsLapsedSession(failure)
    case OnRejection => failure.SessionExpired?
  }

  function Recovered(world: Scenario, from: nat, replay: Replay): Course {
    var first := Guarded(world.attemptAt(from));
    if first.failure.None? || !IsReplayable(replay, first.failure.value) then first
    else
      var second := Guarded(world.attemptAt(from + 1));
      Course(first.acts + [Invalidated] + second.acts, 2, second.failure)
  }

  /** `withRetry` from its given attempt on. */
  function Retried(config: Config, world: Scenario, from: nat, attempt: nat): Course
    requires attempt >= 1
    decreases config.maxAttempts - attempt
  {
    var tried := Recovered(world, from, OnLapse);
    if tried.failure.None? then tried
    else if !IsWorthRetrying(tried.failure.value) || attempt >= config.maxAttempts then tried
    else
      var delay := ResolveDelayMs(tried.failure.value, attempt, config, world.drawAt(attempt));
      if delay.None? then tried
      else if world.isWaitAborted(attempt) then
        Course(tried.acts + [WaitAborted(delay.value)], tried.used, Some(Aborted))
      else
        var rest := Retried(config, world, from + tried.used, attempt + 1);
        Course(tried.acts + [Waited(delay.value)] + rest.acts, tried.used + rest.used, rest.failure)
  }

  function ReadRequest(config: Config, world: Scenario): Course {
    Retried(config, world, 0, 1)
  }

  function Command(world: Scenario): Course {
    Recovered(world, 0, OnRejection)
  }
}
