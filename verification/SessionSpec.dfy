/**
 * The session manager as a state machine. Every suspended `#login` is a flight of its own, so that
 * single flight is something to prove; `logins` and `signs` are what an observer would write down.
 */
module SessionSpec {
  import opened Options
  import opened Settings

  /** How a call to `authenticate` ended. The callback runs inside the same `try`. */
  datatype Outcome = Granted | GrantedButCallbackThrew | Rejected | Transient

  datatype Login = Login(start: int, end: int, outcome: Outcome)

  /** Where a `#login` is suspended, or that it has settled and `getSession` has yet to notice. */
  datatype Stage = Ready | Waiting(wakeAt: int) | Authenticating(start: int) | Settled

  datatype Reply = Alive | Dead | TransportError

  /** A sign of life or of trouble from one session. */
  datatype Sign = Good(session: nat, at: int) | Bad(session: nat, at: int)

  datatype Manager = Manager(
    // The environment.
    now: int,
    nextSession: nat,
    nextFlight: nat,
    flights: map<nat, Stage>,
    nextProbe: nat,
    probes: map<nat, nat>,
    // What was observed.
    logins: seq<Login>,
    signs: seq<Sign>,
    // The manager's own fields.
    session: Option<nat>,
    verifiedAt: int,
    lastLoginAttempt: int,
    hasPermanentFailure: bool,
    pendingLogin: Option<nat>,
    keepAliveFailures: nat)

  /** Zero stands for never, so the clock is taken to be past the interval when the plugin starts. */
  function Fresh(now: int): Manager {
    Manager(now, 0, 0, map[], 0, map[], [], [], None, 0, 0, false, None, 0)
  }

  datatype Event =
    | Get
    | Wake(flight: nat)
    | AbortWait(flight: nat)
    | Authenticated(flight: nat, outcome: Outcome)
    | Clear(flight: nat)
    | Touch
    | Answered(probe: nat, reply: Reply)
    | Invalidate
    | Elapse(ms: nat)

  predicate IsFresh(lifetimeMs: nat, s: Manager) {
    s.now - s.verifiedAt < lifetimeMs
  }

  /** What `getSession` does: hand out the session held, join the login under way, or start one. */
  datatype Answer = Reuse(session: nat) | Join(flight: nat) | Start

  function AnswerOf(lifetimeMs: nat, s: Manager): Answer {
    if s.session.Some? && IsFresh(lifetimeMs, s) then Reuse(s.session.value)
    else if s.pendingLogin.Some? then Join(s.pendingLogin.value)
    else Start
  }

  function RemainingMs(lifetimeMs: nat, s: Manager): int {
    lifetimeMs - (s.now - s.lastLoginAttempt)
  }

  /** `#awaitLoginFloor`: a flight that is refused has settled at once. */
  function FirstStage(lifetimeMs: nat, s: Manager): Stage {
    if s.lastLoginAttempt == 0 then Ready
    else if RemainingMs(lifetimeMs, s) <= 0 then Ready
    else if s.hasPermanentFailure then Settled
    else if RemainingMs(lifetimeMs, s) > MAX_LOGIN_FLOOR_WAIT_MS then Settled
    else Waiting(s.now + RemainingMs(lifetimeMs, s))
  }

  function GetSession(lifetimeMs: nat, s: Manager): Manager {
    if AnswerOf(lifetimeMs, s) != Start then s else
    s.(nextFlight := s.nextFlight + 1,
       flights := s.flights[s.nextFlight := FirstStage(lifetimeMs, s)],
       pendingLogin := Some(s.nextFlight))
  }

  function Discard(s: Manager): Manager {
    s.(session := None, verifiedAt := 0, keepAliveFailures := 0)
  }

  function Succeed(s: Manager): Manager {
    s.(session := Some(s.nextSession), nextSession := s.nextSession + 1, lastLoginAttempt := s.now, verifiedAt := s.now,
       keepAliveFailures := 0, hasPermanentFailure := false, signs := s.signs + [Good(s.nextSession, s.now)])
  }

  /** The `catch` of `#login`. */
  function Fail(lifetimeMs: nat, s: Manager, isRejected: bool): Manager {
    var paced := Discard(s).(lastLoginAttempt := s.now - (lifetimeMs - FAILED_LOGIN_FLOOR_MS));
    if isRejected then paced.(lastLoginAttempt := s.now, hasPermanentFailure := true) else paced
  }

  function EndLogin(lifetimeMs: nat, s: Manager, outcome: Outcome): Manager {
    match outcome
    case Granted => Succeed(s)
    case GrantedButCallbackThrew => Fail(lifetimeMs, Succeed(s), false)
    case Rejected => Fail(lifetimeMs, s, true)
    case Transient => Fail(lifetimeMs, s, false)
  }

  function Authenticate(lifetimeMs: nat, s: Manager, flight: nat, outcome: Outcome): Manager
    requires flight in s.flights && s.flights[flight].Authenticating?
  {
    EndLogin(lifetimeMs,
      s.(flights := s.flights[flight := Settled],
         logins := s.logins + [Login(s.flights[flight].start, s.now, outcome)]),
      outcome)
  }

  /** The keep-alive's answer, heeded only if the session it probed is still the one held. */
  function Heed(s: Manager, probed: nat, reply: Reply): Manager {
    match reply
    case Dead => if s.session == Some(probed) then Discard(s) else s
    case Alive =>
      var noted := s.(signs := s.signs + [Good(probed, s.now)]);
      if s.session == Some(probed) then noted.(verifiedAt := s.now, keepAliveFailures := 0) else noted
    case TransportError =>
      var noted := s.(signs := s.signs + [Bad(probed, s.now)]);
      if s.session != Some(probed) then noted
      else if s.keepAliveFailures + 1 >= KEEPALIVE_FAILURE_LIMIT then Discard(noted)
      else noted.(keepAliveFailures := s.keepAliveFailures + 1)
  }

  predicate Enabled(s: Manager, e: Event) {
    match e
    case Wake(f) => f in s.flights && match s.flights[f] { case Ready => true case Waiting(at) => s.now >= at case _ => false }
    case AbortWait(f) => f in s.flights && s.flights[f].Waiting?
    case Authenticated(f, _) => f in s.flights && s.flights[f].Authenticating?
    case Clear(f) => f in s.flights && s.flights[f].Settled?
    case Answered(p, _) => p in s.probes
    case _ => true
  }

  function Apply(lifetimeMs: nat, s: Manager, e: Event): Manager
    requires Enabled(s, e)
  {
    match e
    case Get => GetSession(lifetimeMs, s)
    case Wake(f) => s.(flights := s.flights[f := Authenticating(s.now)])
    case AbortWait(f) => s.(flights := s.flights[f := Settled])
    case Authenticated(f, outcome) => Authenticate(lifetimeMs, s, f, outcome)
    case Clear(f) => s.(flights := s.flights - {f}, pendingLogin := None)
    case Touch =>
      if s.session.None? then s
      else s.(probes := s.probes[s.nextProbe := s.session.value], nextProbe := s.nextProbe + 1)
    case Answered(p, reply) => Heed(s.(probes := s.probes - {p}), s.probes[p], reply)
    case Invalidate => Discard(s)
    case Elapse(ms) => s.(now := s.now + ms)
  }

  function Step(lifetimeMs: nat, s: Manager, e: Event): Manager {
    if Enabled(s, e) then Apply(lifetimeMs, s, e) else s
  }

  function Run(lifetimeMs: nat, s: Manager, events: seq<Event>): Manager {
    if events == [] then s else Step(lifetimeMs, Run(lifetimeMs, s, events[..|events| - 1]), events[|events| - 1])
  }
}
