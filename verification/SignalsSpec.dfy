/**
 * The four PagerDuty signals and the grace before `cloud-offline`, as a state machine. `heard` is
 * every call that reached the tracker while it was open, with the time it came.
 */
module SignalsSpec {
  import opened Options

  datatype Signal = AlarmActive | SmokeActive | AuthFailed | CloudOffline

  datatype SignInFailure = CredentialsRejected | LoginFormUnreadable

  datatype Severity = Info | Warning | Error | Critical

  datatype Write = Write(signal: Signal, active: bool, severity: Severity, summary: string, at: int)

  datatype Call =
    | Start
    | Reached
    | Unreachable
    | SignInStopped(failure: SignInFailure)
    | Devices(alarmActive: Option<bool>, smokeActive: Option<bool>)

  datatype Heard = Heard(call: Call, at: int)

  datatype Signals = Signals(
    now: int,
    heard: seq<Heard>,
    writes: seq<Write>,
    offlineTimer: Option<int>,
    isCloudOfflineConfirmed: bool,
    isAuthRejected: bool,
    hasStarted: bool,
    isClosed: bool)

  const FRESH: Signals := Signals(0, [], [], None, false, false, false, false)

  datatype Event =
    | Call(call: Call)
    | Close
    | TimerFires
    | Elapse(ms: nat)

  const ALARM_ACTIVE_SUMMARY := "The security system is in alarm."
  const SMOKE_ACTIVE_SUMMARY := "A smoke detector is active."
  const AUTH_REJECTED_SUMMARY :=
    "Alarm.com rejected the sign-in. This plugin has stopped until the username, password, or two-factor cookie is corrected in Homebridge."
  const AUTH_LOGIN_FORM_SUMMARY :=
    "Alarm.com's sign-in page could not be read. This plugin has stopped until it is updated."
  const CLOUD_OFFLINE_SUMMARY :=
    "Homebridge has not reached Alarm.com for 5 minutes. Panel state in HomeKit may be stale."

  function Put(s: Signals, signal: Signal, active: bool, severity: Severity, summary: string): Signals {
    s.(writes := s.writes + [Write(signal, active, severity, summary, s.now)])
  }

  function WriteAuth(s: Signals, active: bool, failure: SignInFailure): Signals {
    Put(s, AuthFailed, active, Error,
        if failure == LoginFormUnreadable then AUTH_LOGIN_FORM_SUMMARY else AUTH_REJECTED_SUMMARY)
  }

  function WriteCloud(s: Signals): Signals {
    Put(s, CloudOffline, s.isCloudOfflineConfirmed && !s.isAuthRejected, Error, CLOUD_OFFLINE_SUMMARY)
  }

  function ArmOfflineGrace(graceMs: nat, s: Signals): Signals {
    if s.offlineTimer.Some? || s.isCloudOfflineConfirmed then s else s.(offlineTimer := Some(s.now + graceMs))
  }

  function Settle(s: Signals, isAuthRejected: bool, failure: SignInFailure): Signals {
    WriteCloud(WriteAuth(
      s.(isAuthRejected := isAuthRejected, isCloudOfflineConfirmed := false, offlineTimer := None),
      isAuthRejected, failure))
  }

  function NoteDevices(s: Signals, alarmActive: Option<bool>, smokeActive: Option<bool>): Signals {
    var noted := if alarmActive.None? then s else Put(s, AlarmActive, alarmActive.value, Critical, ALARM_ACTIVE_SUMMARY);
    if smokeActive.None? then noted else Put(noted, SmokeActive, smokeActive.value, Critical, SMOKE_ACTIVE_SUMMARY)
  }

  function Take(graceMs: nat, s: Signals, call: Call): Signals {
    match call
    case Start =>
      if s.hasStarted then s
      else if s.isAuthRejected then s.(hasStarted := true)
      else ArmOfflineGrace(graceMs, s.(hasStarted := true))
    case Reached => Settle(s, false, CredentialsRejected)
    case Unreachable => if s.isAuthRejected then s else ArmOfflineGrace(graceMs, s)
    case SignInStopped(failure) => Settle(s, true, failure)
    case Devices(alarmActive, smokeActive) => NoteDevices(s, alarmActive, smokeActive)
  }

  function Hear(s: Signals, call: Call): Signals {
    s.(heard := s.heard + [Heard(call, s.now)])
  }

  function Fire(s: Signals): Signals {
    var fired := s.(offlineTimer := None);
    if s.isClosed then fired else WriteCloud(fired.(isCloudOfflineConfirmed := true))
  }

  predicate TimerDue(s: Signals) {
    s.offlineTimer.Some? && s.now >= s.offlineTimer.value
  }

  function Step(graceMs: nat, s: Signals, e: Event): Signals {
    match e
    case Call(call) => if s.isClosed then s else Take(graceMs, Hear(s, call), call)
    case Close => if s.isClosed then s else s.(isClosed := true, offlineTimer := None)
    case TimerFires => if TimerDue(s) then Fire(s) else s
    case Elapse(ms) => s.(now := s.now + ms)
  }

  function Run(graceMs: nat, s: Signals, events: seq<Event>): Signals {
    if events == [] then s else Step(graceMs, Run(graceMs, s, events[..|events| - 1]), events[|events| - 1])
  }

  /** What a finished read says of a house-level signal; `None` leaves it as it was. */
  function ObservedSignal(sawActive: bool, isComplete: bool): Option<bool> {
    if sawActive then Some(true) else if isComplete then Some(false) else None
  }

  /** The reading taken over the handlers kept, of which `requested` were asked for and `read` answered. */
  function HouseSignal(handlers: map<string, bool>, requested: set<string>, read: set<string>): Option<bool> {
    ObservedSignal(exists id <- handlers :: handlers[id], requested <= read)
  }
}
