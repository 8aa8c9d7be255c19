/**
 * The circuit breaker as a state machine, together with the client's listener on its transitions.
 * `failureLog` and the sets of calls are what an observer of the breaker would write down.
 */
module BreakerSpec {
  import opened Options
  import opened SlidingWindow

  datatype Config = Config(
    failureThreshold: nat, resetTimeoutMs: nat, successesToClose: nat,
    halfOpenProbes: nat, failureWindowMs: nat, failureCoalesceMs: nat)

  datatype Mode = Closed | Open | HalfOpen

  datatype Edge = Edge(from: Mode, to: Mode)

  datatype Breaker = Breaker(
    // The environment: the clock, and the guarded calls that have not settled. `probes` were let
    // through in the half-open spell that is running, `stale` in one that is over.
    now: int,
    nextCall: nat,
    plain: set<nat>,
    probes: set<nat>,
    stale: set<nat>,
    // What was observed: stale probes and successes settled in this spell, failures since the last reset.
    strays: nat,
    spellSuccesses: nat,
    clearedAt: int,
    failureLog: seq<int>,
    transitions: seq<Edge>,
    // The client's listener.
    hasReportedOpen: bool,
    announcements: nat,
    // The breaker's own fields.
    mode: Mode,
    successes: nat,
    lastFailure: Option<int>,
    halfOpenRequests: nat,
    failures: seq<int>)

  const FRESH: Breaker := Breaker(0, 0, {}, {}, {}, 0, 0, 0, [], [], false, 0, Closed, 0, None, 0, [])

  datatype Event =
    | Ask
    | Begin
    | Finish(call: nat, isOk: bool)
    | ResetNow
    | Status
    | Elapse(ms: nat)

  function Max(a: int, b: int): int {
    if a >= b then a else b
  }

  /** The client announces an outage once, and again only after a recovery. */
  function Listen(s: Breaker, to: Mode): Breaker {
    if to == Open && !s.hasReportedOpen then s.(hasReportedOpen := true, announcements := s.announcements + 1)
    else if to == Closed && s.hasReportedOpen then s.(hasReportedOpen := false)
    else s
  }

  /** Where the observer's sets of probes go when a half-open spell ends. */
  function Transition(s: Breaker, next: Mode): Breaker {
    if s.mode == next then s
    else Listen(
        s.(mode := next, transitions := s.transitions + [Edge(s.mode, next)],
           probes := {}, stale := s.stale + s.probes, strays := 0, spellSuccesses := 0),
        next)
  }

  function PruneFailures(config: Config, s: Breaker): Breaker {
    s.(failures := Recent(s.failures, s.now, config.failureWindowMs))
  }

  predicate IsCooldownElapsed(config: Config, s: Breaker) {
    s.lastFailure.Some? && s.now - s.lastFailure.value >= config.resetTimeoutMs
  }

  /** What `canRequest` answers. */
  predicate CanRequest(config: Config, s: Breaker) {
    match s.mode
    case Closed => true
    case Open => IsCooldownElapsed(config, s)
    case HalfOpen => s.halfOpenRequests < config.halfOpenProbes
  }

  /** How long a status or a refusal says it will be until a probe is let through. */
  function RemainingMs(config: Config, s: Breaker): Option<int> {
    if s.mode == Open && s.lastFailure.Some?
    then Some(Max(0, config.resetTimeoutMs - (s.now - s.lastFailure.value))) else None
  }

  /** What `canRequest` does on the way. */
  function AfterAsking(config: Config, s: Breaker): Breaker {
    if s.mode == Open && IsCooldownElapsed(config, s)
    then Transition(s.(halfOpenRequests := 0, successes := 0), HalfOpen)
    else s
  }

  function Reset(s: Breaker): Breaker {
    Transition(
      s.(successes := 0, lastFailure := None, halfOpenRequests := 0, failures := [],
         clearedAt := s.now, failureLog := []),
      Closed)
  }

  function RecordSuccess(config: Config, s: Breaker): Breaker {
    if s.mode == HalfOpen then
      var counted := s.(successes := s.successes + 1);
      if counted.successes >= config.successesToClose then Reset(counted) else counted
    else PruneFailures(config, s)
  }

  /** One more failure in the list, unless it belongs to the burst the last one began. */
  function Coalesce(failures: seq<int>, now: int, coalesceMs: nat): seq<int> {
    if failures != [] && now - failures[|failures| - 1] < coalesceMs then failures else failures + [now]
  }

  function NoteFailure(config: Config, s: Breaker): Breaker {
    s.(lastFailure := Some(s.now),
       failures := Coalesce(s.failures, s.now, config.failureCoalesceMs),
       failureLog := s.failureLog + [s.now])
  }

  function RecordFailure(config: Config, s: Breaker): Breaker {
    var noted := NoteFailure(config, s);
    match s.mode
    case HalfOpen => Transition(noted.(halfOpenRequests := 0, successes := 0), Open)
    case Closed =>
      var pruned := PruneFailures(config, noted);
      if |pruned.failures| >= config.failureThreshold then Transition(pruned, Open) else pruned
    case Open => noted
  }

  function Admitted(s: Breaker): Breaker {
    if s.mode == HalfOpen
    then s.(halfOpenRequests := s.halfOpenRequests + 1, probes := s.probes + {s.nextCall}, nextCall := s.nextCall + 1)
    else s.(plain := s.plain + {s.nextCall}, nextCall := s.nextCall + 1)
  }

  /** `execute` up to the operation: refused, or out as an ordinary call or as a probe. */
  function BeginCall(config: Config, s: Breaker): Breaker {
    if !CanRequest(config, s) then s else
    Admitted(AfterAsking(config, s))
  }

  /** The `finally` of `execute`, which only a probe has work for. */
  function Release(s: Breaker, isProbe: bool, isStray: bool): Breaker {
    if !isProbe then s
    else s.(halfOpenRequests := Max(0, s.halfOpenRequests - 1), strays := if isStray then s.strays + 1 else s.strays)
  }

  function Settled(s: Breaker, call: nat): Breaker {
    s.(plain := s.plain - {call}, probes := s.probes - {call}, stale := s.stale - {call})
  }

  function FinishCall(config: Config, s: Breaker, call: nat, isOk: bool): Breaker {
    var settled := Settled(s, call);
    var recorded := if isOk then RecordSuccess(config, settled) else RecordFailure(config, settled);
    Witnessed(Release(recorded, call in s.probes + s.stale, call in s.stale), isOk)
  }

  /** The observer's own count of successes in a spell. */
  function Witnessed(s: Breaker, isOk: bool): Breaker {
    if isOk && s.mode == HalfOpen then s.(spellSuccesses := s.spellSuccesses + 1) else s
  }

  predicate Enabled(s: Breaker, e: Event) {
    e.Finish? ==> e.call in s.plain + s.probes + s.stale
  }

  function Step(config: Config, s: Breaker, e: Event): Breaker {
    if !Enabled(s, e) then s else
    match e
    case Ask => AfterAsking(config, s)
    case Begin => BeginCall(config, s)
    case Finish(call, isOk) => FinishCall(config, s, call, isOk)
    case ResetNow => Reset(s)
    case Status => PruneFailures(config, s)
    case Elapse(ms) => s.(now := s.now + ms)
  }

  function Run(config: Config, s: Breaker, events: seq<Event>): Breaker {
    if events == [] then s else Step(config, Run(config, s, events[..|events| - 1]), events[|events| - 1])
  }
}
