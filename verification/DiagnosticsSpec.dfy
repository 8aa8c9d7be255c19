/** The diagnostics collector as a state machine over what is recorded and reported. */
module DiagnosticsSpec {
  import opened Options
  import opened Settings

  datatype Counters = Counters(
    requests: int, errors: int, pollOk: int, pollFailed: int, reconnects: int, trips: int,
    throttled: int, logins: int, commandsSent: int, externalChanges: int, retries: int)

  const ZERO: Counters := Counters(0, 0, 0, 0, 0, 0, 0, 0, 0, 0, 0)

  function Plus(a: Counters, b: Counters): Counters {
    Counters(a.requests + b.requests, a.errors + b.errors, a.pollOk + b.pollOk, a.pollFailed + b.pollFailed,
             a.reconnects + b.reconnects, a.trips + b.trips, a.throttled + b.throttled, a.logins + b.logins,
             a.commandsSent + b.commandsSent, a.externalChanges + b.externalChanges, a.retries + b.retries)
  }

  function Minus(a: Counters, b: Counters): Counters {
    Counters(a.requests - b.requests, a.errors - b.errors, a.pollOk - b.pollOk, a.pollFailed - b.pollFailed,
             a.reconnects - b.reconnects, a.trips - b.trips, a.throttled - b.throttled, a.logins - b.logins,
             a.commandsSent - b.commandsSent, a.externalChanges - b.externalChanges, a.retries - b.retries)
  }

  /** A JavaScript number as a duration: `NaN` and the infinities are not finite. */
  datatype Duration = Finite(ms: real) | NotFinite

  datatype Record =
    | ApiRequest(latency: Duration, isOk: bool, wasNetworked: bool)
    | PollCycle(ok: int, failed: int, duration: Duration)
    | WsReconnect
    | BreakerTrip
    | Throttle
    | SessionLogin
    | CommandSent
    | ExternalChange
    | Retry

  datatype Collector = Collector(
    counters: Counters,
    marker: Counters,
    latencies: seq<real>,
    recentOutcomes: seq<bool>,
    lastPollDuration: Option<real>,
    // What was observed: every record made, and the counters of every heartbeat that was built.
    records: seq<Record>,
    heartbeats: seq<Counters>)

  const FRESH: Collector := Collector(ZERO, ZERO, [], [], None, [], [])

  /** A list with one more entry, the oldest dropped if that makes it longer than it may be. */
  function Slide<T>(window: seq<T>, x: T, length: nat): seq<T> {
    var longer := window + [x];
    if |longer| > length then longer[1..] else longer
  }

  predicate IsSample(latency: Duration, wasNetworked: bool) {
    wasNetworked && latency.Finite? && latency.ms >= 0.0
  }

  function NoteApiRequest(c: Collector, latency: Duration, isOk: bool, wasNetworked: bool): Collector {
    c.(counters := c.counters.(requests := c.counters.requests + 1,
                               errors := if isOk then c.counters.errors else c.counters.errors + 1),
       latencies := if IsSample(latency, wasNetworked) then Slide(c.latencies, latency.ms, LATENCY_WINDOW) else c.latencies,
       recentOutcomes := Slide(c.recentOutcomes, isOk, OUTCOME_WINDOW))
  }

  function NotePollCycle(c: Collector, ok: int, failed: int, duration: Duration): Collector {
    c.(counters := c.counters.(pollOk := c.counters.pollOk + ok, pollFailed := c.counters.pollFailed + failed),
       lastPollDuration := if duration.Finite? && duration.ms >= 0.0 then Some(duration.ms) else c.lastPollDuration)
  }

  function Note(c: Collector, record: Record): Collector {
    match record
    case ApiRequest(latency, isOk, wasNetworked) => NoteApiRequest(c, latency, isOk, wasNetworked)
    case PollCycle(ok, failed, duration) => NotePollCycle(c, ok, failed, duration)
    case WsReconnect => c.(counters := c.counters.(reconnects := c.counters.reconnects + 1))
    case BreakerTrip => c.(counters := c.counters.(trips := c.counters.trips + 1))
    case Throttle => c.(counters := c.counters.(throttled := c.counters.throttled + 1))
    case SessionLogin => c.(counters := c.counters.(logins := c.counters.logins + 1))
    case CommandSent => c.(counters := c.counters.(commandsSent := c.counters.commandsSent + 1))
    case ExternalChange => c.(counters := c.counters.(externalChanges := c.counters.externalChanges + 1))
    case Retry => c.(counters := c.counters.(retries := c.counters.retries + 1))
  }

  function Take(c: Collector, record: Record): Collector {
    Note(c, record).(records := c.records + [record])
  }

  function TakeAll(c: Collector, records: seq<Record>): Collector {
    if records == [] then c else Take(TakeAll(c, records[..|records| - 1]), records[|records| - 1])
  }

  /**
   * A heartbeat takes its counters before it calls the readers, which may record things of their
   * own. Should one throw, no report is built and the marker stays where it was.
   */
  function Beat(c: Collector, during: seq<Record>, isReadable: bool): Collector {
    var read := TakeAll(c, during);
    if isReadable
    then read.(marker := c.counters, heartbeats := c.heartbeats + [Minus(c.counters, c.marker)])
    else read
  }

  datatype Event = Recorded(record: Record) | Heartbeat(during: seq<Record>, isReadable: bool)

  function Step(c: Collector, e: Event): Collector {
    match e
    case Recorded(record) => Take(c, record)
    case Heartbeat(during, isReadable) => Beat(c, during, isReadable)
  }

  function Run(c: Collector, events: seq<Event>): Collector {
    if events == [] then c else Step(Run(c, events[..|events| - 1]), events[|events| - 1])
  }

  /** Whether recent requests alone mark the plugin degraded. */
  predicate IsErrorRateHigh(recentOutcomes: seq<bool>) {
    |recentOutcomes| >= API_ERROR_MIN_SAMPLES && 2 * Errors(recentOutcomes) > |recentOutcomes|
  }

  function Errors(outcomes: seq<bool>): nat {
    if outcomes == [] then 0 else (if outcomes[0] then 0 else 1) + Errors(outcomes[1..])
  }
}
