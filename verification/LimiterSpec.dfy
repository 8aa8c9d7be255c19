/**
 * The request limiter as a state machine. The plugin keeps a pruned list of recent grants; the
 * specification also keeps every grant ever made, which is what the promises are about.
 */
module LimiterSpec {
  import opened Options
  import opened SlidingWindow

  datatype Config = Config(minIntervalMs: nat, maxRequests: nat, windowMs: nat, maxWaitMs: nat)

  /** A claim sleeping until its slot comes up. */
  datatype Claim = Claim(id: nat, wakeAt: int)

  datatype Limiter = Limiter(
    // The environment and what was observed of it.
    now: int,
    arrivals: nat,
    grants: seq<int>,
    served: seq<nat>,
    // `#timestamps`, and the chain of claims that `#tail` strings together.
    timestamps: seq<int>,
    sleeping: Option<Claim>,
    waiting: seq<nat>)

  const FRESH: Limiter := Limiter(0, 0, [], [], [], None, [])

  datatype Event =
    | Arrive
    | Begin(lag: nat)
    | Wake
    | Abort
    | Status
    | Elapse(ms: nat)

  function Max(a: int, b: int): int {
    if a >= b then a else b
  }

  /** `#computeWaitMs`, on a list already pruned for `now`. */
  function WaitMs(config: Config, timestamps: seq<int>, now: int): int {
    if timestamps == [] then 0 else
    var spacingWait := Max(0, config.minIntervalMs - (now - timestamps[|timestamps| - 1]));
    if |timestamps| < config.maxRequests then spacingWait
    else Max(spacingWait, config.windowMs - (now - timestamps[0]))
  }

  function Prune(config: Config, s: Limiter): Limiter {
    s.(timestamps := Recent(s.timestamps, s.now, config.windowMs))
  }

  function Grant(s: Limiter, id: nat): Limiter {
    s.(timestamps := s.timestamps + [s.now], grants := s.grants + [s.now], served := s.served + [id])
  }

  /** The head of the chain runs: it is refused, granted at once, or put to sleep. */
  function BeginClaim(config: Config, s: Limiter, lag: nat): Limiter
    requires s.waiting != []
  {
    var pruned := Prune(config, s.(waiting := s.waiting[1..]));
    var waitMs := WaitMs(config, pruned.timestamps, s.now);
    if waitMs > config.maxWaitMs then pruned
    else if waitMs > 0 then pruned.(sleeping := Some(Claim(s.waiting[0], s.now + waitMs)))
    else Grant(pruned.(now := s.now + lag), s.waiting[0])
  }

  predicate Enabled(s: Limiter, e: Event) {
    match e
    case Begin(_) => s.sleeping.None? && s.waiting != []
    case Wake => s.sleeping.Some? && s.now >= s.sleeping.value.wakeAt
    case Abort => s.sleeping.Some?
    case _ => true
  }

  function Apply(config: Config, s: Limiter, e: Event): Limiter
    requires Enabled(s, e)
  {
    match e
    case Arrive => s.(arrivals := s.arrivals + 1, waiting := s.waiting + [s.arrivals])
    case Begin(lag) => BeginClaim(config, s, lag)
    case Wake => Grant(s.(sleeping := None), s.sleeping.value.id)
    case Abort => s.(sleeping := None)
    case Status => Prune(config, s)
    case Elapse(ms) => s.(now := s.now + ms)
  }

  function Step(config: Config, s: Limiter, e: Event): Limiter {
    if Enabled(s, e) then Apply(config, s, e) else s
  }

  function Run(config: Config, s: Limiter, events: seq<Event>): Limiter {
    if events == [] then s else Step(config, Run(config, s, events[..|events| - 1]), events[|events| - 1])
  }
}
