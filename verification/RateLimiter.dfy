/** The `RateLimiter` object, proved to take its fields where `LimiterSpec` says. */
module RateLimiters {
  import opened Options
  import opened LimiterSpec
  import opened SlidingWindow

  class RateLimiter {
    const config: Config

    var now: int
    ghost var arrivals: nat
    ghost var grants: seq<int>
    ghost var served: seq<nat>

    var timestamps: seq<int>
    // The chain of claims behind `#tail`: the one asleep, then the ones that wait for it.
    var sleeping: Option<Claim>
    var waiting: seq<nat>
    var nextClaim: nat

    ghost predicate Valid()
      reads this
    {
      nextClaim == arrivals
    }

    ghost function State(): Limiter
      reads this
    {
      Limiter(now, arrivals, grants, served, timestamps, sleeping, waiting)
    }

    constructor (config: Config)
      ensures Valid() && State() == FRESH && this.config == config
    {
      this.config := config;
      now, arrivals, nextClaim := 0, 0, 0;
      grants, served, timestamps, waiting := [], [], [], [];
      sleeping := None;
    }

    /** `#prune`: drops what has aged out of the window. */
    method DropAged()
      requires Valid()
      modifies this`timestamps
      ensures State() == Prune(config, old(State()))
    {
      ghost var all := timestamps;
      var kept: seq<int> := [];
      var i := 0;
      while i < |timestamps|
        invariant 0 <= i <= |timestamps| && timestamps == all
        invariant kept + Recent(all[i..], now, config.windowMs) == Recent(all, now, config.windowMs)
      {
        assert all[i..][1..] == all[i + 1..];
        if now - timestamps[i] < config.windowMs {
          kept := kept + [timestamps[i]];
        }
        i := i + 1;
      }
      timestamps := kept;
    }

    /** `#computeWaitMs` on the list as it stands, which the caller has pruned. */
    method ComputeWaitMs() returns (waitMs: int)
      ensures waitMs == WaitMs(config, timestamps, now)
    {
      var spacingWait := 0;
      if timestamps != [] {
        spacingWait := Max(0, config.minIntervalMs - (now - timestamps[|timestamps| - 1]));
      }
      if |timestamps| < config.maxRequests || timestamps == [] {
        return spacingWait;
      }
      return Max(spacingWait, config.windowMs - (now - timestamps[0]));
    }

    method GetStatus() returns (remaining: int)
      requires Valid()
      modifies this`timestamps
      ensures Valid() && State() == Step(config, old(State()), Status)
      ensures remaining == Max(0, config.maxRequests - |timestamps|)
    {
      DropAged();
      remaining := Max(0, config.maxRequests - |timestamps|);
    }

    /** `acquire` joins the chain; its body runs once everything ahead of it has settled. */
    method Acquire() returns (id: nat)
      requires Valid()
      modifies this`arrivals, this`waiting, this`nextClaim
      ensures Valid() && State() == Step(config, old(State()), Arrive)
      ensures id == old(nextClaim)
    {
      id := nextClaim;
      waiting := waiting + [id];
      nextClaim := nextClaim + 1;
      arrivals := arrivals + 1;
    }

    method Push(id: nat)
      requires Valid()
      modifies this`timestamps, this`grants, this`served
      ensures State() == Grant(old(State()), id)
    {
      timestamps := timestamps + [now];
      grants := grants + [now];
      served := served + [id];
    }

    /** The body of the claim at the head of the chain, up to its wait. `false` is the pacing error. */
    method RunHead(lag: nat) returns (isAdmitted: bool)
      requires Valid() && sleeping.None? && waiting != []
      modifies this`now, this`waiting, this`sleeping, this`timestamps, this`grants, this`served
      ensures Valid() && State() == Step(config, old(State()), Begin(lag))
      ensures isAdmitted <==>
              WaitMs(config, Recent(old(timestamps), old(now), config.windowMs), old(now)) <= config.maxWaitMs
    {
      var id := waiting[0];
      waiting := waiting[1..];
      DropAged();
      var waitMs := ComputeWaitMs();
      if waitMs > config.maxWaitMs {
        return false;
      }
      if waitMs > 0 {
        sleeping := Some(Claim(id, now + waitMs));
      } else {
        now := now + lag;
        Push(id);
      }
      return true;
    }

    /** The wait is over and the claim takes its slot, at whatever time the timer really fired. */
    method OnWake()
      requires Valid() && sleeping.Some? && now >= sleeping.value.wakeAt
      modifies this`sleeping, this`timestamps, this`grants, this`served
      ensures Valid() && State() == Step(config, old(State()), Wake)
    {
      var claim := sleeping.value;
      sleeping := None;
      Push(claim.id);
    }

    /** Shutdown abandons the wait; the chain goes on. */
    method OnAbort()
      requires Valid() && sleeping.Some?
      modifies this`sleeping
      ensures Valid() && State() == Step(config, old(State()), Abort)
    {
      sleeping := None;
    }

    method Elapsed(ms: nat)
      requires Valid()
      modifies this`now
      ensures Valid() && State() == Step(config, old(State()), Elapse(ms))
    {
      now := now + ms;
    }

    method Handle(e: Event)
      requires Valid()
      modifies this
      ensures Valid() && State() == Step(config, old(State()), e)
    {
      match e
      case Arrive => var _ := Acquire();
      case Begin(lag) =>
        if sleeping.None? && waiting != [] {
          var _ := RunHead(lag);
        }
      case Wake => if sleeping.Some? && now >= sleeping.value.wakeAt { OnWake(); }
      case Abort => if sleeping.Some? { OnAbort(); }
      case Status => var _ := GetStatus();
      case Elapse(ms) => Elapsed(ms);
    }
  }

  /** A new limiter handed any events at all ends where the machine's run of them does. */
  method Replay(config: Config, events: seq<Event>) returns (limiter: RateLimiter)
    ensures fresh(limiter) && limiter.State() == Run(config, FRESH, events)
  {
    hide Step;
    limiter := new RateLimiter(config);
    for n := 0 to |events|
      invariant fresh(limiter) && limiter.Valid() && limiter.config == config
      invariant limiter.State() == Run(config, FRESH, events[..n])
    {
      assert events[..n + 1][..n] == events[..n];
      limiter.Handle(events[n]);
    }
    assert events[..|events|] == events;
  }
}
