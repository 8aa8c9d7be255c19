/** The `CircuitBreaker` object and the client's listener, proved to follow `BreakerSpec`. */
module CircuitBreakers {
  import opened Options
  import opened SlidingWindow
  import opened BreakerSpec

  class CircuitBreaker {
    const config: Config

    var now: int
    var nextCall: nat
    var plain: set<nat>
    var probes: set<nat>
    var stale: set<nat>
    ghost var strays: nat
    ghost var spellSuccesses: nat
    ghost var clearedAt: int
    ghost var failureLog: seq<int>
    ghost var transitions: seq<Edge>

    // `#hasReportedCircuitOpen` of the client, and the calls to its `onCircuitOpen`.
    var hasReportedOpen: bool
    var announcements: nat

    var mode: Mode
    var successes: nat
    var lastFailure: Option<int>
    var halfOpenRequests: nat
    var failures: seq<int>

    ghost function State(): Breaker
      reads this
    {
      Breaker(now, nextCall, plain, probes, stale, strays, spellSuccesses, clearedAt, failureLog, transitions,
              hasReportedOpen, announcements, mode, successes, lastFailure, halfOpenRequests, failures)
    }

    constructor (config: Config)
      ensures State() == FRESH && this.config == config
    {
      this.config := config;
      now, nextCall, plain, probes, stale := 0, 0, {}, {}, {};
      strays, spellSuccesses, clearedAt, failureLog, transitions := 0, 0, 0, [], [];
      hasReportedOpen, announcements := false, 0;
      mode, successes, lastFailure, halfOpenRequests, failures := Closed, 0, None, 0, [];
    }

    /** The listener the client attaches. */
    method OnStateChange(to: Mode)
      modifies this`hasReportedOpen, this`announcements
      ensures State() == Listen(old(State()), to)
    {
      var isNewOutage := to == Open && !hasReportedOpen;
      if isNewOutage {
        hasReportedOpen := true;
        announcements := announcements + 1;
      } else if to == Closed && hasReportedOpen {
        hasReportedOpen := false;
      }
    }

    method TransitionTo(next: Mode)
      modifies this`mode, this`transitions, this`probes, this`stale, this`strays, this`spellSuccesses, this`hasReportedOpen, this`announcements
      ensures State() == Transition(old(State()), next)
    {
      hide Listen;
      if mode == next {
        return;
      }
      EndSpell();
      transitions := transitions + [Edge(mode, next)];
      mode := next;
      OnStateChange(next);
    }

    /** No field of the breaker's: the probes still out now belong to a spell that is over. */
    method EndSpell()
      modifies this`probes, this`stale, this`strays, this`spellSuccesses
      ensures State() == old(State()).(probes := {}, stale := old(stale) + old(probes), strays := 0, spellSuccesses := 0)
    {
      stale, probes, strays, spellSuccesses := stale + probes, {}, 0, 0;
    }

    method DropAgedFailures()
      modifies this`failures
      ensures State() == PruneFailures(config, old(State()))
    {
      ghost var all := failures;
      var cutoff := now - config.failureWindowMs;
      var kept: seq<int> := [];
      var i := 0;
      while i < |failures|
        invariant 0 <= i <= |failures| && failures == all
        invariant kept + Recent(all[i..], now, config.failureWindowMs) == Recent(all, now, config.failureWindowMs)
      {
        assert all[i..][1..] == all[i + 1..];
        if failures[i] > cutoff {
          kept := kept + [failures[i]];
        }
        i := i + 1;
      }
      failures := kept;
    }

    method ClearProbeCounts()
      modifies this`halfOpenRequests, this`successes
      ensures State() == old(State()).(halfOpenRequests := 0, successes := 0)
    {
      halfOpenRequests := 0;
      successes := 0;
    }

    method AskToRequest() returns (isAllowed: bool)
      modifies this
      ensures State() == AfterAsking(config, old(State()))
      ensures isAllowed <==> CanRequest(config, old(State()))
    {
      hide Transition;
      if mode == Closed {
        return true;
      }
      if mode == Open {
        var isCooldownElapsed := lastFailure.Some? && now - lastFailure.value >= config.resetTimeoutMs;
        if isCooldownElapsed {
          ClearProbeCounts();
          TransitionTo(HalfOpen);
          return true;
        }
        return false;
      }
      return halfOpenRequests < config.halfOpenProbes;
    }

    method NoteSuccess()
      modifies this
      ensures State() == RecordSuccess(config, old(State()))
    {
      if mode == HalfOpen {
        successes := successes + 1;
        if successes >= config.successesToClose {
          Close();
        }
        return;
      }
      DropAgedFailures();
    }

    /** The part of `recordFailure` that every state shares. */
    method PushFailure()
      modifies this`lastFailure, this`failures, this`failureLog
      ensures State() == NoteFailure(config, old(State()))
    {
      var isSameBurst := failures != [] && now - failures[|failures| - 1] < config.failureCoalesceMs;
      lastFailure := Some(now);
      if !isSameBurst {
        failures := failures + [now];
      }
      failureLog := failureLog + [now];
    }

    method NoteAFailure()
      modifies this
      ensures State() == RecordFailure(config, old(State()))
    {
      hide Transition, NoteFailure;
      PushFailure();
      if mode == HalfOpen {
        ClearProbeCounts();
        TransitionTo(Open);
        return;
      }
      if mode == Closed {
        DropAgedFailures();
        if |failures| >= config.failureThreshold {
          TransitionTo(Open);
        }
      }
    }

    method ForgetFailures()
      modifies this`lastFailure, this`failures, this`clearedAt, this`failureLog
      ensures State() == old(State()).(lastFailure := None, failures := [], clearedAt := old(now), failureLog := [])
    {
      lastFailure := None;
      failures := [];
      clearedAt, failureLog := now, [];
    }

    /** `reset`. */
    method Close()
      modifies this
      ensures State() == Reset(old(State()))
    {
      hide Transition;
      ForgetFailures();
      ClearProbeCounts();
      TransitionTo(Closed);
    }

    method GetStatus() returns (count: nat, remainingResetTimeMs: Option<int>)
      modifies this`failures
      ensures State() == Step(config, old(State()), Status)
      ensures count == |failures|
      ensures remainingResetTimeMs == RemainingMs(config, State())
    {
      DropAgedFailures();
      count := |failures|;
      remainingResetTimeMs := RemainingResetTimeMs();
    }

    method RemainingResetTimeMs() returns (remainingMs: Option<int>)
      ensures remainingMs == RemainingMs(config, State())
    {
      remainingMs := None;
      if mode == Open && lastFailure.Some? {
        var leftMs := config.resetTimeoutMs - (now - lastFailure.value);
        remainingMs := Some(if leftMs > 0 then leftMs else 0);
      }
    }

    /** `execute` up to the operation. `false` is the circuit-breaker error, which says when to come back. */
    method BeginExecute() returns (isAdmitted: bool, retryAfterMs: int)
      modifies this
      ensures State() == Step(config, old(State()), Begin)
      ensures isAdmitted <==> CanRequest(config, old(State()))
      ensures !isAdmitted ==>
                retryAfterMs == match old(RemainingMs(config, State()))
                                case Some(leftMs) => leftMs
                                case None => config.resetTimeoutMs
    {
      retryAfterMs := 0;
      isAdmitted := AskToRequest();
      if !isAdmitted {
        var remaining := RemainingResetTimeMs();
        retryAfterMs := if remaining.Some? then remaining.value else config.resetTimeoutMs;
        return;
      }
      var isProbe := mode == HalfOpen;
      if isProbe {
        halfOpenRequests := halfOpenRequests + 1;
        probes := probes + {nextCall};
      } else {
        plain := plain + {nextCall};
      }
      nextCall := nextCall + 1;
    }

    method Settle(call: nat)
      modifies this`plain, this`probes, this`stale
      ensures State() == Settled(old(State()), call)
    {
      plain, probes, stale := plain - {call}, probes - {call}, stale - {call};
    }

    /** `execute` from the operation's outcome on. */
    method FinishExecute(call: nat, isOk: bool)
      requires call in plain + probes + stale
      modifies this
      ensures State() == Step(config, old(State()), Finish(call, isOk))
    {
      hide RecordSuccess, RecordFailure, Settled;
      var isProbe, isStray := call in probes + stale, call in stale;
      Settle(call);
      if isOk {
        NoteSuccess();
      } else {
        NoteAFailure();
      }
      if isProbe {
        halfOpenRequests := Max(0, halfOpenRequests - 1);
        strays := if isStray then strays + 1 else strays;
      }
      Witness(isOk);
    }

    ghost method Witness(isOk: bool)
      modifies this`spellSuccesses
      ensures State() == Witnessed(old(State()), isOk)
    {
      if isOk && mode == HalfOpen {
        spellSuccesses := spellSuccesses + 1;
      }
    }

    method Elapsed(ms: nat)
      modifies this`now
      ensures State() == Step(config, old(State()), Elapse(ms))
    {
      now := now + ms;
    }

    method Handle(e: Event)
      modifies this
      ensures State() == Step(config, old(State()), e)
    {
      hide AfterAsking, BeginCall, FinishCall, Reset, PruneFailures;
      match e
      case Ask => var _ := AskToRequest();
      case Begin => var _, _ := BeginExecute();
      case Finish(call, isOk) => if call in plain + probes + stale { FinishExecute(call, isOk); }
      case ResetNow => Close();
      case Status => var _, _ := GetStatus();
      case Elapse(ms) => Elapsed(ms);
    }
  }

  /** A new breaker handed any events at all ends where the machine's run of them does. */
  method Replay(config: Config, events: seq<Event>) returns (breaker: CircuitBreaker)
    ensures fresh(breaker) && breaker.State() == Run(config, FRESH, events)
  {
    hide Step;
    breaker := new CircuitBreaker(config);
    for n := 0 to |events|
      invariant fresh(breaker) && breaker.config == config
      invariant breaker.State() == Run(config, FRESH, events[..n])
    {
      assert events[..n + 1][..n] == events[..n];
      breaker.Handle(events[n]);
    }
    assert events[..|events|] == events;
  }
}
