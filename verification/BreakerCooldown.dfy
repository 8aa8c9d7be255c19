/** What the breaker lets through, and when its state moves, told by the failures it has seen. */
module BreakerCooldown {
  import opened Options
  import opened SlidingWindow
  import opened BreakerSpec
  import opened BreakerTheorems
  import BreakerOpening

  /** The last failure is the last one logged, and only a closed breaker may have seen none. */
  predicate LogOk(s: Breaker) {
    && (s.lastFailure.Some? <==> s.failureLog != [])
    && (s.failureLog != [] ==> s.lastFailure.value == s.failureLog[|s.failureLog| - 1])
    && (s.mode != Closed ==> s.failureLog != [])
  }

  lemma SameLog(s: Breaker, t: Breaker)
    requires LogOk(s) && t.lastFailure == s.lastFailure && t.failureLog == s.failureLog
    requires t.mode == s.mode || s.failureLog != []
    ensures LogOk(t)
  {
  }

  lemma ResettingKeepsLog(s: Breaker)
    ensures LogOk(Reset(s))
  {
  }

  lemma FailingKeepsLog(config: Config, s: Breaker)
    ensures LogOk(RecordFailure(config, s))
  {
    hide Recent, Coalesce;
  }

  lemma FinishingKeepsLog(config: Config, s: Breaker, call: nat, isOk: bool)
    requires LogOk(s)
    ensures LogOk(FinishCall(config, s, call, isOk))
  {
    hide LogOk, Recent, RecordFailure, Reset;
    var settled := Settled(s, call);
    var counted := settled.(successes := s.successes + 1);
    SameLog(s, settled);
    SameLog(s, counted);
    ResettingKeepsLog(counted);
    SameLog(settled, PruneFailures(config, settled));
    FailingKeepsLog(config, settled);
    var recorded := if isOk then RecordSuccess(config, settled) else RecordFailure(config, settled);
    SameLog(recorded, FinishCall(config, s, call, isOk));
  }

  lemma StepKeepsLog(config: Config, s: Breaker, e: Event)
    requires LogOk(s)
    ensures LogOk(Step(config, s, e))
  {
    hide Recent, FinishCall, Reset;
    if Enabled(s, e) {
      match e
      case Finish(call, isOk) => hide LogOk; FinishingKeepsLog(config, s, call, isOk);
      case ResetNow => hide LogOk; ResettingKeepsLog(s);
      case _ =>
    }
  }

  lemma {:induction false} RunKeepsLog(config: Config, events: seq<Event>)
    ensures LogOk(Run(config, FRESH, events))
  {
    hide Step, LogOk;
    if events == [] {
      FreshLogIsOk();
    } else {
      RunKeepsLog(config, events[..|events| - 1]);
      StepKeepsLog(config, Run(config, FRESH, events[..|events| - 1]), events[|events| - 1]);
    }
  }

  lemma FreshLogIsOk()
    ensures LogOk(FRESH)
  {
  }

  /** Half open, with `call` the one probe out. */
  predicate IsProbing(config: Config, s: Breaker, t: Breaker) {
    && t.mode == HalfOpen && t.transitions == s.transitions + [Edge(Open, HalfOpen)]
    && t.probes == {s.nextCall} && t.halfOpenRequests == 1 && t.successes == 0
    && t.plain == s.plain && t.failureLog == s.failureLog && t.now == s.now
  }

  /**
   * Over every run: while the breaker is open it has seen a failure, and until the reset timeout
   * has gone by since the last one it refuses, and asking or calling changes nothing at all. From
   * then on the next call goes out as the one probe of a new half-open spell.
   */
  lemma OpenAdmitsExactlyWhenCooled(config: Config, events: seq<Event>)
    requires Run(config, FRESH, events).mode == Open
    ensures var s := Run(config, FRESH, events);
            && s.failureLog != []
            && if s.now - s.failureLog[|s.failureLog| - 1] < config.resetTimeoutMs then
                 !CanRequest(config, s) && Step(config, s, Ask) == s && Step(config, s, Begin) == s
               else
                 && CanRequest(config, s) && IsProbing(config, s, Step(config, s, Begin))
                 && Step(config, s, Ask).mode == HalfOpen && Step(config, s, Ask).probes == {}
  {
    RunKeepsLog(config, events);
    hide Run;
  }

  /** A closed breaker lets every call through; a half-open one exactly while it has a slot free. */
  lemma OtherwiseAdmitsExactlyWhen(config: Config, events: seq<Event>)
    requires Run(config, FRESH, events).mode != Open
    ensures var s := Run(config, FRESH, events); var t := Step(config, s, Begin);
            && Step(config, s, Ask) == s
            && (CanRequest(config, s) <==> s.mode == Closed || s.halfOpenRequests < config.halfOpenProbes)
            && (!CanRequest(config, s) ==> t == s)
            && (CanRequest(config, s) && s.mode == Closed ==>
                  t == s.(plain := s.plain + {s.nextCall}, nextCall := s.nextCall + 1))
            && (CanRequest(config, s) && s.mode == HalfOpen ==>
                  t == s.(probes := s.probes + {s.nextCall}, nextCall := s.nextCall + 1,
                          halfOpenRequests := s.halfOpenRequests + 1))
  {
    hide Run;
  }

  /** How long the breaker says it will stay shut is how long it will: `None` unless it is open. */
  lemma RemainingIsTheCooldownLeft(config: Config, events: seq<Event>)
    ensures var s := Run(config, FRESH, events);
            && (s.mode != Open ==> RemainingMs(config, s).None?)
            && (s.mode == Open ==>
                  && RemainingMs(config, s).Some? && s.failureLog != []
                  && var left := s.failureLog[|s.failureLog| - 1] + config.resetTimeoutMs - s.now;
                     RemainingMs(config, s).value == if left > 0 then left else 0)
  {
    RunKeepsLog(config, events);
    hide Run;
  }

  // ---- When the state moves. ----

  lemma FinishingMovesLog(config: Config, s: Breaker, call: nat, isOk: bool)
    ensures var t := FinishCall(config, s, call, isOk);
            t.failureLog == (if s.mode == HalfOpen && t.mode == Closed then []
                             else if !isOk then s.failureLog + [s.now] else s.failureLog)
  {
    hide Recent, Coalesce;
  }

  lemma LogMoves(config: Config, s: Breaker, e: Event)
    ensures var t := Step(config, s, e);
            t.failureLog == (if e == ResetNow || (s.mode == HalfOpen && t.mode == Closed) then []
                             else if e.Finish? && Enabled(s, e) && !e.isOk then s.failureLog + [s.now]
                             else s.failureLog)
  {
    hide Recent, FinishCall;
    if e.Finish? {
      FinishingMovesLog(config, s, e.call, e.isOk);
    }
  }

  lemma ModeRests(config: Config, s: Breaker, e: Event)
    ensures e.Status? || e.Elapse? || !Enabled(s, e) ==> Step(config, s, e).mode == s.mode
    ensures e.ResetNow? ==> Step(config, s, e).mode == Closed
    ensures e.Finish? && s.mode == Open ==> Step(config, s, e).mode == Open
    ensures e.Finish? && s.mode == Closed && e.isOk ==> Step(config, s, e).mode == Closed
    ensures e.Finish? && s.mode == Closed ==> Step(config, s, e).mode != HalfOpen
  {
    hide Recent, Coalesce;
  }

  /** The state a breaker goes to, by the failures logged and the successes of the spell it is in. */
  function ModeAfter(config: Config, s: Breaker, e: Event): Mode {
    match e
    case Status => s.mode
    case Elapse(_) => s.mode
    case ResetNow => Closed
    case Ask =>
      if s.mode == Open && s.failureLog != []
         && s.now - s.failureLog[|s.failureLog| - 1] >= config.resetTimeoutMs then HalfOpen else s.mode
    case Begin =>
      if s.mode == Open && s.failureLog != []
         && s.now - s.failureLog[|s.failureLog| - 1] >= config.resetTimeoutMs then HalfOpen else s.mode
    case Finish(call, isOk) =>
      if call !in s.plain + s.probes + s.stale || s.mode == Open then s.mode
      else if s.mode == HalfOpen then
        (if !isOk then Open
         else if s.spellSuccesses + 1 >= config.successesToClose then Closed
         else HalfOpen)
      else if !isOk && |Recent(BreakerOpening.Coalesced(s.failureLog + [s.now], config.failureCoalesceMs),
                               s.now, config.failureWindowMs)| >= config.failureThreshold then Open
      else Closed
  }

  /**
   * Over every run, the state moves exactly when it should, and the log that decides it holds
   * exactly the failures settled since the breaker last closed or was reset.
   */
  lemma ModeMovesExactlySo(config: Config, events: seq<Event>, e: Event)
    ensures var s := Run(config, FRESH, events); var t := Step(config, s, e);
            && t.mode == ModeAfter(config, s, e)
            && t.failureLog == (if e == ResetNow || (s.mode == HalfOpen && t.mode == Closed) then []
                                else if e.Finish? && Enabled(s, e) && !e.isOk then s.failureLog + [s.now]
                                else s.failureLog)
  {
    hide Recent, BreakerOpening.Coalesced, IsProbing;
    var s := Run(config, FRESH, events);
    LogMoves(config, s, e);
    ModeRests(config, s, e);
    if e.Finish? && Enabled(s, e) {
      if s.mode == HalfOpen {
        ClosesExactlyWhen(config, events, e.call, e.isOk);
      } else if s.mode == Closed && !e.isOk {
        BreakerOpening.OpensExactlyWhen(config, events, e.call);
      }
    } else if e.Ask? || e.Begin? {
      if s.mode == Open {
        OpenAdmitsExactlyWhenCooled(config, events);
      } else {
        OtherwiseAdmitsExactlyWhen(config, events);
      }
    }
    hide Run, Step, CanRequest, IsCooldownElapsed;
  }

  // ---- What a burst is. ----

  lemma {:induction false} BurstsAreLogged(log: seq<int>, gap: nat)
    ensures var bursts := BreakerOpening.Coalesced(log, gap);
            && (log != [] ==> bursts != []) && |bursts| <= |log|
            && forall j :: 0 <= j < |bursts| ==> bursts[j] in log
  {
    if log != [] {
      var front := log[..|log| - 1];
      BurstsAreLogged(front, gap);
      assert forall x :: x in front ==> x in log;
    }
  }

  /** The newest failure fell into the newest burst, or began it. */
  lemma NewestIsCovered(log: seq<int>, gap: nat)
    requires log != [] && Sorted(log)
    ensures var bursts := BreakerOpening.Coalesced(log, gap); var last := log[|log| - 1];
            && bursts != [] && var b := bursts[|bursts| - 1]; b <= last && (b == last || last - b < gap)
  {
    var front := log[..|log| - 1];
    BurstsAreLogged(front, gap);
    var bursts := BreakerOpening.Coalesced(front, gap);
    if bursts != [] {
      assert bursts[|bursts| - 1] in front;
    }
    hide BreakerOpening.Coalesced;
  }

  lemma EarlierBurstsStay(log: seq<int>, gap: nat)
    requires log != []
    ensures BreakerOpening.Coalesced(log[..|log| - 1], gap) <= BreakerOpening.Coalesced(log, gap)
  {
  }

  /** Each burst began at a failure of the log, and each failure fell into a burst begun less than the gap before. */
  lemma {:induction false} BurstsCoverTheLog(log: seq<int>, gap: nat, i: nat) returns (j: nat)
    requires Sorted(log) && i < |log|
    ensures var bursts := BreakerOpening.Coalesced(log, gap);
            && j < |bursts| && bursts[j] <= log[i] && (bursts[j] == log[i] || log[i] - bursts[j] < gap)
  {
    hide BreakerOpening.Coalesced;
    if i < |log| - 1 {
      j := BurstsCoverTheLog(log[..|log| - 1], gap, i);
      EarlierBurstsStay(log, gap);
    } else {
      NewestIsCovered(log, gap);
      j := |BreakerOpening.Coalesced(log, gap)| - 1;
    }
  }
}
