/** What it takes to open the breaker, told by the failures recorded since it last closed. */
module BreakerOpening {
  import opened Options
  import opened SlidingWindow
  import opened BreakerSpec
  import BreakerTheorems

  /** The bursts in a list of failures, each by the instant that began it. */
  function Coalesced(log: seq<int>, coalesceMs: nat): seq<int> {
    if log == [] then [] else
    Coalesce(Coalesced(log[..|log| - 1], coalesceMs), log[|log| - 1], coalesceMs)
  }

  predicate AllFrom(times: seq<int>, from: int) {
    forall i :: 0 <= i < |times| ==> times[i] >= from
  }

  /** Instants between `from` and `now`, in order and at least `gap` apart. */
  predicate IsTrain(times: seq<int>, from: int, now: int, gap: nat) {
    Sorted(times) && AllBy(times, now) && AllFrom(times, from) && Spaced(times, gap)
  }

  predicate Inv(config: Config, s: Breaker) {
    && s.clearedAt <= s.now
    && IsTrain(s.failureLog, s.clearedAt, s.now, 0)
    && IsTrain(s.failures, s.clearedAt, s.now, config.failureCoalesceMs)
    && (config.failureCoalesceMs <= config.failureWindowMs ==>
          && IsTrain(Coalesced(s.failureLog, config.failureCoalesceMs), s.clearedAt, s.now, config.failureCoalesceMs)
          && IsRecentSuffix(s.failures, Coalesced(s.failureLog, config.failureCoalesceMs), s.now, config.failureWindowMs))
  }

  lemma PruningKeepsTrain(times: seq<int>, from: int, now: int, gap: nat, windowMs: nat)
    requires IsTrain(times, from, now, gap)
    ensures IsTrain(Recent(times, now, windowMs), from, now, gap)
  {
    RecentIsSuffix(times, now, windowMs);
    var kept := Recent(times, now, windowMs);
    var d := |times| - |kept|;
    forall i | 0 < i < |kept| ensures kept[i] - kept[i - 1] >= gap {
      assert kept[i] == times[d + i] && kept[i - 1] == times[d + i - 1];
    }
  }

  lemma CoalescingKeepsTrain(times: seq<int>, from: int, now: int, gap: nat)
    requires IsTrain(times, from, now, gap) && from <= now
    ensures IsTrain(Coalesce(times, now, gap), from, now, gap)
  {
  }

  /** A burst is the same burst whether one looks at the pruned list or at all there ever was. */
  lemma CoalescingKeepsSuffix(kept: seq<int>, times: seq<int>, now: int, coalesceMs: nat, windowMs: nat)
    requires IsRecentSuffix(kept, times, now, windowMs) && coalesceMs <= windowMs
    ensures IsRecentSuffix(Coalesce(kept, now, coalesceMs), Coalesce(times, now, coalesceMs), now, windowMs)
  {
    if kept == [] {
      if times != [] {
        assert now - times[|times| - 1] >= windowMs;
      }
    } else {
      assert kept[|kept| - 1] == times[|times| - 1];
    }
  }

  lemma PruneKeepsInv(config: Config, s: Breaker)
    requires Inv(config, s)
    ensures Inv(config, PruneFailures(config, s))
  {
    hide Recent, Coalesced;
    PruningKeepsTrain(s.failures, s.clearedAt, s.now, config.failureCoalesceMs, config.failureWindowMs);
    if config.failureCoalesceMs <= config.failureWindowMs {
      PruningKeepsSuffix(s.failures, Coalesced(s.failureLog, config.failureCoalesceMs), s.now, config.failureWindowMs);
    }
  }

  lemma NotingKeepsInv(config: Config, s: Breaker)
    requires Inv(config, s)
    ensures Inv(config, NoteFailure(config, s))
  {
    hide Coalesce, IsRecentSuffix;
    var gap, all := config.failureCoalesceMs, Coalesced(s.failureLog, config.failureCoalesceMs);
    CoalescingKeepsTrain(s.failures, s.clearedAt, s.now, gap);
    LogGrows(s.failureLog, s.clearedAt, s.now);
    if gap <= config.failureWindowMs {
      CoalescingKeepsTrain(all, s.clearedAt, s.now, gap);
      CoalescingKeepsSuffix(s.failures, all, s.now, gap, config.failureWindowMs);
      CoalescedGrows(s.failureLog, s.now, gap);
    }
  }

  lemma LogGrows(log: seq<int>, from: int, now: int)
    requires IsTrain(log, from, now, 0) && from <= now
    ensures IsTrain(log + [now], from, now, 0)
  {
  }

  lemma CoalescedGrows(log: seq<int>, now: int, gap: nat)
    ensures Coalesced(log + [now], gap) == Coalesce(Coalesced(log, gap), now, gap)
  {
    var longer := log + [now];
    assert longer[..|longer| - 1] == log;
  }

  /** Only these four fields matter here. */
  lemma SameFailures(config: Config, s: Breaker, t: Breaker)
    requires Inv(config, s)
    requires t.clearedAt == s.clearedAt && t.now == s.now && t.failureLog == s.failureLog && t.failures == s.failures
    ensures Inv(config, t)
  {
  }

  lemma ResetKeepsInv(config: Config, s: Breaker)
    requires Inv(config, s)
    ensures Inv(config, Reset(s))
  {
  }

  lemma RecordingKeepsInv(config: Config, s: Breaker, isOk: bool)
    requires Inv(config, s)
    ensures Inv(config, if isOk then RecordSuccess(config, s) else RecordFailure(config, s))
  {
    hide Inv, Recent, Reset, Coalesce;
    if isOk {
      PruneKeepsInv(config, s);
      SameFailures(config, s, s.(successes := s.successes + 1));
      ResetKeepsInv(config, s.(successes := s.successes + 1));
    } else {
      NotingKeepsInv(config, s);
      PruneKeepsInv(config, NoteFailure(config, s));
      var noted := NoteFailure(config, s);
      match s.mode
      case HalfOpen => SameFailures(config, noted, RecordFailure(config, s));
      case Closed => SameFailures(config, PruneFailures(config, noted), RecordFailure(config, s));
      case Open =>
    }
  }

  lemma TimePassesKeepsInv(config: Config, s: Breaker, ms: nat)
    requires Inv(config, s)
    ensures Inv(config, s.(now := s.now + ms))
  {
  }

  lemma StepKeepsInv(config: Config, s: Breaker, e: Event)
    requires Inv(config, s)
    ensures Inv(config, Step(config, s, e))
  {
    hide Inv, PruneFailures, Reset, RecordSuccess, RecordFailure;
    if Enabled(s, e) {
      match e
      case Ask => SameFailures(config, s, AfterAsking(config, s));
      case Begin => SameFailures(config, s, BeginCall(config, s));
      case Finish(call, isOk) =>
        var settled := Settled(s, call);
        SameFailures(config, s, settled);
        RecordingKeepsInv(config, settled, isOk);
        SameFailures(config, if isOk then RecordSuccess(config, settled) else RecordFailure(config, settled),
                     FinishCall(config, s, call, isOk));
      case ResetNow => ResetKeepsInv(config, s);
      case Status => PruneKeepsInv(config, s);
      case Elapse(ms) => TimePassesKeepsInv(config, s, ms);
    }
  }

  lemma {:induction false} RunKeepsInv(config: Config, s: Breaker, events: seq<Event>)
    requires Inv(config, s)
    ensures Inv(config, Run(config, s, events))
  {
    hide Inv, Step;
    if events != [] {
      RunKeepsInv(config, s, events[..|events| - 1]);
      StepKeepsInv(config, Run(config, s, events[..|events| - 1]), events[|events| - 1]);
    }
  }

  lemma ReachableInv(config: Config, events: seq<Event>)
    ensures Inv(config, Run(config, FRESH, events))
  {
    RunKeepsInv(config, FRESH, events);
  }

  // ---- Opening. ----

  lemma {:induction false} TrainSpans(times: seq<int>, gap: nat)
    requires times != [] && Spaced(times, gap)
    ensures times[|times| - 1] - times[0] >= (|times| - 1) * gap
  {
    if |times| > 1 {
      var front := times[..|times| - 1];
      TrainSpans(front, gap);
      assert times[|times| - 1] - front[|front| - 1] >= gap;
      assert (|times| - 1) * gap == (|front| - 1) * gap + gap;
    }
  }

  lemma {:induction false} SuffixIsAllThatIsRecent(kept: seq<int>, times: seq<int>, now: int, windowMs: nat)
    requires IsRecentSuffix(kept, times, now, windowMs)
    ensures Recent(kept, now, windowMs) == Recent(times, now, windowMs)
  {
    if |kept| < |times| {
      assert now - times[0] >= windowMs;
      assert times[|times| - |kept|..] == times[1..][|times[1..]| - |kept|..];
      SuffixIsAllThatIsRecent(kept, times[1..], now, windowMs);
    } else {
      assert kept == times;
    }
  }

  lemma {:induction false} RecentAreYoung(times: seq<int>, now: int, windowMs: nat)
    ensures forall i :: 0 <= i < |Recent(times, now, windowMs)| ==> now - Recent(times, now, windowMs)[i] < windowMs
  {
    if times != [] {
      RecentAreYoung(times[1..], now, windowMs);
    }
  }

  /**
   * A closed breaker opens on a failure, with the threshold of coalesced failures inside the
   * window, none from before it closed, so that many coalescing gaps after it closed at the least.
   */
  lemma OpensNoSoonerThan(config: Config, events: seq<Event>, e: Event)
    requires Run(config, FRESH, events).mode == Closed
    requires Step(config, Run(config, FRESH, events), e).mode != Closed
    ensures var s, t := Run(config, FRESH, events), Step(config, Run(config, FRESH, events), e);
            && e.Finish? && !e.isOk && t.mode == Open
            && |t.failures| >= config.failureThreshold
            && (forall i :: 0 <= i < |t.failures| ==>
                  t.now - t.failures[i] < config.failureWindowMs && s.clearedAt <= t.failures[i] <= t.now)
            && Spaced(t.failures, config.failureCoalesceMs)
            && t.now - s.clearedAt >= (config.failureThreshold - 1) * config.failureCoalesceMs
  {
    hide Inv, AfterAsking, Reset, Coalesce;
    var s, t := Run(config, FRESH, events), Step(config, Run(config, FRESH, events), e);
    ReachableInv(config, events);
    StepKeepsInv(config, s, e);
    AskingWhenClosed(config, s);
    ClosedStaysUnlessFailing(config, s, e);
    RecentAreYoung(NoteFailure(config, Settled(s, e.call)).failures, s.now, config.failureWindowMs);
    OpenedLateEnough(config, t);
  }

  lemma OpenedLateEnough(config: Config, t: Breaker)
    requires Inv(config, t) && |t.failures| >= config.failureThreshold
    ensures t.now - t.clearedAt >= (config.failureThreshold - 1) * config.failureCoalesceMs
    ensures Spaced(t.failures, config.failureCoalesceMs)
    ensures forall i :: 0 <= i < |t.failures| ==> t.clearedAt <= t.failures[i] <= t.now
  {
    if t.failures != [] {
      TrainSpans(t.failures, config.failureCoalesceMs);
      FewerGapsAreShorter(config.failureThreshold - 1, |t.failures| - 1, config.failureCoalesceMs);
    }
  }

  lemma FewerGapsAreShorter(m: int, n: int, gap: nat)
    requires m <= n
    ensures m * gap <= n * gap
  {
    assert (n - m) * gap >= 0;
  }

  lemma AskingWhenClosed(config: Config, s: Breaker)
    requires s.mode == Closed
    ensures AfterAsking(config, s) == s
  {
  }

  lemma ClosedStaysUnlessFailing(config: Config, s: Breaker, e: Event)
    requires s.mode == Closed && Step(config, s, e).mode != Closed
    ensures e.Finish? && !e.isOk && Enabled(s, e)
    ensures Step(config, s, e).failures == PruneFailures(config, NoteFailure(config, Settled(s, e.call))).failures
    ensures Step(config, s, e).mode == Open && |Step(config, s, e).failures| >= config.failureThreshold
    ensures Step(config, s, e).clearedAt == s.clearedAt && Step(config, s, e).now == s.now
  {
  }

  // ---- Bursts wider than the window. ----

  /** With a threshold of one the first failure the window can hold opens it, so a closed breaker has none. */
  predicate FirstOpens(config: Config, s: Breaker) {
    s.mode == Closed && config.failureThreshold == 1 && config.failureWindowMs > 0 ==>
      s.failureLog == [] && s.failures == []
  }

  lemma StepKeepsFirstOpens(config: Config, s: Breaker, e: Event)
    requires FirstOpens(config, s)
    ensures FirstOpens(config, Step(config, s, e))
  {
    hide BeginCall, FinishCall, AfterAsking;
    if Enabled(s, e) {
      match e
      case Ask => AskingKeepsFirstOpens(config, s);
      case Begin => AskingKeepsFirstOpens(config, s);
      case Finish(call, isOk) => FinishingKeepsFirstOpens(config, s, call, isOk);
      case _ =>
    }
  }

  lemma AskingKeepsFirstOpens(config: Config, s: Breaker)
    requires FirstOpens(config, s)
    ensures FirstOpens(config, AfterAsking(config, s)) && FirstOpens(config, BeginCall(config, s))
  {
  }

  lemma FinishingKeepsFirstOpens(config: Config, s: Breaker, call: nat, isOk: bool)
    requires FirstOpens(config, s)
    ensures FirstOpens(config, FinishCall(config, s, call, isOk))
  {
    assert Recent([], s.now, config.failureWindowMs) == [];
    assert [s.now][1..] == [];
    assert config.failureWindowMs > 0 ==> Recent([s.now], s.now, config.failureWindowMs) == [s.now];
  }

  lemma {:induction false} RunKeepsFirstOpens(config: Config, events: seq<Event>)
    ensures FirstOpens(config, Run(config, FRESH, events))
  {
    hide FirstOpens, Step;
    if events == [] {
      FreshFirstOpens(config);
    } else {
      RunKeepsFirstOpens(config, events[..|events| - 1]);
      StepKeepsFirstOpens(config, Run(config, FRESH, events[..|events| - 1]), events[|events| - 1]);
    }
  }

  lemma FreshFirstOpens(config: Config)
    ensures FirstOpens(config, FRESH)
  {
  }

  /** At most one burst of a train wider than the window is inside it. */
  lemma WideTrainShowsOne(times: seq<int>, from: int, now: int, gap: nat, windowMs: nat)
    requires IsTrain(times, from, now, gap) && gap > windowMs
    ensures |Recent(times, now, windowMs)| <= 1
  {
    RecentIsSuffix(times, now, windowMs);
  }

  /** Bursts are a train whatever their width. */
  lemma {:induction false} BurstsAreATrain(log: seq<int>, from: int, now: int, gap: nat)
    requires IsTrain(log, from, now, 0)
    ensures IsTrain(Coalesced(log, gap), from, now, gap)
  {
    if log != [] {
      var front, last := log[..|log| - 1], log[|log| - 1];
      assert IsTrain(front, from, last, 0);
      BurstsAreATrain(front, from, last, gap);
      CoalescingKeepsTrain(Coalesced(front, gap), from, last, gap);
    }
  }

  lemma NothingRecentInAnEmptyWindow(times: seq<int>, now: int)
    requires AllBy(times, now)
    ensures Recent(times, now, 0) == []
  {
    if times != [] {
      NothingRecentInAnEmptyWindow(times[1..], now);
    }
  }

  /** Either way at most one failure counts, so only a threshold of one is in question. */
  lemma WideBurstsCountTheSame(config: Config, s: Breaker)
    requires Inv(config, s) && FirstOpens(config, s) && s.mode == Closed
    requires config.failureCoalesceMs > config.failureWindowMs
    ensures |Recent(NoteFailure(config, s).failures, s.now, config.failureWindowMs)| >= config.failureThreshold
       <==> |Recent(Coalesced(s.failureLog + [s.now], config.failureCoalesceMs), s.now, config.failureWindowMs)|
            >= config.failureThreshold
  {
    var gap, windowMs := config.failureCoalesceMs, config.failureWindowMs;
    CoalescingKeepsTrain(s.failures, s.clearedAt, s.now, gap);
    LogGrows(s.failureLog, s.clearedAt, s.now);
    BurstsAreATrain(s.failureLog + [s.now], s.clearedAt, s.now, gap);
    var kept, all := NoteFailure(config, s).failures, Coalesced(s.failureLog + [s.now], gap);
    WideTrainShowsOne(kept, s.clearedAt, s.now, gap, windowMs);
    WideTrainShowsOne(all, s.clearedAt, s.now, gap, windowMs);
    if config.failureThreshold == 1 {
      if windowMs == 0 {
        NothingRecentInAnEmptyWindow(kept, s.now);
        NothingRecentInAnEmptyWindow(all, s.now);
      } else {
        assert [] + [s.now] == [s.now] && [s.now][..0] == [];
        assert kept == [s.now] && all == [s.now];
      }
    }
  }

  /**
   * It opens exactly when the bursts of failures since it closed, all of them ever recorded, number
   * the threshold inside the window.
   */
  lemma OpensExactlyWhen(config: Config, events: seq<Event>, call: nat)
    requires Run(config, FRESH, events).mode == Closed && Enabled(Run(config, FRESH, events), Finish(call, false))
    ensures var s := Run(config, FRESH, events);
            Step(config, s, Finish(call, false)).mode == Open
            <==> |Recent(Coalesced(s.failureLog + [s.now], config.failureCoalesceMs), s.now, config.failureWindowMs)|
                 >= config.failureThreshold
  {
    hide Inv, Coalesce, Recent, Coalesced, FirstOpens;
    var s := Run(config, FRESH, events);
    ReachableInv(config, events);
    var settled := Settled(s, call);
    SameFailures(config, s, settled);
    if config.failureCoalesceMs <= config.failureWindowMs {
      NotingKeepsInv(config, settled);
      PrunedIsAllRecent(config, NoteFailure(config, settled));
    } else {
      RunKeepsFirstOpens(config, events);
      SettlingKeepsFirstOpens(config, s, call);
      WideBurstsCountTheSame(config, settled);
    }
  }

  lemma SettlingKeepsFirstOpens(config: Config, s: Breaker, call: nat)
    requires FirstOpens(config, s)
    ensures FirstOpens(config, Settled(s, call))
  {
  }

  lemma PrunedIsAllRecent(config: Config, s: Breaker)
    requires Inv(config, s) && config.failureCoalesceMs <= config.failureWindowMs
    ensures Recent(s.failures, s.now, config.failureWindowMs)
         == Recent(Coalesced(s.failureLog, config.failureCoalesceMs), s.now, config.failureWindowMs)
  {
    SuffixIsAllThatIsRecent(s.failures, Coalesced(s.failureLog, config.failureCoalesceMs), s.now, config.failureWindowMs);
  }

  // ---- The slot a stale probe hands back. ----

  const ONE_PROBE: Config := Config(1, 10, 2, 1, 100, 5)

  /**
   * One probe is allowed at a time, yet two are out: the first spell's probe settles during the
   * second and gives back the slot that spell's own probe still holds.
   */
  const TWO_PROBES_OUT: seq<Event> := [
    Begin, Begin, Finish(0, false), Elapse(10), Begin, Finish(1, false),
    Elapse(10), Begin, Finish(2, true), Begin]

  const FIRST_SPELL: Breaker := Breaker(
    10, 3, {1}, {2}, {}, 0, 0, 0, [0], [Edge(Closed, Open), Edge(Open, HalfOpen)],
    true, 1, HalfOpen, 0, Some(0), 1, [0])

  const SECOND_SPELL: Breaker := Breaker(
    20, 4, {}, {3}, {2}, 0, 0, 0, [0, 10],
    [Edge(Closed, Open), Edge(Open, HalfOpen), Edge(HalfOpen, Open), Edge(Open, HalfOpen)],
    true, 1, HalfOpen, 0, Some(10), 1, [0, 10])

  lemma ReachesFirstSpell()
    ensures Step(ONE_PROBE, Step(ONE_PROBE, Step(ONE_PROBE, Step(ONE_PROBE, Step(ONE_PROBE, FRESH,
              Begin), Begin), Finish(0, false)), Elapse(10)), Begin) == FIRST_SPELL
  {
    var s2 := Step(ONE_PROBE, Step(ONE_PROBE, FRESH, Begin), Begin);
    assert s2 == FRESH.(plain := {0, 1}, nextCall := 2);
    var s3 := Step(ONE_PROBE, s2, Finish(0, false));
    assert Recent([0][1..], 0, 100) == [];
    assert Recent([0], 0, 100) == [0];
    assert s3.plain == {1} && s3.probes == {} && s3.stale == {} && s3.failures == [0];
    assert FIRST_SPELL.probes == {} + {2};
  }

  lemma ReachesSecondSpell()
    ensures Step(ONE_PROBE, Step(ONE_PROBE, Step(ONE_PROBE, FIRST_SPELL,
              Finish(1, false)), Elapse(10)), Begin) == SECOND_SPELL
  {
    var s6 := Step(ONE_PROBE, FIRST_SPELL, Finish(1, false));
    assert s6.plain == {} && s6.probes == {} && s6.stale == {2} && s6.mode == Open && s6.failures == [0, 10];
    var s8 := Step(ONE_PROBE, Step(ONE_PROBE, s6, Elapse(10)), Begin);
    assert s8.plain == {} && s8.probes == {3} && s8.stale == {2};
  }

  lemma StaleProbeFreesASlot()
    ensures var s := Run(ONE_PROBE, FRESH, TWO_PROBES_OUT);
            s.mode == HalfOpen && s.probes == {3, 4} && s.halfOpenRequests == ONE_PROBE.halfOpenProbes == 1
  {
    ReachesFirstSpell();
    ReachesSecondSpell();
    EndsWithTwoOut();
    hide Step, Run;
    var all := TWO_PROBES_OUT;
    BreakerTheorems.LastStep(ONE_PROBE, all, 1);
    BreakerTheorems.LastStep(ONE_PROBE, all, 2);
    BreakerTheorems.LastStep(ONE_PROBE, all, 3);
    BreakerTheorems.LastStep(ONE_PROBE, all, 4);
    BreakerTheorems.LastStep(ONE_PROBE, all, 5);
    BreakerTheorems.LastStep(ONE_PROBE, all, 6);
    BreakerTheorems.LastStep(ONE_PROBE, all, 7);
    BreakerTheorems.LastStep(ONE_PROBE, all, 8);
    BreakerTheorems.LastStep(ONE_PROBE, all, 9);
    BreakerTheorems.LastStep(ONE_PROBE, all, 10);
    BreakerTheorems.RunNothing(ONE_PROBE);
    assert all[..10] == all && all[..0] == [];
  }

  lemma EndsWithTwoOut()
    ensures var s := Step(ONE_PROBE, Step(ONE_PROBE, SECOND_SPELL, Finish(2, true)), Begin);
            s.mode == HalfOpen && s.probes == {3, 4} && s.halfOpenRequests == 1
  {
  }
}
