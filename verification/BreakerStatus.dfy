/** How many failures a status read reports, told by every failure recorded since the breaker closed. */
module BreakerStatus {
  import opened Options
  import opened SlidingWindow
  import opened BreakerSpec
  import BreakerTheorems
  import opened BreakerOpening

  /** The failures a status read reports after these events. */
  function Reported(config: Config, events: seq<Event>): nat {
    |Step(config, Run(config, FRESH, events), Status).failures|
  }

  /** The bursts inside the window, of all the failures recorded since the breaker last closed. */
  function BurstsInside(config: Config, events: seq<Event>): nat {
    var s := Run(config, FRESH, events);
    |Recent(Coalesced(s.failureLog, config.failureCoalesceMs), s.now, config.failureWindowMs)|
  }

  /** What a status reports is, after any events, the bursts inside the window. */
  ghost predicate StatusTellsTheBursts(config: Config) {
    forall events: seq<Event> :: Reported(config, events) == BurstsInside(config, events)
  }

  lemma TellsTheBursts(config: Config, events: seq<Event>)
    requires config.failureCoalesceMs <= config.failureWindowMs || config.failureWindowMs == 0
    ensures Reported(config, events) == BurstsInside(config, events)
  {
    ReachableInv(config, events);
    var s := Run(config, FRESH, events);
    if config.failureWindowMs == 0 {
      BurstsAreATrain(s.failureLog, s.clearedAt, s.now, config.failureCoalesceMs);
      NothingRecentInAnEmptyWindow(s.failures, s.now);
      NothingRecentInAnEmptyWindow(Coalesced(s.failureLog, config.failureCoalesceMs), s.now);
    } else {
      PrunedIsAllRecent(config, s);
    }
    hide Run, Recent, Coalesced;
  }

  // ---- A window narrower than the gap. ----

  /** A failure ages out, is pruned, and no longer absorbs the one that follows it within the gap. */
  function Absorbing(windowMs: nat): seq<Event> {
    [Begin, Begin, Finish(0, false), Elapse(windowMs), Status, Finish(1, false)]
  }

  predicate IsAgedOut(config: Config, s: Breaker) {
    && s.now == config.failureWindowMs && s.failures == [] && s.failureLog == [0]
    && s.plain == {1} && s.probes == {} && s.stale == {} && s.mode != HalfOpen
  }

  lemma FirstAgesOut(config: Config)
    requires config.failureWindowMs > 0
    ensures IsAgedOut(config, Step(config, Step(config, Step(config, Step(config, Step(config, FRESH,
              Begin), Begin), Finish(0, false)), Elapse(config.failureWindowMs)), Status))
  {
    var s2 := Step(config, Step(config, FRESH, Begin), Begin);
    assert s2 == FRESH.(plain := {0, 1}, nextCall := 2);
    assert [0][1..] == [];
    assert Recent([0], 0, config.failureWindowMs) == [0];
    assert Recent([0], config.failureWindowMs, config.failureWindowMs) == [];
    var s3 := Step(config, s2, Finish(0, false));
    assert {0, 1} - {0} == {1};
    assert s3.failures == [0] && s3.failureLog == [0] && s3.plain == {1} && s3.probes == {} && s3.stale == {} && s3.now == 0;
  }

  lemma SecondCountsAlone(config: Config, s: Breaker)
    requires IsAgedOut(config, s) && config.failureWindowMs > 0
    ensures IsAbsorbed(config, Step(config, s, Finish(1, false)))
  {
    var w := config.failureWindowMs;
    OneIsRecent(w);
    var noted := NoteFailure(config, Settled(s, 1));
    assert noted.failures == [w] && noted.failureLog == [0, w];
    hide Recent;
  }

  /** One failure is kept, another is logged less than the gap before it. */
  predicate IsAbsorbed(config: Config, s: Breaker) {
    s.now == config.failureWindowMs && s.failures == [s.now] && s.failureLog == [0, s.now]
  }

  lemma OneIsRecent(windowMs: nat)
    requires windowMs > 0
    ensures Recent([windowMs], windowMs, windowMs) == [windowMs] && Recent([0], windowMs, windowMs) == []
  {
    assert [windowMs][1..] == [] && [0][1..] == [];
    assert Recent([], windowMs, windowMs) == [];
  }

  lemma AbsorbingIsAbsorbed(config: Config)
    requires config.failureWindowMs > 0
    ensures IsAbsorbed(config, Run(config, FRESH, Absorbing(config.failureWindowMs)))
  {
    hide Step, Run, IsAgedOut, IsAbsorbed;
    var all := Absorbing(config.failureWindowMs);
    FirstAgesOut(config);
    BreakerTheorems.LastStep(config, all, 1);
    BreakerTheorems.LastStep(config, all, 2);
    BreakerTheorems.LastStep(config, all, 3);
    BreakerTheorems.LastStep(config, all, 4);
    BreakerTheorems.LastStep(config, all, 5);
    BreakerTheorems.LastStep(config, all, 6);
    BreakerTheorems.RunNothing(config);
    assert all[..0] == [] && all[..6] == all;
    SecondCountsAlone(config, Run(config, FRESH, all[..5]));
  }

  /** Such a status reports one failure, where the log holds no burst inside the window. */
  lemma AbsorbingTellsOther(config: Config)
    requires config.failureCoalesceMs > config.failureWindowMs > 0
    ensures Reported(config, Absorbing(config.failureWindowMs)) == 1
    ensures BurstsInside(config, Absorbing(config.failureWindowMs)) == 0
  {
    AbsorbingIsAbsorbed(config);
    OneIsRecent(config.failureWindowMs);
    FirstAbsorbsSecond(config.failureWindowMs, config.failureCoalesceMs);
    hide Run, Recent, Coalesced;
  }

  lemma FirstAbsorbsSecond(at: nat, gap: nat)
    requires at < gap
    ensures Coalesced([0, at], gap) == [0]
  {
    assert [0, at][..1] == [0] && [0][..0] == [];
    assert Coalesced([], gap) == [] && Coalesced([0], gap) == [0];
  }

  /**
   * What a status reports is always the bursts inside the window, if and only if the coalescing gap
   * does not exceed the window (or the window is empty).
   */
  lemma StatusTellsTheBurstsExactlyWhen(config: Config)
    ensures StatusTellsTheBursts(config)
       <==> config.failureCoalesceMs <= config.failureWindowMs || config.failureWindowMs == 0
  {
    hide Reported, BurstsInside;
    if config.failureCoalesceMs <= config.failureWindowMs || config.failureWindowMs == 0 {
      forall events: seq<Event> ensures Reported(config, events) == BurstsInside(config, events) {
        TellsTheBursts(config, events);
      }
    } else {
      AbsorbingTellsOther(config);
    }
  }
}
