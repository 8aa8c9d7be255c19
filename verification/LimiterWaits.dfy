/** How long a claim is kept: exactly as long as every grant ever made calls for. */
module LimiterWaits {
  import opened Options
  import opened LimiterSpec
  import opened LimiterTheorems
  import opened SlidingWindow

  /** A grant at `at` comes the configured gap after the last one and leaves every window under its ceiling. */
  predicate KeepsBothPromises(config: Config, times: seq<int>, at: int) {
    && (times != [] ==> at - times[|times| - 1] >= config.minIntervalMs)
    && (|times| >= Cap(config) ==> at - times[|times| - Cap(config)] >= config.windowMs)
  }

  /** The wait needed ends at the earliest instant, from now on, that keeps both promises. */
  lemma NeededWaitIsTheLeast(config: Config, times: seq<int>, now: int, at: int)
    requires at >= now
    ensures KeepsBothPromises(config, times, at) <==> at >= now + NeededWaitMs(config, times, now)
  {
  }

  /** What a claim is due: nothing once the last grant is forgotten, otherwise what the history calls for. */
  function DueWaitMs(config: Config, times: seq<int>, now: int): int {
    if LastIsForgotten(config, times, now) then 0 else NeededWaitMs(config, times, now)
  }

  /**
   * Over every run, the head of the chain is refused if and only if it would have to wait longer
   * than allowed, and otherwise waits exactly as long as the whole history calls for: not at all, or
   * asleep until precisely then. No sleep is longer than the larger of the gap and the window.
   */
  lemma KeptExactlyAsLongAsNeeded(config: Config, events: seq<Event>, lag: nat)
    requires Run(config, FRESH, events).sleeping.None? && Run(config, FRESH, events).waiting != []
    ensures var s := Run(config, FRESH, events); var t := Step(config, s, Begin(lag));
            var due := DueWaitMs(config, s.grants, s.now);
            && 0 <= due && t.waiting == s.waiting[1..] && t.arrivals == s.arrivals
            && (due > config.maxWaitMs ==>
                  t.sleeping.None? && t.grants == s.grants && t.served == s.served && t.now == s.now)
            && (0 < due <= config.maxWaitMs ==>
                  && t.sleeping == Some(Claim(s.waiting[0], s.now + due))
                  && due <= Max(config.minIntervalMs, config.windowMs)
                  && t.grants == s.grants && t.served == s.served && t.now == s.now)
            && (due == 0 ==>
                  && t.sleeping.None? && t.now == s.now + lag
                  && t.grants == s.grants + [s.now + lag] && t.served == s.served + [s.waiting[0]])
  {
    PruningLosesNothingExactlyWhen(config, events);
    NoWaitBeyondTheWindow(config, events);
    hide Run, WaitMs, Recent, LastIsForgotten;
  }

  /** A sleeping claim is granted the moment it wakes, and an abandoned one takes nothing. */
  lemma SleepersWakeToAGrant(config: Config, s: Limiter, e: Event)
    requires !e.Begin?
    ensures var t := Step(config, s, e);
            if e.Wake? && s.sleeping.Some? && s.sleeping.value.wakeAt <= s.now then
              && t.grants == s.grants + [s.now] && t.served == s.served + [s.sleeping.value.id]
              && t.sleeping.None? && t.waiting == s.waiting && t.arrivals == s.arrivals
            else
              && t.grants == s.grants && t.served == s.served
              && t.sleeping == (if e.Abort? then None else s.sleeping)
              && t.waiting == (if e.Arrive? then s.waiting + [s.arrivals] else s.waiting)
              && t.arrivals == (if e.Arrive? then s.arrivals + 1 else s.arrivals)
  {
  }

  lemma {:induction false} RecentAreTheOnesInside(times: seq<int>, now: int, windowMs: nat)
    requires AllBy(times, now)
    ensures |Recent(times, now, windowMs)| == CountIn(times, now - windowMs + 1, windowMs)
  {
    if times != [] {
      RecentAreTheOnesInside(times[1..], now, windowMs);
    }
  }

  lemma {:induction false} DroppedAreOutside(kept: seq<int>, times: seq<int>, now: int, windowMs: nat)
    requires IsRecentSuffix(kept, times, now, windowMs)
    ensures CountIn(kept, now - windowMs + 1, windowMs) == CountIn(times, now - windowMs + 1, windowMs)
  {
    if |kept| == |times| {
      assert kept == times;
    } else {
      assert now - times[0] >= windowMs;
      assert times[1..][|times[1..]| - |kept|..] == times[|times| - |kept|..];
      DroppedAreOutside(kept, times[1..], now, windowMs);
    }
  }

  /** Over every run, a status read is left with exactly as many entries as grants lie inside the window. */
  lemma StatusCountsTheWindow(config: Config, events: seq<Event>)
    ensures var s := Run(config, FRESH, events); var t := Step(config, s, Status);
            && |t.timestamps| == CountIn(s.grants, s.now - config.windowMs + 1, config.windowMs)
            && t == s.(timestamps := t.timestamps)
  {
    RunKeepsInv(config, FRESH, events);
    var s := Run(config, FRESH, events);
    hide Run, Recent, CountIn;
    DroppedAreOutside(s.timestamps, s.grants, s.now, config.windowMs);
    KeptAreBy(s);
    RecentAreTheOnesInside(s.timestamps, s.now, config.windowMs);
  }

  lemma KeptAreBy(s: Limiter)
    requires AllBy(s.grants, s.now) && |s.timestamps| <= |s.grants|
    requires s.timestamps == s.grants[|s.grants| - |s.timestamps|..]
    ensures AllBy(s.timestamps, s.now)
  {
  }

  /** A claim refused or abandoned at the `k`th event of a run. */
  predicate IsDroppedAt(config: Config, events: seq<Event>, k: nat, id: nat)
    requires k < |events|
  {
    var s := Run(config, FRESH, events[..k]);
    || (events[k].Abort? && s.sleeping.Some? && s.sleeping.value.id == id)
    || (events[k].Begin? && s.sleeping.None? && s.waiting != [] && s.waiting[0] == id
        && DueWaitMs(config, s.grants, s.now) > config.maxWaitMs)
  }

  predicate IsHere(s: Limiter, id: nat) {
    || id in s.served || id in s.waiting
    || (s.sleeping.Some? && s.sleeping.value.id == id)
  }

  lemma StaysOrIsDropped(config: Config, events: seq<Event>, id: nat)
    requires events != []
    requires id < Run(config, FRESH, events).arrivals
    requires var s := Run(config, FRESH, events[..|events| - 1]);
             id < s.arrivals ==> IsHere(s, id)
    ensures IsHere(Run(config, FRESH, events), id) || IsDroppedAt(config, events, |events| - 1, id)
  {
    var most, e := events[..|events| - 1], events[|events| - 1];
    var s := Run(config, FRESH, most);
    if e.Begin? {
      if s.sleeping.None? && s.waiting != [] {
        KeptExactlyAsLongAsNeeded(config, most, e.lag);
        hide Step, DueWaitMs;
        var t := Run(config, FRESH, events);
        assert id in s.waiting ==> id == s.waiting[0] || id in t.waiting;
        assert s.waiting[0] in t.served || t.sleeping.Some? || IsDroppedAt(config, events, |events| - 1, s.waiting[0]);
      }
    } else {
      SleepersWakeToAGrant(config, s, e);
      hide Step, DueWaitMs;
      var t := Run(config, FRESH, events);
      assert e.Arrive? ==> s.arrivals in t.waiting;
      assert forall x :: x in s.served ==> x in t.served;
    }
  }

  /**
   * Every claim that arrived has been granted, is waiting or asleep, or was dropped in one of the
   * only two ways: its caller abandoned it, or it would have had to wait longer than allowed.
   */
  lemma {:induction false} NobodyIsDroppedOtherwise(config: Config, events: seq<Event>, id: nat) returns (k: nat)
    requires id < Run(config, FRESH, events).arrivals
    ensures IsHere(Run(config, FRESH, events), id) || (k < |events| && IsDroppedAt(config, events, k, id))
  {
    var most := events[..|events| - 1];
    k := |events| - 1;
    if id < Run(config, FRESH, most).arrivals {
      var before := NobodyIsDroppedOtherwise(config, most, id);
      if !IsHere(Run(config, FRESH, most), id) {
        assert most[..before] == events[..before];
        k := before;
        return;
      }
    }
    StaysOrIsDropped(config, events, id);
  }
}
