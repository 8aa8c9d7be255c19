/** The pruned list is as good as the whole history. */
module LimiterTheorems {
  import opened Options
  import opened LimiterSpec
  import opened SlidingWindow

  /** With no slots at all configured the code still grants one per window. */
  function Cap(config: Config): nat {
    if config.maxRequests == 0 then 1 else config.maxRequests
  }

  /** The spacing the code keeps: an entry older than the window no longer holds the next one back. */
  function Gap(config: Config): nat {
    if config.minIntervalMs <= config.windowMs then config.minIntervalMs else config.windowMs
  }

  predicate Windowed(times: seq<int>, cap: nat, windowMs: nat) {
    forall i :: 0 <= i < |times| - cap ==> times[i + cap] - times[i] >= windowMs
  }

  /** A grant at `at` would keep both promises. */
  predicate MayGrant(config: Config, times: seq<int>, at: int) {
    && (times != [] ==> at - times[|times| - 1] >= Gap(config))
    && (|times| >= Cap(config) ==> at - times[|times| - Cap(config)] >= config.windowMs)
  }

  predicate TimesOk(config: Config, times: seq<int>, now: int) {
    && Sorted(times) && AllBy(times, now)
    && Spaced(times, Gap(config)) && Windowed(times, Cap(config), config.windowMs)
  }

  predicate IdsOk(s: Limiter) {
    && (forall i, j :: 0 <= i < j < |s.served| ==> s.served[i] < s.served[j])
    && (forall i, j :: 0 <= i < j < |s.waiting| ==> s.waiting[i] < s.waiting[j])
    && (forall i, j :: 0 <= i < |s.served| && 0 <= j < |s.waiting| ==> s.served[i] < s.waiting[j])
    && (forall i :: 0 <= i < |s.served| ==> s.served[i] < s.arrivals)
    && (forall i :: 0 <= i < |s.waiting| ==> s.waiting[i] < s.arrivals)
    && (s.sleeping.Some? ==>
          && s.sleeping.value.id < s.arrivals
          && (forall i :: 0 <= i < |s.served| ==> s.served[i] < s.sleeping.value.id)
          && (forall i :: 0 <= i < |s.waiting| ==> s.sleeping.value.id < s.waiting[i]))
  }

  predicate Inv(config: Config, s: Limiter) {
    && TimesOk(config, s.grants, s.now)
    && |s.served| == |s.grants|
    && IsRecentSuffix(s.timestamps, s.grants, s.now, config.windowMs)
    && (s.sleeping.Some? ==> MayGrant(config, s.grants, s.sleeping.value.wakeAt))
    && IdsOk(s)
  }

  lemma ACapApart(times: seq<int>, cap: nat, windowMs: nat, i: nat)
    requires Windowed(times, cap, windowMs) && i + cap < |times|
    ensures times[i + cap] - times[i] >= windowMs
  {
  }

  /** A whole window of grants is never more than the cap, so nor is what is kept. */
  lemma KeptFitsTheCap(config: Config, kept: seq<int>, times: seq<int>, now: int)
    requires TimesOk(config, times, now) && IsRecentSuffix(kept, times, now, config.windowMs)
    requires kept != [] ==> now - kept[0] < config.windowMs
    ensures |kept| <= Cap(config)
  {
    assert kept != [] ==> kept[0] == times[|times| - |kept|];
    if |kept| > Cap(config) {
      ACapApart(times, Cap(config), config.windowMs, |times| - |kept|);
      assert false;
    }
  }

  /** What a claim waits for is enough, whatever was pruned away. */
  lemma WaitingIsEnough(config: Config, kept: seq<int>, times: seq<int>, now: int)
    requires TimesOk(config, times, now) && IsRecentSuffix(kept, times, now, config.windowMs)
    requires kept != [] ==> now - kept[0] < config.windowMs
    ensures MayGrant(config, times, now + WaitMs(config, kept, now))
  {
    var n, cap := |times|, Cap(config);
    var at := now + WaitMs(config, kept, now);
    assert at >= now;
    if kept != [] {
      assert kept[|kept| - 1] == times[n - 1];
    }
    if n >= cap {
      if |kept| < cap {
        assert now - times[n - cap] >= config.windowMs;
      } else {
        KeptFitsTheCap(config, kept, times, now);
        assert kept[0] == times[n - cap];
      }
    }
  }

  lemma GrantingKeepsTimes(config: Config, times: seq<int>, now: int)
    requires TimesOk(config, times, now) && MayGrant(config, times, now)
    ensures TimesOk(config, times + [now], now)
  {
    var after := times + [now];
    forall i | 0 <= i < |after| - Cap(config)
      ensures after[i + Cap(config)] - after[i] >= config.windowMs
    {
      if i + Cap(config) < |times| {
        assert times[i + Cap(config)] - times[i] >= config.windowMs;
      }
    }
    forall i | 0 < i < |after| ensures after[i] - after[i - 1] >= Gap(config) {
    }
  }

  lemma PruneKeepsInv(config: Config, s: Limiter)
    requires Inv(config, s)
    ensures Inv(config, Prune(config, s))
    ensures Prune(config, s).timestamps != [] ==> s.now - Prune(config, s).timestamps[0] < config.windowMs
  {
    PruningKeepsSuffix(s.timestamps, s.grants, s.now, config.windowMs);
    assert Sorted(s.timestamps);
    RecentIsSuffix(s.timestamps, s.now, config.windowMs);
  }

  lemma LaterIsStillFine(config: Config, times: seq<int>, at: int, later: int)
    requires MayGrant(config, times, at) && at <= later
    ensures MayGrant(config, times, later)
  {
  }

  predicate IsNext(s: Limiter, id: nat) {
    && id < s.arrivals
    && (forall i :: 0 <= i < |s.served| ==> s.served[i] < id)
    && (forall i :: 0 <= i < |s.waiting| ==> id < s.waiting[i])
  }

  /** A grant to the claim that is next in line, with nobody asleep. */
  lemma GrantKeepsInv(config: Config, s: Limiter, id: nat)
    requires Inv(config, s) && s.sleeping.None? && MayGrant(config, s.grants, s.now)
    requires IsNext(s, id)
    ensures Inv(config, Grant(s, id))
  {
    GrantingKeepsTimes(config, s.grants, s.now);
    SuffixGrows(s.timestamps, s.grants, s.now, config.windowMs);
  }

  lemma TimePassesKeepsInv(config: Config, s: Limiter, ms: nat)
    requires Inv(config, s)
    ensures Inv(config, s.(now := s.now + ms))
  {
  }

  lemma TakingTheHeadKeepsInv(config: Config, s: Limiter)
    requires Inv(config, s) && s.waiting != []
    requires s.sleeping.None?
    ensures Inv(config, s.(waiting := s.waiting[1..]))
    ensures IsNext(s.(waiting := s.waiting[1..]), s.waiting[0])
  {
  }

  lemma SleepingKeepsInv(config: Config, s: Limiter, claim: Claim)
    requires Inv(config, s) && s.sleeping.None? && IsNext(s, claim.id)
    requires MayGrant(config, s.grants, claim.wakeAt)
    ensures Inv(config, s.(sleeping := Some(claim)))
  {
  }

  lemma BeginKeepsInv(config: Config, s: Limiter, lag: nat)
    requires Inv(config, s) && s.waiting != [] && s.sleeping.None?
    ensures Inv(config, BeginClaim(config, s, lag))
  {
    hide MayGrant, TimesOk, WaitMs, Recent, IdsOk, IsNext, IsRecentSuffix;
    var id := s.waiting[0];
    var popped := s.(waiting := s.waiting[1..]);
    TakingTheHeadKeepsInv(config, s);
    PruneKeepsInv(config, popped);
    var pruned := Prune(config, popped);
    var waitMs := WaitMs(config, pruned.timestamps, s.now);
    WaitingIsEnough(config, pruned.timestamps, s.grants, s.now);
    NextStaysNext(popped, pruned, id);
    if waitMs <= config.maxWaitMs {
      if waitMs > 0 {
        SleepingKeepsInv(config, pruned, Claim(id, s.now + waitMs));
      } else {
        var late := pruned.(now := s.now + lag);
        TimePassesKeepsInv(config, pruned, lag);
        LaterIsStillFine(config, s.grants, s.now + waitMs, s.now + lag);
        NextStaysNext(popped, late, id);
        GrantKeepsInv(config, late, id);
      }
    }
  }

  lemma NextStaysNext(s: Limiter, t: Limiter, id: nat)
    requires IsNext(s, id) && t.arrivals == s.arrivals && t.served == s.served && t.waiting == s.waiting
    ensures IsNext(t, id)
  {
  }

  lemma StepKeepsInv(config: Config, s: Limiter, e: Event)
    requires Inv(config, s)
    ensures Inv(config, Step(config, s, e))
  {
    hide MayGrant, TimesOk, IsRecentSuffix, BeginClaim, Grant, Prune;
    if Enabled(s, e) {
      match e
      case Arrive =>
      case Begin(lag) => BeginKeepsInv(config, s, lag);
      case Wake =>
        LaterIsStillFine(config, s.grants, s.sleeping.value.wakeAt, s.now);
        GrantKeepsInv(config, s.(sleeping := None), s.sleeping.value.id);
      case Abort =>
      case Status => PruneKeepsInv(config, s);
      case Elapse(ms) => TimePassesKeepsInv(config, s, ms);
    }
  }

  lemma {:induction false} RunKeepsInv(config: Config, s: Limiter, events: seq<Event>)
    requires Inv(config, s)
    ensures Inv(config, Run(config, s, events))
  {
    if events != [] {
      RunKeepsInv(config, s, events[..|events| - 1]);
      StepKeepsInv(config, Run(config, s, events[..|events| - 1]), events[|events| - 1]);
    }
  }

  // ---- The promises, over every run. ----

  /** How many grants fall in the half-open window that begins at `from`. */
  function CountIn(times: seq<int>, from: int, windowMs: nat): nat {
    if times == [] then 0
    else (if from <= times[0] < from + windowMs then 1 else 0) + CountIn(times[1..], from, windowMs)
  }

  lemma {:induction false} NoneBefore(times: seq<int>, from: int, windowMs: nat)
    requires Sorted(times) && (times != [] ==> times[0] >= from + windowMs)
    ensures CountIn(times, from, windowMs) == 0
  {
    if times != [] {
      NoneBefore(times[1..], from, windowMs);
    }
  }

  /** A run of entries in the window is cut off by the first one `cap` places on. */
  lemma {:induction false} InsideIsCutOff(times: seq<int>, from: int, windowMs: nat, cap: nat)
    requires Sorted(times)
    requires |times| > cap ==> times[cap] >= from + windowMs
    ensures CountIn(times, from, windowMs) <= cap
  {
    if times == [] {
    } else if cap == 0 {
      NoneBefore(times, from, windowMs);
    } else {
      InsideIsCutOff(times[1..], from, windowMs, cap - 1);
    }
  }

  lemma {:induction false} WindowedMeansFew(times: seq<int>, from: int, windowMs: nat, cap: nat)
    requires Sorted(times) && Windowed(times, cap, windowMs)
    ensures CountIn(times, from, windowMs) <= cap
  {
    if times != [] {
      if times[0] >= from {
        if |times| > cap {
          assert times[0 + cap] - times[0] >= windowMs;
        }
        InsideIsCutOff(times, from, windowMs, cap);
      } else {
        forall i | 0 <= i < |times[1..]| - cap ensures times[1..][i + cap] - times[1..][i] >= windowMs {
          assert times[i + 1 + cap] - times[i + 1] >= windowMs;
        }
        WindowedMeansFew(times[1..], from, windowMs, cap);
      }
    }
  }

  lemma GrantsKeepTheirPromises(config: Config, events: seq<Event>, from: int)
    ensures CountIn(Run(config, FRESH, events).grants, from, config.windowMs) <= Cap(config)
    ensures Spaced(Run(config, FRESH, events).grants, Gap(config))
    ensures Sorted(Run(config, FRESH, events).grants)
  {
    RunKeepsInv(config, FRESH, events);
    WindowedMeansFew(Run(config, FRESH, events).grants, from, config.windowMs, Cap(config));
  }

  /** The configured ceiling holds over the whole history, for every window of every run. */
  ghost predicate CeilingHolds(config: Config) {
    forall events: seq<Event>, from: int ::
      CountIn(Run(config, FRESH, events).grants, from, config.windowMs) <= config.maxRequests
  }

  /** The configured gap holds between any two consecutive grants of every run. */
  ghost predicate GapHolds(config: Config) {
    forall events: seq<Event> :: Spaced(Run(config, FRESH, events).grants, config.minIntervalMs)
  }

  /** With no slots configured a claim is still granted as soon as it arrives. */
  lemma NoSlotsStillGrantsOne(config: Config)
    requires config.maxRequests == 0
    ensures Run(config, FRESH, [Arrive, Begin(0)]).grants == [0]
  {
    var events := [Arrive, Begin(0)];
    assert events[..1] == [Arrive];
    assert events[..1][..0] == [];
    assert Run(config, FRESH, [Arrive]) == Step(config, FRESH, Arrive);
    assert Run(config, FRESH, events) == Step(config, Run(config, FRESH, events[..1]), Begin(0));
  }

  lemma CeilingHoldsExactlyWhen(config: Config)
    ensures CeilingHolds(config) <==> config.maxRequests >= 1 || config.windowMs == 0
  {
    if config.maxRequests >= 1 || config.windowMs == 0 {
      forall events: seq<Event>, from: int
        ensures CountIn(Run(config, FRESH, events).grants, from, config.windowMs) <= config.maxRequests
      {
        GrantsKeepTheirPromises(config, events, from);
        if config.windowMs == 0 {
          NothingInAnEmptyWindow(Run(config, FRESH, events).grants, from);
        }
      }
    } else {
      NoSlotsStillGrantsOne(config);
      assert CountIn([0], 0, config.windowMs) == 1;
      assert CountIn(Run(config, FRESH, [Arrive, Begin(0)]).grants, 0, config.windowMs) > config.maxRequests;
    }
  }

  lemma {:induction false} NothingInAnEmptyWindow(times: seq<int>, from: int)
    ensures CountIn(times, from, 0) == 0
  {
    if times != [] {
      NothingInAnEmptyWindow(times[1..], from);
    }
  }

  /** Once the last grant has aged out of the window its spacing is forgotten with it. */
  lemma ForgottenSpacing(config: Config)
    requires config.minIntervalMs > config.windowMs
    ensures Run(config, FRESH, [Arrive, Begin(0), Elapse(config.windowMs), Arrive, Begin(0)]).grants
         == [0, config.windowMs]
  {
    var events := [Arrive, Begin(0), Elapse(config.windowMs), Arrive, Begin(0)];
    assert events[..4][..3] == events[..3] && events[..3][..2] == events[..2] && events[..2][..1] == events[..1];
    var s1 := Step(config, FRESH, Arrive);
    var s2 := Step(config, s1, Begin(0));
    var s3 := Step(config, s2, Elapse(config.windowMs));
    var s4 := Step(config, s3, Arrive);
    assert Run(config, FRESH, events[..0]) == FRESH;
    assert Run(config, FRESH, events[..1]) == s1;
    assert Run(config, FRESH, events[..2]) == s2;
    assert Run(config, FRESH, events[..3]) == s3;
    assert Run(config, FRESH, events[..4]) == s4;
    assert s2.timestamps == [0] && s2.grants == [0];
    assert Recent([0][1..], config.windowMs, config.windowMs) == [];
    assert Recent([0], config.windowMs, config.windowMs) == [];
  }

  lemma GapHoldsExactlyWhen(config: Config)
    ensures GapHolds(config) <==> config.minIntervalMs <= config.windowMs
  {
    if config.minIntervalMs <= config.windowMs {
      forall events: seq<Event> ensures Spaced(Run(config, FRESH, events).grants, config.minIntervalMs) {
        GrantsKeepTheirPromises(config, events, 0);
      }
    } else {
      ForgottenSpacing(config);
      var events := [Arrive, Begin(0), Elapse(config.windowMs), Arrive, Begin(0)];
      var grants := Run(config, FRESH, events).grants;
      assert grants[1] - grants[0] < config.minIntervalMs;
      assert !Spaced(grants, config.minIntervalMs);
    }
  }

  /** Claims are granted in the order they arrived, each at most once. */
  lemma GrantsAreInArrivalOrder(config: Config, events: seq<Event>, i: nat, j: nat)
    requires i < j < |Run(config, FRESH, events).served|
    ensures Run(config, FRESH, events).served[i] < Run(config, FRESH, events).served[j]
    ensures |Run(config, FRESH, events).served| == |Run(config, FRESH, events).grants|
  {
    RunKeepsInv(config, FRESH, events);
  }

  /** The least wait after which one more grant breaks neither rule, judged by every grant ever made. */
  function NeededWaitMs(config: Config, times: seq<int>, now: int): int {
    Max(if times == [] then 0 else Max(0, times[|times| - 1] + config.minIntervalMs - now),
        if |times| < Cap(config) then 0
        else Max(0, times[|times| - Cap(config)] + config.windowMs - now))
  }

  /** The last grant is out of the window yet still nearer than the gap: the one thing pruning forgets. */
  predicate LastIsForgotten(config: Config, times: seq<int>, now: int) {
    times != [] && config.windowMs <= now - times[|times| - 1] < config.minIntervalMs
  }

  /** The wait worked out from the pruned list is the one the whole history calls for, unless that is so. */
  lemma PruningLosesNothingExactlyWhen(config: Config, events: seq<Event>)
    ensures var s := Run(config, FRESH, events);
            WaitMs(config, Recent(s.timestamps, s.now, config.windowMs), s.now) == NeededWaitMs(config, s.grants, s.now)
            <==> !LastIsForgotten(config, s.grants, s.now)
    ensures var s := Run(config, FRESH, events);
            LastIsForgotten(config, s.grants, s.now) ==>
              WaitMs(config, Recent(s.timestamps, s.now, config.windowMs), s.now) == 0
  {
    hide TimesOk, IsRecentSuffix, IdsOk, MayGrant;
    FreshIsOk(config);
    RunKeepsInv(config, FRESH, events);
    var s := Run(config, FRESH, events);
    PruneKeepsInv(config, s);
    hide Run, WaitMs, NeededWaitMs, LastIsForgotten;
    WaitIsTheNeededOneExactlyWhen(config, Prune(config, s).timestamps, s.grants, s.now);
  }

  lemma FreshIsOk(config: Config)
    ensures Inv(config, FRESH)
  {
  }

  lemma WaitIsTheNeededOneExactlyWhen(config: Config, kept: seq<int>, times: seq<int>, now: int)
    requires TimesOk(config, times, now) && IsRecentSuffix(kept, times, now, config.windowMs)
    requires kept != [] ==> now - kept[0] < config.windowMs
    ensures WaitMs(config, kept, now) == NeededWaitMs(config, times, now) <==> !LastIsForgotten(config, times, now)
    ensures LastIsForgotten(config, times, now) ==> WaitMs(config, kept, now) == 0
  {
    var n, cap := |times|, Cap(config);
    if kept != [] {
      assert kept[|kept| - 1] == times[n - 1];
      assert now - kept[|kept| - 1] <= now - kept[0];
    } else if times != [] {
      assert now - times[n - 1] >= config.windowMs;
    }
    if n >= cap {
      if |kept| < cap {
        assert now - times[n - cap] >= config.windowMs;
      } else {
        KeptFitsTheCap(config, kept, times, now);
        assert kept[0] == times[n - cap];
      }
    }
  }

  /** A claim that is refused or abandoned leaves the record of grants alone. */
  lemma OnlyAGrantUsesASlot(config: Config, s: Limiter, e: Event)
    requires Inv(config, s)
    ensures var t := Step(config, s, e);
            || (t.grants == s.grants && t.served == s.served && |t.timestamps| <= |s.timestamps|)
            || (t.grants == s.grants + [t.now] && t.timestamps != [] && t.timestamps[|t.timestamps| - 1] == t.now)
    ensures e.Abort? || e.Status? || e.Elapse? || e.Arrive? ==> Step(config, s, e).grants == s.grants
    ensures e.Begin? && Enabled(s, e)
            && WaitMs(config, Recent(s.timestamps, s.now, config.windowMs), s.now) > config.maxWaitMs
            ==> Step(config, s, e).grants == s.grants && Step(config, s, e).sleeping.None?
  {
    PruneKeepsInv(config, s);
    RecentIsShorter(s.timestamps, s.now, config.windowMs);
  }

  /** Nobody who is let through is kept longer than the larger of the gap and the window. */
  lemma NoWaitBeyondTheWindow(config: Config, events: seq<Event>)
    ensures var s := Run(config, FRESH, events);
            WaitMs(config, Recent(s.timestamps, s.now, config.windowMs), s.now)
              <= Max(config.minIntervalMs, config.windowMs)
  {
    RunKeepsInv(config, FRESH, events);
    var s := Run(config, FRESH, events);
    PruneKeepsInv(config, s);
  }
}
