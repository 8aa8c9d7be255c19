/**
 * Lists of instants from which the oldest are dropped once they leave a sliding window. The request
 * limiter and the circuit breaker both keep one.
 */
module SlidingWindow {
  predicate Sorted(times: seq<int>) {
    forall i, j :: 0 <= i <= j < |times| ==> times[i] <= times[j]
  }

  predicate AllBy(times: seq<int>, now: int) {
    forall i :: 0 <= i < |times| ==> times[i] <= now
  }

  predicate Spaced(times: seq<int>, gap: nat) {
    forall i :: 0 < i < |times| ==> times[i] - times[i - 1] >= gap
  }

  /** The entries a prune keeps, the filter that both prunes apply. */
  function Recent(timestamps: seq<int>, now: int, windowMs: nat): seq<int> {
    if timestamps == [] then []
    else if now - timestamps[0] < windowMs then [timestamps[0]] + Recent(timestamps[1..], now, windowMs)
    else Recent(timestamps[1..], now, windowMs)
  }

  /** `kept` is what remains of `times` once a prefix that is out of the window was dropped. */
  predicate IsRecentSuffix(kept: seq<int>, times: seq<int>, now: int, windowMs: nat) {
    && |kept| <= |times|
    && kept == times[|times| - |kept|..]
    && forall i :: 0 <= i < |times| - |kept| ==> now - times[i] >= windowMs
  }

  lemma {:induction false} RecentIsSuffix(kept: seq<int>, now: int, windowMs: nat)
    requires Sorted(kept)
    ensures IsRecentSuffix(Recent(kept, now, windowMs), kept, now, windowMs)
    ensures Recent(kept, now, windowMs) != [] ==> now - Recent(kept, now, windowMs)[0] < windowMs
  {
    if kept != [] {
      assert Sorted(kept[1..]);
      RecentIsSuffix(kept[1..], now, windowMs);
      if now - kept[0] < windowMs {
        YoungListIsKept(kept, now, windowMs);
      }
    }
  }

  lemma {:induction false} YoungListIsKept(kept: seq<int>, now: int, windowMs: nat)
    requires Sorted(kept) && (kept != [] ==> now - kept[0] < windowMs)
    ensures Recent(kept, now, windowMs) == kept
  {
    if kept != [] {
      YoungListIsKept(kept[1..], now, windowMs);
    }
  }

  /** Dropping again from what was already dropped from is still dropping from the whole. */
  lemma PruningKeepsSuffix(kept: seq<int>, times: seq<int>, now: int, windowMs: nat)
    requires Sorted(times) && IsRecentSuffix(kept, times, now, windowMs)
    ensures IsRecentSuffix(Recent(kept, now, windowMs), times, now, windowMs)
  {
    assert Sorted(kept);
    RecentIsSuffix(kept, now, windowMs);
    var pruned := Recent(kept, now, windowMs);
    var d := |times| - |kept|;
    forall i | 0 <= i < |times| - |pruned| ensures now - times[i] >= windowMs {
      if i >= d {
        assert times[i] == kept[i - d];
      }
    }
  }

  lemma {:induction false} RecentIsShorter(kept: seq<int>, now: int, windowMs: nat)
    ensures |Recent(kept, now, windowMs)| <= |kept|
  {
    if kept != [] {
      RecentIsShorter(kept[1..], now, windowMs);
    }
  }

  lemma SuffixGrows(kept: seq<int>, times: seq<int>, now: int, windowMs: nat)
    requires IsRecentSuffix(kept, times, now, windowMs)
    ensures IsRecentSuffix(kept + [now], times + [now], now, windowMs)
  {
  }
}
