/** Nearest-rank percentiles over a window of samples. */
module Percentiles {
  // ---- Sorting a copy of the window. ----

  predicate IsSorted(s: seq<real>) {
    forall i, j :: 0 <= i <= j < |s| ==> s[i] <= s[j]
  }

  function Insert(x: real, s: seq<real>): seq<real> {
    if s == [] || x <= s[0] then [x] + s else [s[0]] + Insert(x, s[1..])
  }

  function SortedCopy(s: seq<real>): seq<real> {
    if s == [] then [] else Insert(s[0], SortedCopy(s[1..]))
  }

  lemma {:induction false} InsertKeepsOrder(x: real, s: seq<real>)
    requires IsSorted(s)
    ensures IsSorted(Insert(x, s)) && multiset(Insert(x, s)) == multiset(s) + multiset{x}
  {
    if s != [] {
      assert s == [s[0]] + s[1..];
      if x > s[0] {
        InsertKeepsOrder(x, s[1..]);
        var rest := Insert(x, s[1..]);
        forall k | 0 <= k < |rest| ensures s[0] <= rest[k] {
          assert rest[k] in multiset(rest);
          assert rest[k] in multiset(s[1..]) + multiset{x};
        }
      }
    }
  }

  /** The same samples, in order. */
  lemma {:induction false} SortedCopyIsSorted(s: seq<real>)
    ensures IsSorted(SortedCopy(s)) && multiset(SortedCopy(s)) == multiset(s) && |SortedCopy(s)| == |s|
  {
    if s != [] {
      SortedCopyIsSorted(s[1..]);
      InsertKeepsOrder(s[0], SortedCopy(s[1..]));
      assert s == [s[0]] + s[1..];
      assert |multiset(SortedCopy(s))| == |SortedCopy(s)|;
    }
  }

  // ---- The rank. ----

  function Clamp(rank: int): (r: nat)
    ensures r <= 100
  {
    if rank < 0 then 0 else if rank > 100 then 100 else rank
  }

  /** `Math.ceil(rank / 100 * length)`. */
  function Position(rank: nat, length: nat): nat {
    (rank * length + 99) / 100
  }

  function Index(rank: int, length: nat): (index: nat)
    requires length > 0
    ensures index < length
  {
    PositionIsInside(Clamp(rank), length);
    var position := Position(Clamp(rank), length);
    if position == 0 then 0 else position - 1
  }

  lemma PositionIsInside(rank: nat, length: nat)
    requires rank <= 100
    ensures 100 * Position(rank, length) >= rank * length
    ensures Position(rank, length) > 0 ==> 100 * (Position(rank, length) - 1) < rank * length
    ensures Position(rank, length) <= length
  {
    assert (100 - rank) * length >= 0;
  }

  /** What `#percentiles` answers for one rank. */
  function Percentile(window: seq<real>, rank: int): real {
    if window == [] then 0.0 else
    SortedCopyIsSorted(window);
    SortedCopy(window)[Index(rank, |window|)]
  }

  // ---- What it means. ----

  function AtOrBelow(s: seq<real>, x: real): nat {
    if s == [] then 0 else (if s[0] <= x then 1 else 0) + AtOrBelow(s[1..], x)
  }

  function Below(s: seq<real>, x: real): nat {
    if s == [] then 0 else (if s[0] < x then 1 else 0) + Below(s[1..], x)
  }

  lemma {:induction false} CountsAreOfTheSamples(x: real, y: real, s: seq<real>)
    ensures AtOrBelow(Insert(y, s), x) == (if y <= x then 1 else 0) + AtOrBelow(s, x)
    ensures Below(Insert(y, s), x) == (if y < x then 1 else 0) + Below(s, x)
  {
    if s != [] && y > s[0] {
      CountsAreOfTheSamples(x, y, s[1..]);
      assert Insert(y, s)[1..] == Insert(y, s[1..]);
    } else {
      assert ([y] + s)[1..] == s;
    }
  }

  lemma {:induction false} SortingKeepsCounts(s: seq<real>, x: real)
    ensures AtOrBelow(SortedCopy(s), x) == AtOrBelow(s, x) && Below(SortedCopy(s), x) == Below(s, x)
  {
    if s != [] {
      SortingKeepsCounts(s[1..], x);
      CountsAreOfTheSamples(x, s[0], SortedCopy(s[1..]));
    }
  }

  /** In a sorted list, everything up to an index is at or below what stands there. */
  lemma {:induction false} SortedCounts(s: seq<real>, k: nat, x: real)
    requires IsSorted(s) && k < |s|
    ensures s[k] <= x ==> AtOrBelow(s, x) >= k + 1
    ensures s[k] >= x ==> Below(s, x) <= k
  {
    if k > 0 {
      SortedCounts(s[1..], k - 1, x);
    } else if s[0] >= x {
      NoneBelow(s, x);
    }
  }

  lemma {:induction false} NoneBelow(s: seq<real>, x: real)
    requires IsSorted(s) && (s != [] ==> s[0] >= x)
    ensures Below(s, x) == 0
  {
    if s != [] {
      NoneBelow(s[1..], x);
    }
  }

  /**
   * The nearest rank: a sample with at least the given share of the window at or below it, and no
   * lesser sample has.
   */
  lemma PercentileIsNearestRank(window: seq<real>, rank: int)
    requires window != [] && 0 <= rank <= 100
    ensures var p := Percentile(window, rank);
            && p in window
            && 100 * AtOrBelow(window, p) >= rank * |window|
            && (rank > 0 ==> 100 * Below(window, p) < rank * |window|)
  {
    hide SortedCopy, Index, AtOrBelow, Below, IsSorted;
    var sorted, k := SortedCopy(window), Index(rank, |window|);
    SortedCopyIsSorted(window);
    var p := sorted[k];
    assert p in multiset(sorted);
    SortedCounts(sorted, k, p);
    SortingKeepsCounts(window, p);
    IndexIsNearest(rank, |window|);
  }

  lemma IndexIsNearest(rank: int, length: nat)
    requires 0 <= rank <= 100 && length > 0
    ensures 100 * (Index(rank, length) + 1) >= rank * length
    ensures rank > 0 ==> 100 * Index(rank, length) < rank * length
  {
    hide Position;
    PositionIsInside(rank, length);
    assert rank > 0 ==> rank * length > 0;
  }

  lemma {:induction false} FewerBelow(s: seq<real>, x: real, y: real)
    requires x < y
    ensures AtOrBelow(s, x) <= Below(s, y)
  {
    if s != [] {
      FewerBelow(s[1..], x, y);
    }
  }

  /** Any sample that is lower misses the share, so the percentile is the least that meets it. */
  lemma PercentileIsTheLeast(window: seq<real>, rank: int, sample: real)
    requires window != [] && 0 < rank <= 100 && sample in window
    ensures Percentile(window, rank) <= sample <==> 100 * AtOrBelow(window, sample) >= rank * |window|
  {
    var p := Percentile(window, rank);
    PercentileIsNearestRank(window, rank);
    if sample < p {
      FewerBelow(window, sample, p);
    } else {
      MoreAtOrBelow(window, p, sample);
    }
  }

  lemma {:induction false} MoreAtOrBelow(s: seq<real>, x: real, y: real)
    requires x <= y
    ensures AtOrBelow(s, x) <= AtOrBelow(s, y)
  {
    if s != [] {
      MoreAtOrBelow(s[1..], x, y);
    }
  }

  /** A higher rank never reports less: the median is at most the ninety-fifth percentile. */
  lemma PercentilesGrowWithRank(window: seq<real>, low: int, high: int)
    requires low <= high
    ensures Percentile(window, low) <= Percentile(window, high)
  {
    hide SortedCopy, Index;
    if window != [] {
      SortedCopyIsSorted(window);
      IndexGrows(low, high, |window|);
    }
  }

  lemma IndexGrows(low: int, high: int, length: nat)
    requires low <= high && length > 0
    ensures Index(low, length) <= Index(high, length)
  {
    PositionGrows(Clamp(low), Clamp(high), length);
  }

  lemma PositionGrows(low: nat, high: nat, length: nat)
    requires low <= high
    ensures Position(low, length) <= Position(high, length)
  {
    assert (high - low) * length >= 0;
    DividingKeepsOrder(low * length + 99, high * length + 99);
  }

  lemma DividingKeepsOrder(a: nat, b: nat)
    requires a <= b
    ensures a / 100 <= b / 100
  {
  }
}
