/** Nothing recorded is lost between heartbeats, and the windows are the ends of the whole history. */
module DiagnosticsTheorems {
  import opened Options
  import opened Settings
  import opened Percentiles
  import opened DiagnosticsSpec

  // ---- The history's own account of itself. ----

  function One(b: bool): int {
    if b then 1 else 0
  }

  /** What one record adds to the tally. */
  function Worth(r: Record): Counters {
    Counters(One(r.ApiRequest?), One(r.ApiRequest? && !r.isOk),
             if r.PollCycle? then r.ok else 0, if r.PollCycle? then r.failed else 0,
             One(r.WsReconnect?), One(r.BreakerTrip?), One(r.Throttle?), One(r.SessionLogin?),
             One(r.CommandSent?), One(r.ExternalChange?), One(r.Retry?))
  }

  /** How many records of a kind there are; for poll cycles, the sum of what they report. */
  function Tally(records: seq<Record>): Counters {
    if records == [] then ZERO else
    Plus(Tally(records[..|records| - 1]), Worth(records[|records| - 1]))
  }

  function Sum(reports: seq<Counters>): Counters {
    if reports == [] then ZERO else Plus(Sum(reports[..|reports| - 1]), reports[|reports| - 1])
  }

  /** Every latency worth sampling, oldest first. */
  function Samples(records: seq<Record>): seq<real> {
    if records == [] then [] else
    var r := records[|records| - 1];
    var before := Samples(records[..|records| - 1]);
    if r.ApiRequest? && r.wasNetworked && r.latency.Finite? && r.latency.ms >= 0.0 then before + [r.latency.ms] else before
  }

  function Outcomes(records: seq<Record>): seq<bool> {
    if records == [] then [] else
    var r := records[|records| - 1];
    var before := Outcomes(records[..|records| - 1]);
    if r.ApiRequest? then before + [r.isOk] else before
  }

  function LastOf<T>(s: seq<T>, length: nat): seq<T> {
    if |s| <= length then s else s[|s| - length..]
  }

  lemma SlidingKeepsTheLast<T>(s: seq<T>, x: T, length: nat)
    requires length > 0
    ensures Slide(LastOf(s, length), x, length) == LastOf(s + [x], length)
  {
    if |s| >= length {
      assert LastOf(s, length) == s[|s| - length..];
      assert (LastOf(s, length) + [x])[1..] == (s + [x])[|s| + 1 - length..];
    }
  }

  // ---- The invariant. ----

  predicate Inv(c: Collector) {
    && c.counters == Tally(c.records)
    && c.marker == Sum(c.heartbeats)
    && c.latencies == LastOf(Samples(c.records), LATENCY_WINDOW)
    && c.recentOutcomes == LastOf(Outcomes(c.records), OUTCOME_WINDOW)
  }

  lemma OneMoreRecord(records: seq<Record>, r: Record)
    ensures (records + [r])[..|records + [r]| - 1] == records
  {
  }

  lemma CountersTally(c: Collector, record: Record)
    ensures Note(c, record).counters == Plus(c.counters, Worth(record))
  {
    hide Slide, IsSample;
  }

  lemma TallyGrows(records: seq<Record>, record: Record)
    ensures Tally(records + [record]) == Plus(Tally(records), Worth(record))
  {
    OneMoreRecord(records, record);
  }

  lemma LatenciesSlide(c: Collector, record: Record)
    requires c.latencies == LastOf(Samples(c.records), LATENCY_WINDOW)
    ensures Note(c, record).latencies == LastOf(Samples(c.records + [record]), LATENCY_WINDOW)
  {
    hide LastOf, Slide;
    OneMoreRecord(c.records, record);
    if record.ApiRequest? && IsSample(record.latency, record.wasNetworked) {
      SlidingKeepsTheLast(Samples(c.records), record.latency.ms, LATENCY_WINDOW);
    }
  }

  lemma OutcomesSlide(c: Collector, record: Record)
    requires c.recentOutcomes == LastOf(Outcomes(c.records), OUTCOME_WINDOW)
    ensures Note(c, record).recentOutcomes == LastOf(Outcomes(c.records + [record]), OUTCOME_WINDOW)
  {
    hide LastOf, Slide, IsSample;
    OneMoreRecord(c.records, record);
    if record.ApiRequest? {
      SlidingKeepsTheLast(Outcomes(c.records), record.isOk, OUTCOME_WINDOW);
    }
  }

  lemma NotingLeavesReports(c: Collector, record: Record)
    ensures Note(c, record).marker == c.marker && Note(c, record).heartbeats == c.heartbeats
  {
    hide Slide, IsSample;
  }

  lemma TakingKeepsInv(c: Collector, record: Record)
    requires Inv(c)
    ensures Inv(Take(c, record)) && Take(c, record).marker == c.marker && Take(c, record).heartbeats == c.heartbeats
  {
    hide Note, Tally, Sum, Samples, Outcomes, LastOf, Plus, Worth;
    CountersTally(c, record);
    TallyGrows(c.records, record);
    LatenciesSlide(c, record);
    OutcomesSlide(c, record);
    NotingLeavesReports(c, record);
  }

  lemma {:induction false} TakingAllKeepsInv(c: Collector, records: seq<Record>)
    requires Inv(c)
    ensures Inv(TakeAll(c, records))
    ensures TakeAll(c, records).marker == c.marker && TakeAll(c, records).heartbeats == c.heartbeats
  {
    hide Inv, Take;
    if records != [] {
      TakingAllKeepsInv(c, records[..|records| - 1]);
      TakingKeepsInv(TakeAll(c, records[..|records| - 1]), records[|records| - 1]);
    }
  }

  lemma BeatingKeepsInv(c: Collector, during: seq<Record>, isReadable: bool)
    requires Inv(c)
    ensures Inv(Beat(c, during, isReadable))
  {
    hide TakeAll, Tally, LastOf;
    TakingAllKeepsInv(c, during);
    var longer := c.heartbeats + [Minus(c.counters, c.marker)];
    assert longer[..|longer| - 1] == c.heartbeats;
  }

  lemma {:induction false} RunKeepsInv(c: Collector, events: seq<Event>)
    requires Inv(c)
    ensures Inv(Run(c, events))
  {
    hide Inv, Take, Beat;
    if events != [] {
      var before, e := Run(c, events[..|events| - 1]), events[|events| - 1];
      RunKeepsInv(c, events[..|events| - 1]);
      match e
      case Recorded(record) => TakingKeepsInv(before, record);
      case Heartbeat(during, isReadable) => BeatingKeepsInv(before, during, isReadable);
    }
  }

  // ---- The promises. ----

  /**
   * The totals a snapshot reports are the tally of everything recorded, and the heartbeats so far
   * and what the next one has yet to report add up to them, readers that threw or not.
   */
  lemma HeartbeatsAddUp(events: seq<Event>)
    ensures var c := Run(FRESH, events);
            && c.counters == Tally(c.records)
            && Plus(Sum(c.heartbeats), Minus(c.counters, c.marker)) == c.counters
  {
    hide Tally, Sum, Samples, Outcomes, LastOf, Plus, Minus, Run;
    FreshIsOk();
    RunKeepsInv(FRESH, events);
    RemainderRestores(Run(FRESH, events).marker, Run(FRESH, events).counters);
  }

  /** A heartbeat that fails reports nothing and leaves the whole remainder for the next. */
  lemma FailedHeartbeatLosesNothing(events: seq<Event>, during: seq<Record>)
    ensures var c := Run(FRESH, events);
            var failed := Step(c, Heartbeat(during, false));
            var next := Step(failed, Heartbeat([], true));
            && failed.heartbeats == c.heartbeats
            && next.heartbeats[..|c.heartbeats|] == c.heartbeats && |next.heartbeats| == |c.heartbeats| + 1
            && Plus(Sum(c.heartbeats), next.heartbeats[|c.heartbeats|]) == Tally(failed.records)
  {
    hide TakeAll, Tally, Sum, LastOf, Samples, Outcomes, Plus, Minus, Run;
    FreshIsOk();
    RunKeepsInv(FRESH, events);
    var c := Run(FRESH, events);
    TakingAllKeepsInv(c, during);
    NothingToTake(Beat(c, during, false));
    RemainderRestores(c.marker, TakeAll(c, during).counters);
  }

  lemma RemainderRestores(marker: Counters, counters: Counters)
    ensures Plus(marker, Minus(counters, marker)) == counters
  {
  }

  lemma FreshIsOk()
    ensures Inv(FRESH)
  {
  }

  lemma NothingToTake(c: Collector)
    ensures TakeAll(c, []) == c
  {
  }

  /** The percentiles of a report are nearest ranks among the last samples of the whole history. */
  lemma ReportedPercentiles(events: seq<Event>, rank: int)
    requires 0 < rank <= 100
    ensures var c := Run(FRESH, events);
            var recent := LastOf(Samples(c.records), 200);
            var p := Percentile(c.latencies, rank);
            && |recent| <= 200
            && (recent == [] ==> p == 0.0)
            && (recent != [] ==>
                  && p in recent && p >= 0.0
                  && 100 * AtOrBelow(recent, p) >= rank * |recent|
                  && 100 * Below(recent, p) < rank * |recent|)
  {
    hide Percentile, AtOrBelow, Below, Samples, Tally, Sum, Outcomes;
    FreshIsOk();
    RunKeepsInv(FRESH, events);
    var c := Run(FRESH, events);
    SamplesAreNotNegative(c.records);
    if c.latencies == [] {
      NothingToRank(rank);
    } else {
      PercentileIsNearestRank(c.latencies, rank);
      LastOfIsPart(Samples(c.records), LATENCY_WINDOW, Percentile(c.latencies, rank));
    }
  }

  lemma NothingToRank(rank: int)
    ensures Percentile([], rank) == 0.0
  {
  }

  lemma LastOfIsPart<T>(s: seq<T>, length: nat, x: T)
    requires x in LastOf(s, length)
    ensures x in s
  {
  }

  lemma {:induction false} SamplesAreNotNegative(records: seq<Record>)
    ensures forall x <- Samples(records) :: x >= 0.0
  {
    if records != [] {
      SamplesAreNotNegative(records[..|records| - 1]);
    }
  }

  lemma {:induction false} ErrorsAreCounted(outcomes: seq<bool>)
    ensures Errors(outcomes) == multiset(outcomes)[false]
  {
    if outcomes != [] {
      assert outcomes == [outcomes[0]] + outcomes[1..];
      ErrorsAreCounted(outcomes[1..]);
    }
  }

  /**
   * The error rate is high exactly when at least ten requests are on record and more than half of
   * the last fifty, or of all if there are fewer, failed.
   */
  lemma ErrorRateIsOfTheLastRequests(events: seq<Event>)
    ensures var c := Run(FRESH, events);
            var recent := LastOf(Outcomes(c.records), 50);
            IsErrorRateHigh(c.recentOutcomes)
            <==> |Outcomes(c.records)| >= 10 && 2 * multiset(recent)[false] > |recent|
  {
    hide Samples, Tally, Sum, Outcomes, Errors;
    FreshIsOk();
    RunKeepsInv(FRESH, events);
    ErrorsAreCounted(Run(FRESH, events).recentOutcomes);
  }

  // ---- The last poll. ----

  /** How long the last poll cycle that had a duration took. */
  function LastPoll(records: seq<Record>): Option<real> {
    if records == [] then None else
    var r := records[|records| - 1];
    if r.PollCycle? && r.duration.Finite? && r.duration.ms >= 0.0 then Some(r.duration.ms)
    else LastPoll(records[..|records| - 1])
  }

  lemma TakingKeepsLastPoll(c: Collector, record: Record)
    requires c.lastPollDuration == LastPoll(c.records)
    ensures Take(c, record).lastPollDuration == LastPoll(Take(c, record).records)
  {
    hide Slide, IsSample;
    OneMoreRecord(c.records, record);
  }

  lemma {:induction false} TakingAllKeepsLastPoll(c: Collector, records: seq<Record>)
    requires c.lastPollDuration == LastPoll(c.records)
    ensures TakeAll(c, records).lastPollDuration == LastPoll(TakeAll(c, records).records)
    ensures TakeAll(c, records).records == c.records + records
  {
    hide LastPoll;
    if records == [] {
      assert c.records + records == c.records;
    } else {
      var most, last := records[..|records| - 1], records[|records| - 1];
      TakingAllKeepsLastPoll(c, most);
      TakingKeepsLastPoll(TakeAll(c, most), last);
      assert c.records + records == c.records + most + [last];
    }
    hide Note;
  }

  /** Everything recorded over a run, in order, whether on its own or by a reader during a heartbeat. */
  function Recordings(events: seq<Event>): seq<Record> {
    if events == [] then [] else
    Recordings(events[..|events| - 1])
    + (match events[|events| - 1] case Recorded(record) => [record] case Heartbeat(during, _) => during)
  }

  /** Over every run: nothing recorded is lost, and the last poll reported is the last that had a duration. */
  lemma {:induction false} LastPollIsTheLast(events: seq<Event>)
    ensures Run(FRESH, events).records == Recordings(events)
    ensures Run(FRESH, events).lastPollDuration == LastPoll(Recordings(events))
  {
    hide LastPoll, Note;
    if events == [] {
      NoPollsYet();
    } else {
      LastPollIsTheLast(events[..|events| - 1]);
      var before := Run(FRESH, events[..|events| - 1]);
      match events[|events| - 1]
      case Recorded(record) => TakingKeepsLastPoll(before, record);
      case Heartbeat(during, _) => TakingAllKeepsLastPoll(before, during);
    }
  }

  lemma NoPollsYet()
    ensures LastPoll([]) == None
  {
  }
}
