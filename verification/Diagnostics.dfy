/** The `DiagnosticsCollector` object, proved to take its fields where `DiagnosticsSpec` says. */
module DiagnosticsCollectors {
  import opened Options
  import opened Settings
  import P = Percentiles
  import opened DiagnosticsSpec

  class DiagnosticsCollector {
    var apiRequests: int
    var apiErrors: int
    var pollOk: int
    var pollFailed: int
    var wsReconnects: int
    var breakerTrips: int
    var throttles: int
    var sessionLogins: int
    var commandsSent: int
    var externalChanges: int
    var retries: int

    var lastPollDuration: Option<real>
    var latencies: seq<real>
    var recentOutcomes: seq<bool>
    var marker: Counters

    ghost var records: seq<Record>
    ghost var heartbeats: seq<Counters>

    function Captured(): Counters
      reads this
    {
      Counters(apiRequests, apiErrors, pollOk, pollFailed, wsReconnects, breakerTrips,
               throttles, sessionLogins, commandsSent, externalChanges, retries)
    }

    ghost function State(): Collector
      reads this
    {
      Collector(Captured(), marker, latencies, recentOutcomes, lastPollDuration, records, heartbeats)
    }

    constructor ()
      ensures State() == FRESH
    {
      apiRequests, apiErrors, pollOk, pollFailed, wsReconnects, breakerTrips := 0, 0, 0, 0, 0, 0;
      throttles, sessionLogins, commandsSent, externalChanges, retries := 0, 0, 0, 0, 0;
      lastPollDuration, latencies, recentOutcomes, marker := None, [], [], ZERO;
      records, heartbeats := [], [];
    }

    method PushLatency(latencyMs: real)
      modifies this`latencies
      ensures State() == old(State()).(latencies := Slide(old(latencies), latencyMs, LATENCY_WINDOW))
    {
      latencies := latencies + [latencyMs];
      if |latencies| > LATENCY_WINDOW {
        latencies := latencies[1..];
      }
    }

    method PushOutcome(isOk: bool)
      modifies this`recentOutcomes
      ensures State() == old(State()).(recentOutcomes := Slide(old(recentOutcomes), isOk, OUTCOME_WINDOW))
    {
      recentOutcomes := recentOutcomes + [isOk];
      if |recentOutcomes| > OUTCOME_WINDOW {
        recentOutcomes := recentOutcomes[1..];
      }
    }

    method OnApiRequest(latency: Duration, isOk: bool, wasNetworked: bool)
      modifies this`apiRequests, this`apiErrors, this`latencies, this`recentOutcomes
      ensures State() == Note(old(State()), ApiRequest(latency, isOk, wasNetworked))
    {
      hide Slide;
      apiRequests := apiRequests + 1;
      if !isOk {
        apiErrors := apiErrors + 1;
      }
      if wasNetworked && latency.Finite? && latency.ms >= 0.0 {
        PushLatency(latency.ms);
      }
      PushOutcome(isOk);
    }

    method OnPollCycle(ok: int, failed: int, duration: Duration)
      modifies this`pollOk, this`pollFailed, this`lastPollDuration
      ensures State() == Note(old(State()), PollCycle(ok, failed, duration))
    {
      pollOk := pollOk + ok;
      pollFailed := pollFailed + failed;
      if duration.Finite? && duration.ms >= 0.0 {
        lastPollDuration := Some(duration.ms);
      }
    }

    /** The one-line recording methods, by the record they make. */
    method OnCount(record: Record)
      requires !record.ApiRequest? && !record.PollCycle?
      modifies this`wsReconnects, this`breakerTrips, this`throttles, this`sessionLogins,
        this`commandsSent, this`externalChanges, this`retries
      ensures State() == Note(old(State()), record)
    {
      match record
      case WsReconnect => wsReconnects := wsReconnects + 1;
      case BreakerTrip => breakerTrips := breakerTrips + 1;
      case Throttle => throttles := throttles + 1;
      case SessionLogin => sessionLogins := sessionLogins + 1;
      case CommandSent => commandsSent := commandsSent + 1;
      case ExternalChange => externalChanges := externalChanges + 1;
      case Retry => retries := retries + 1;
    }

    method OnRecord(record: Record)
      modifies this
      ensures State() == Take(old(State()), record)
    {
      hide Note;
      match record {
        case ApiRequest(latency, isOk, wasNetworked) => OnApiRequest(latency, isOk, wasNetworked);
        case PollCycle(ok, failed, duration) => OnPollCycle(ok, failed, duration);
        case _ => OnCount(record);
      }
      NoteRecord(record);
    }

    ghost method NoteRecord(record: Record)
      modifies this`records
      ensures State() == old(State()).(records := old(records) + [record])
    {
      records := records + [record];
    }

    /** The readers, run one after another; whatever they record goes in as they go. */
    method RunReaders(during: seq<Record>)
      modifies this
      ensures State() == TakeAll(old(State()), during)
    {
      hide Take;
      var i := 0;
      while i < |during|
        invariant 0 <= i <= |during|
        invariant State() == TakeAll(old(State()), during[..i])
      {
        assert during[..i + 1][..i] == during[..i];
        OnRecord(during[i]);
        i := i + 1;
      }
      assert during[..i] == during;
    }

    /** `buildHeartbeat`: the deltas, or nothing when a reader threw. */
    method BuildHeartbeat(during: seq<Record>, isReadable: bool) returns (report: Option<Counters>)
      modifies this
      ensures State() == Beat(old(State()), during, isReadable)
      ensures report == if isReadable then Some(Minus(old(Captured()), old(marker))) else None
    {
      hide TakeAll, Minus;
      var current := Captured();
      var deltas := Minus(current, marker);
      RunReaders(during);
      Kept(old(State()), during);
      if !isReadable {
        return None;
      }
      AdvanceMarker(current, deltas);
      return Some(deltas);
    }

    static lemma {:induction false} Kept(c: Collector, during: seq<Record>)
      ensures TakeAll(c, during).marker == c.marker && TakeAll(c, during).heartbeats == c.heartbeats
    {
      if during != [] {
        Kept(c, during[..|during| - 1]);
      }
    }

    method AdvanceMarker(current: Counters, ghost deltas: Counters)
      modifies this`marker, this`heartbeats
      ensures State() == old(State()).(marker := current, heartbeats := old(heartbeats) + [deltas])
    {
      marker := current;
      heartbeats := heartbeats + [deltas];
    }

    /** `#percentiles`: one sort for every rank asked for. */
    method ReportPercentiles(ranks: seq<int>) returns (values: seq<real>)
      ensures |values| == |ranks| && forall i :: 0 <= i < |ranks| ==> values[i] == P.Percentile(latencies, ranks[i])
    {
      hide P.SortedCopy, P.Index;
      values := [];
      var sorted := P.SortedCopy(latencies);
      P.SortedCopyIsSorted(latencies);
      var i := 0;
      while i < |ranks|
        invariant 0 <= i <= |ranks| && |values| == i
        invariant forall k :: 0 <= k < i ==> values[k] == P.Percentile(latencies, ranks[k])
      {
        values := values + [if latencies == [] then 0.0 else sorted[P.Index(ranks[i], |sorted|)]];
        i := i + 1;
      }
    }

    /** The part of `rollup` that counts recent errors. */
    method HasHighErrorRate() returns (isHigh: bool)
      ensures isHigh <==> IsErrorRateHigh(recentOutcomes)
    {
      var errors := 0;
      var i := 0;
      while i < |recentOutcomes|
        invariant 0 <= i <= |recentOutcomes|
        invariant errors + Errors(recentOutcomes[i..]) == Errors(recentOutcomes)
      {
        assert recentOutcomes[i..][1..] == recentOutcomes[i + 1..];
        if !recentOutcomes[i] {
          errors := errors + 1;
        }
        i := i + 1;
      }
      isHigh := |recentOutcomes| >= API_ERROR_MIN_SAMPLES && 2 * errors > |recentOutcomes|;
    }
  }

  /** A new collector handed any records and heartbeats ends where the machine's run of them does. */
  method Replay(events: seq<Event>) returns (collector: DiagnosticsCollector)
    ensures fresh(collector) && collector.State() == Run(FRESH, events)
  {
    hide Take, Beat;
    collector := new DiagnosticsCollector();
    for n := 0 to |events|
      invariant fresh(collector) && collector.State() == Run(FRESH, events[..n])
    {
      assert events[..n + 1][..n] == events[..n];
      match events[n] {
        case Recorded(record) => collector.OnRecord(record);
        case Heartbeat(during, isReadable) => var _ := collector.BuildHeartbeat(during, isReadable);
      }
    }
    assert events[..|events|] == events;
  }
}
