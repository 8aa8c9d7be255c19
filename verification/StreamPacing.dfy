/** How often the stream asks for a token, how long it fails before it gives up, and what it announces. */
module StreamPacing {
  import opened Options
  import opened Settings
  import opened StreamSpec
  import opened StreamInvariant
  import Backoff

  const MIN_GAP_MS: real := 0.75 * (WEBSOCKET_RECONNECT_BASE_MS as real)

  /** When a token was last asked for. */
  function LastAsked(marks: seq<Mark>): Option<real> {
    if marks == [] then None else
    match marks[|marks| - 1]
    case Asked(at, _, _) => Some(at)
    case Opened => LastAsked(marks[..|marks| - 1])
  }

  /** Each request keeps its distance from the one before it; one that ends a give-up waits out the recovery. */
  predicate IsPaced(marks: seq<Mark>) {
    marks == [] ||
    var before := marks[..|marks| - 1];
    && IsPaced(before)
    && match marks[|marks| - 1]
       case Opened => true
       case Asked(at, _, isRecovery) =>
         var last := LastAsked(before);
         last.Some? ==> at >= last.value + GapBefore(isRecovery)
  }

  function GapBefore(isRecovery: bool): real {
    if isRecovery then WEBSOCKET_RECOVERY_INTERVAL_MS as real else MIN_GAP_MS
  }

  /** Every armed timer is due no earlier than the gap after the last request. */
  predicate PaceHolds(marks: seq<Mark>, now: real, reconnect: Option<ReconnectTimer>, refresh: Option<real>,
                      recovery: Option<real>) {
    && IsPaced(marks)
    && var last := LastAsked(marks);
       last.Some? ==>
         && last.value <= now
         && (reconnect.Some? ==> reconnect.value.due >= last.value + MIN_GAP_MS)
         && (refresh.Some? ==> refresh.value >= last.value + MIN_GAP_MS)
         && (recovery.Some? ==> recovery.value >= last.value + GapBefore(true))
  }

  predicate PaceInv(s: Stream) {
    PaceHolds(s.marks, s.now, s.reconnectTimer, s.refreshTimer, s.recoveryTimer)
  }

  lemma DelaysRespectTheGap(failures: nat, random: Draw)
    requires failures >= 1
    ensures ReconnectDelay(failures, random) >= MIN_GAP_MS
    ensures RefreshDelay(random) >= MIN_GAP_MS
  {
    Backoff.BackoffIsAtLeastThreeQuartersOfBase(failures, 1250, WEBSOCKET_RECONNECT_MAX_MS, random);
  }

  /** The jitter only brings a refresh forward: it comes due in the last half minute of its interval. */
  lemma RefreshLandsEarly(s: Stream, random: Draw)
    ensures var t := HandleOpen(s, random);
            t.refreshTimer.Some? && s.now + 180_000.0 < t.refreshTimer.value <= s.now + 210_000.0
  {
  }

  lemma AskingIsPaced(marks: seq<Mark>, now: real, isDeferred: bool, isRecovery: bool)
    requires IsPaced(marks)
    requires LastAsked(marks).Some? ==> now >= LastAsked(marks).value + GapBefore(isRecovery)
    ensures PaceHolds(marks + [Asked(now, isDeferred, isRecovery)], now, None, None, None)
  {
    assert (marks + [Asked(now, isDeferred, isRecovery)])[..|marks|] == marks;
  }

  lemma ConnectKeepsPace(s: Stream, isRecovery: bool)
    requires IsPaced(s.marks) && NoTimers(s)
    requires LastAsked(s.marks).Some? ==> s.now >= LastAsked(s.marks).value + GapBefore(isRecovery)
    requires !s.isStopped
    ensures PaceInv(Connect(s, isRecovery))
  {
    hide CloseSocket, Untimed, IsPaced, LastAsked, NoteDisconnect, PaceHolds;
    AskingIsPaced(s.marks, s.now, s.connectReason == Refresh && IsConnected(s), isRecovery);
  }

  lemma ScheduleReconnectKeepsPace(s: Stream, random: Draw)
    requires PaceInv(s)
    ensures PaceInv(ScheduleReconnect(s, random))
  {
    DelaysRespectTheGap(s.consecutiveFailures + 1, random);
    hide ReconnectDelay, IsPaced, LastAsked, GiveUp;
    GivingUpLeaves(s.(consecutiveFailures := s.consecutiveFailures + 1));
  }

  lemma ScheduleRefreshRetryKeepsPace(s: Stream)
    requires PaceInv(s)
    ensures PaceInv(ScheduleRefreshRetry(s))
  {
    hide IsPaced, LastAsked;
  }

  lemma HandleOpenKeepsPace(s: Stream, random: Draw)
    requires PaceInv(s)
    ensures PaceInv(HandleOpen(s, random))
  {
    DelaysRespectTheGap(1, random);
    assert (s.marks + [Opened])[..|s.marks|] == s.marks;
    assert IsPaced(s.marks + [Opened]) && LastAsked(s.marks + [Opened]) == LastAsked(s.marks);
    hide RefreshDelay, IsPaced, LastAsked;
  }

  lemma HandleConnectFailureKeepsPace(s: Stream, a: Attempt, random: Draw)
    requires PaceInv(s)
    ensures PaceInv(HandleConnectFailure(s, a, random))
  {
    hide PaceHolds, ScheduleReconnect, ScheduleRefreshRetry, IsConnected;
    var idle := s.(isConnecting := false);
    ScheduleReconnectKeepsPace(idle, random);
    ScheduleRefreshRetryKeepsPace(idle);
  }

  /** Pace is a matter of the clock, the requests and three of the timers. */
  lemma SamePace(s: Stream, t: Stream)
    requires PaceInv(s) && t.marks == s.marks && t.now == s.now
    requires t.reconnectTimer == s.reconnectTimer && t.refreshTimer == s.refreshTimer && t.recoveryTimer == s.recoveryTimer
    ensures PaceInv(t)
  {
  }

  lemma TeardownKeepsPace(s: Stream, i: nat)
    requires PaceInv(s)
    ensures PaceInv(Settle(s, i)) && PaceInv(DisposeCandidate(s)) && PaceInv(DisposeSocket(s))
  {
    hide PaceHolds, CloseSocket, Untimed, NoteDisconnect, IsConnected;
    SamePace(s, Settle(s, i));
    SamePace(s, DisposeCandidate(s));
    SamePace(s, DisposeSocket(s));
  }

  lemma OpenSocketKeepsPace(s: Stream, a: Attempt, throws: bool, random: Draw)
    requires PaceInv(s)
    ensures PaceInv(OpenSocket(s, a, throws, random))
  {
    hide HandleConnectFailure, PaceInv, DisposeCandidate, DisposeSocket, IsConnected;
    var bumped := s.(connectGeneration := s.connectGeneration + 1);
    SamePace(s, bumped);
    TeardownKeepsPace(bumped, 0);
    TeardownKeepsPace(s, 0);
    TeardownKeepsPace(DisposeCandidate(s), 0);
    var kept, torn := DisposeCandidate(bumped), DisposeSocket(DisposeCandidate(s));
    HandleConnectFailureKeepsPace(kept, a, random);
    HandleConnectFailureKeepsPace(torn, a, random);
    SamePace(kept, AwaitHandshake(kept.(candidate := Some(|kept.sockets|)), true));
    SamePace(torn, AwaitHandshake(torn.(socket := Some(|torn.sockets|)), false));
  }

  lemma DroppingKeepsPace(s: Stream, random: Draw)
    requires PaceInv(s)
    ensures PaceInv(ScheduleReconnect(Dropped(s), random))
  {
    ScheduleReconnectKeepsPace(Dropped(s), random) by {
      hide IsPaced, LastAsked, NoteDisconnect;
    }
  }

  lemma NothingAskedYet()
    ensures IsPaced([]) && LastAsked([]).None?
  {
  }

  lemma TimerEventsKeepPace(s: Stream, e: Event)
    requires Inv(s) && PaceInv(s) && Enabled(s, e) && e in {RefreshFires, ReconnectFires, RecoveryFires, Start}
    ensures PaceInv(Apply(s, e))
  {
    hide Sane, AttemptsFine, OwnersOk, NoWedge, LiveOk, CandidateOk, BeginAttempt, IsPaced, LastAsked;
    match e
    case RefreshFires =>
      ConnectKeepsPace(s.(refreshTimer := None, reconnectTimer := None, connectReason := Refresh), false);
    case ReconnectFires =>
      ConnectKeepsPace(s.(reconnectTimer := None), false);
      ConnectKeepsPace(s.(reconnectTimer := None, connectReason := Refresh), false);
    case RecoveryFires =>
      ConnectKeepsPace(s.(recoveryTimer := None, consecutiveFailures := 0, connectReason := Drop), true);
    case Start =>
      NothingAskedYet();
      ConnectKeepsPace(ResetForStart(s), false);
  }

  lemma HandshakeFiresKeepsPace(s: Stream, i: nat, random: Draw)
    requires PaceInv(s) && i < |s.sockets|
    ensures PaceInv(OnHandshakeTimeout(s, i, random))
  {
    hide PaceInv, ScheduleReconnect, ScheduleRefreshRetry, DisposeCandidate, DisposeSocket, Settle, IsConnected;
    var idle := s.(isConnecting := false);
    SamePace(s, idle);
    TeardownKeepsPace(s, i);
    TeardownKeepsPace(idle, i);
    var kept := DisposeCandidate(idle);
    TeardownKeepsPace(kept, i);
    TeardownKeepsPace(DisposeSocket(kept), i);
    ScheduleRefreshRetryKeepsPace(Settle(kept, i));
    ScheduleReconnectKeepsPace(Settle(DisposeSocket(kept), i), random);
  }

  lemma SocketOpensKeepsPace(s: Stream, i: nat, random: Draw)
    requires PaceInv(s) && i < |s.sockets|
    ensures PaceInv(OnHandshakeOpen(s, i, random))
  {
    hide PaceHolds, HandleOpen, CloseSocket, Untimed;
    HandleOpenKeepsPace(s, random);
    HandleOpenKeepsPace(s.(candidate := None, socket := Some(i), sockets := CloseSocket(s.sockets, s.socket)), random);
  }

  lemma SocketClosesKeepsPace(s: Stream, i: nat, random: Draw)
    requires PaceInv(s) && i < |s.sockets|
    ensures PaceInv(OnHandshakeClose(s, i, random))
  {
    hide PaceHolds, ScheduleReconnect, ScheduleRefreshRetry, CloseSocket, Untimed, Dropped, IsConnected;
    var gone := s.(candidate := None, isConnecting := false);
    ScheduleRefreshRetryKeepsPace(gone);
    DroppingKeepsPace(gone, random);
    DroppingKeepsPace(DisposeCandidate(s), random);
  }

  lemma SocketEventsKeepPace(s: Stream, e: Event)
    requires PaceInv(s) && Enabled(s, e)
    requires e.HandshakeFires? || e.SocketOpens? || e.SocketCloses?
    ensures PaceInv(Apply(s, e))
  {
    hide PaceHolds, OnHandshakeTimeout, OnHandshakeOpen, OnHandshakeClose, SetReady;
    match e
    case HandshakeFires(i, random) => HandshakeFiresKeepsPace(s, i, random);
    case SocketOpens(i, random) =>
      var up := s.(sockets := SetReady(s.sockets, i, Open));
      if s.sockets[i].listening {
        SetReadyKeepsLength(s.sockets, i, Open);
        SocketOpensKeepsPace(up, i, random);
      }
    case SocketCloses(i, random) =>
      var closed := s.(sockets := SetReady(s.sockets, i, Closed));
      if s.sockets[i].listening {
        SetReadyKeepsLength(s.sockets, i, Closed);
        SocketClosesKeepsPace(closed, i, random);
      }
  }

  lemma SetReadyKeepsLength(sockets: seq<Socket>, i: nat, ready: ReadyState)
    ensures |SetReady(sockets, i, ready)| == |sockets|
  {
  }

  lemma StepKeepsPace(s: Stream, e: Event)
    requires Inv(s) && PaceInv(s)
    ensures PaceInv(Step(s, e))
  {
    hide Inv, IsPaced, LastAsked;
    if Enabled(s, e) {
      match e
      case TokenArrives(k, throws, random) =>
        hide OpenSocket, PaceHolds;
        OpenSocketKeepsPace(FetchSettled(s, k), s.attempts[k], throws, random);
      case TokenFails(k, random) =>
        hide HandleConnectFailure, PaceHolds;
        HandleConnectFailureKeepsPace(FetchSettled(s, k), s.attempts[k], random);
      case HandshakeFires(_, _) => hide Apply; SocketEventsKeepPace(s, e);
      case SocketOpens(_, _) => hide Apply; SocketEventsKeepPace(s, e);
      case SocketCloses(_, _) => hide Apply; SocketEventsKeepPace(s, e);
      case RefreshFires => hide Apply; TimerEventsKeepPace(s, e);
      case ReconnectFires => hide Apply; TimerEventsKeepPace(s, e);
      case RecoveryFires => hide Apply; TimerEventsKeepPace(s, e);
      case Start => hide Apply; TimerEventsKeepPace(s, e);
      case Stop => hide CloseSocket, Untimed, NoteDisconnect;
      case _ =>
    }
  }

  /** In every reachable state the requests made so far are paced and the armed timers keep it so. */
  lemma {:induction false} RunKeepsPace(events: seq<Event>)
    ensures PaceInv(Run(FRESH, events))
  {
    if events == [] {
      NothingAskedYet();
    } else {
      hide Inv, PaceInv;
      RunKeepsInv(events[..|events| - 1]);
      RunKeepsPace(events[..|events| - 1]);
      StepKeepsPace(Run(FRESH, events[..|events| - 1]), events[|events| - 1]);
    }
  }

  /** Any request at or before the end of a paced history is no later than the last one. */
  lemma {:induction false} LastAskedIsLatest(marks: seq<Mark>, i: nat)
    requires IsPaced(marks) && i < |marks| && marks[i].Asked?
    ensures LastAsked(marks).Some? && marks[i].at <= LastAsked(marks).value
  {
    if i < |marks| - 1 {
      LastAskedIsLatest(marks[..|marks| - 1], i);
    }
  }

  /** Two requests, however far apart in the history, keep the gap the later one owes. */
  lemma {:induction false} RequestsKeepTheirDistance(marks: seq<Mark>, i: nat, j: nat)
    requires IsPaced(marks) && i < j < |marks| && marks[i].Asked? && marks[j].Asked?
    ensures marks[j].at - marks[i].at >= GapBefore(marks[j].isRecovery)
  {
    if j < |marks| - 1 {
      RequestsKeepTheirDistance(marks[..|marks| - 1], i, j);
    } else {
      LastAskedIsLatest(marks[..|marks| - 1], i);
    }
  }

  /**
   * Token requests made since the last start are at least three quarters of the base delay
   * apart, and one that ends a give-up follows every earlier request by a full recovery interval.
   */
  lemma TokenRequestsArePaced(events: seq<Event>, i: nat, j: nat)
    requires var marks := Run(FRESH, events).marks;
             i < j < |marks| && marks[i].Asked? && marks[j].Asked?
    ensures var marks := Run(FRESH, events).marks;
            && marks[j].at - marks[i].at >= 3_750.0
            && (marks[j].isRecovery ==> marks[j].at - marks[i].at >= 900_000.0)
  {
    RunKeepsPace(events);
    RequestsKeepTheirDistance(Run(FRESH, events).marks, i, j);
  }
}
