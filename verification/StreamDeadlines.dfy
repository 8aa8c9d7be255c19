/** How soon: no timer of the stream is ever further off than its own interval. */
module StreamDeadlines {
  import opened Options
  import opened Settings
  import opened StreamSpec
  import opened StreamInvariant
  import Backoff
  import G = StreamGiveUp

  /** What a drop retry waits before jitter, by how many losses have been counted: doubled up to the fifth. */
  function BaseDelayMs(failures: nat): real {
    match failures
    case 1 => 5_000.0
    case 2 => 10_000.0
    case 3 => 20_000.0
    case 4 => 40_000.0
    case _ => 80_000.0
  }

  lemma BackoffIsByTheTable(failures: nat, random: Draw)
    requires 1 <= failures <= 5
    ensures 0.75 * BaseDelayMs(failures) <= ReconnectDelay(failures, random) <= 1.25 * BaseDelayMs(failures)
  {
    forall n | 1 <= n <= 5 ensures Backoff.Exponential(n, 5_000, 300_000) as real == BaseDelayMs(n) {
      Backoff.ExponentialDoubles(1, 5_000, 300_000);
      Backoff.ExponentialDoubles(2, 5_000, 300_000);
      Backoff.ExponentialDoubles(3, 5_000, 300_000);
      Backoff.ExponentialDoubles(4, 5_000, 300_000);
    }
    var e := BaseDelayMs(failures);
    var j := Backoff.Jitter(Backoff.Exponential(failures, 5_000, 300_000) as real, random);
    assert -0.25 * e <= j <= 0.25 * e;
    RoundingStaysInside(e + j, failures);
  }

  /** The band's ends are whole, so rounding does not leave it. */
  lemma RoundingStaysInside(delay: real, failures: nat)
    requires 1 <= failures <= 5
    requires 0.75 * BaseDelayMs(failures) <= delay <= 1.25 * BaseDelayMs(failures)
    ensures 0.75 * BaseDelayMs(failures) <= Backoff.Clamped(delay, 300_000) as real <= 1.25 * BaseDelayMs(failures)
  {
    var r := Backoff.Round(delay);
    assert r as real <= delay + 0.5 && r as real > delay - 0.5;
  }

  /** A loss that is counted waits by the table, or gives up once the table is used up; one that is not changes nothing. */
  lemma LossIsRetriedByTheTable(s: Stream, random: Draw)
    ensures var t := ScheduleReconnect(s, random);
            if s.isStopped || s.reconnectTimer.Some? || s.recoveryTimer.Some? then t == s
            else if s.consecutiveFailures >= 5 then
              t.reconnectTimer.None? && t.recoveryTimer == Some(s.now + 900_000.0)
            else
              && t.recoveryTimer.None? && t.reconnectTimer.Some? && !t.reconnectTimer.value.isRefreshRetry
              && t.notices == s.notices
              && s.now + 0.75 * BaseDelayMs(s.consecutiveFailures + 1) <= t.reconnectTimer.value.due
              && t.reconnectTimer.value.due <= s.now + 1.25 * BaseDelayMs(s.consecutiveFailures + 1)
  {
    hide ReconnectDelay, BaseDelayMs, GiveUp;
    GivingUpLeaves(s.(consecutiveFailures := s.consecutiveFailures + 1));
    if s.consecutiveFailures < 5 {
      BackoffIsByTheTable(s.consecutiveFailures + 1, random);
    }
  }

  // ---- Every timer ---------------------------------------------------------

  predicate Near(timer: Option<real>, now: real, within: real) {
    timer.Some? ==> timer.value <= now + within
  }

  predicate TimersNear(now: real, reconnect: Option<ReconnectTimer>, refresh: Option<real>, recovery: Option<real>) {
    && (reconnect.Some? ==> reconnect.value.due <= now + (if reconnect.value.isRefreshRetry then 5_000.0 else 100_000.0))
    && Near(refresh, now, 210_000.0) && Near(recovery, now, 900_000.0)
  }

  predicate SocketsNear(now: real, sockets: seq<Socket>) {
    forall i :: 0 <= i < |sockets| ==> Near(sockets[i].handshakeTimer, now, 15_000.0)
  }

  predicate NearInv(s: Stream) {
    TimersNear(s.now, s.reconnectTimer, s.refreshTimer, s.recoveryTimer) && SocketsNear(s.now, s.sockets)
  }

  lemma SameTimers(s: Stream, t: Stream)
    requires NearInv(s) && t.now == s.now && SocketsNear(s.now, t.sockets)
    requires t.reconnectTimer == s.reconnectTimer || t.reconnectTimer.None?
    requires t.refreshTimer == s.refreshTimer || t.refreshTimer.None?
    requires t.recoveryTimer == s.recoveryTimer || t.recoveryTimer.None?
    ensures NearInv(t)
  {
    hide SocketsNear;
  }

  lemma TouchingSockets(now: real, sockets: seq<Socket>)
    requires SocketsNear(now, sockets)
    ensures forall i :: SocketsNear(now, CloseSocket(sockets, i))
    ensures forall i :: SocketsNear(now, Untimed(sockets, i))
    ensures forall i, ready :: SocketsNear(now, SetReady(sockets, i, ready))
  {
  }

  lemma SettlingKeepsNear(s: Stream, i: nat)
    requires NearInv(s)
    ensures NearInv(Settle(s, i)) && NearInv(SettleHandshake(s))
  {
    hide TimersNear, SocketsNear, Untimed, IsUnsettled;
    TouchingSockets(s.now, s.sockets);
    SameTimers(s, Settle(s, i));
    SameTimers(s, SettleHandshake(s));
  }

  lemma DisposingKeepsNear(s: Stream)
    requires NearInv(s)
    ensures NearInv(DisposeCandidate(s)) && NearInv(DisposeSocket(s))
  {
    hide TimersNear, SocketsNear, CloseSocket, NoteDisconnect, IsConnected;
    TouchingSockets(s.now, s.sockets);
    SameTimers(s, DisposeCandidate(s));
    SameTimers(s, DisposeSocket(s));
  }

  lemma TeardownKeepsNear(s: Stream, i: nat)
    requires NearInv(s)
    ensures NearInv(Settle(s, i)) && NearInv(DisposeCandidate(s)) && NearInv(DisposeSocket(s)) && NearInv(SettleHandshake(s))
  {
    hide NearInv, Settle, DisposeCandidate, DisposeSocket, SettleHandshake;
    SettlingKeepsNear(s, i);
    DisposingKeepsNear(s);
  }

  lemma SchedulingKeepsNear(s: Stream, random: Draw)
    requires NearInv(s)
    ensures NearInv(ScheduleReconnect(s, random)) && NearInv(ScheduleRefreshRetry(s))
  {
    hide SocketsNear;
    TableIsUnderTheCap(s.consecutiveFailures + 1);
    LossIsRetriedByTheTable(s, random);
    SchedulingLeaves(s, random);
    hide ScheduleReconnect, BaseDelayMs;
  }

  lemma TableIsUnderTheCap(failures: nat)
    ensures 1.25 * BaseDelayMs(failures) <= 100_000.0
  {
  }

  lemma SchedulingLeaves(s: Stream, random: Draw)
    ensures var t := ScheduleReconnect(s, random); t.now == s.now && t.refreshTimer == s.refreshTimer && t.sockets == s.sockets
  {
    hide ReconnectDelay, GiveUp;
    GivingUpLeaves(s.(consecutiveFailures := s.consecutiveFailures + 1));
  }

  lemma FailingKeepsNear(s: Stream, a: Attempt, random: Draw)
    requires NearInv(s)
    ensures NearInv(HandleConnectFailure(s, a, random))
  {
    hide TimersNear, SocketsNear, ScheduleReconnect, ScheduleRefreshRetry, IsConnected, IsSuperseded, DropOwns;
    var idle := s.(isConnecting := false);
    SameTimers(s, idle);
    SchedulingKeepsNear(idle, random);
  }

  lemma AwaitingKeepsNear(s: Stream, isRefreshCandidate: bool)
    requires NearInv(s)
    ensures NearInv(AwaitHandshake(s, isRefreshCandidate))
  {
  }

  lemma OpeningKeepsNear(s: Stream, a: Attempt, throws: bool, random: Draw)
    requires NearInv(s)
    ensures NearInv(OpenSocket(s, a, throws, random))
  {
    hide NearInv, HandleConnectFailure, DisposeCandidate, DisposeSocket, AwaitHandshake, IsConnected;
    var bumped := s.(connectGeneration := s.connectGeneration + 1);
    SameFields(s, bumped);
    TeardownKeepsNear(bumped, 0);
    TeardownKeepsNear(s, 0);
    TeardownKeepsNear(DisposeCandidate(s), 0);
    var kept, torn := DisposeCandidate(bumped), DisposeSocket(DisposeCandidate(s));
    FailingKeepsNear(kept, a, random);
    FailingKeepsNear(torn, a, random);
    var k, l := kept.(candidate := Some(|kept.sockets|)), torn.(socket := Some(|torn.sockets|));
    SameFields(kept, k);
    SameFields(torn, l);
    AwaitingKeepsNear(k, true);
    AwaitingKeepsNear(l, false);
  }

  lemma SameFields(s: Stream, t: Stream)
    requires NearInv(s) && t.now == s.now && t.sockets == s.sockets && t.reconnectTimer == s.reconnectTimer
    requires t.refreshTimer == s.refreshTimer && t.recoveryTimer == s.recoveryTimer
    ensures NearInv(t)
  {
  }

  lemma BeginningKeepsNear(s: Stream, isRecovery: bool)
    requires NearInv(s)
    ensures NearInv(Connect(s, isRecovery))
  {
    hide NearInv, DisposeCandidate, DisposeSocket, SettleHandshake, IsConnected;
    if !s.isStopped {
      var bumped := s.(connectGeneration := s.connectGeneration + 1);
      SameFields(s, bumped);
      TeardownKeepsNear(bumped, 0);
      TeardownKeepsNear(DisposeCandidate(bumped), 0);
      var torn := DisposeSocket(DisposeCandidate(bumped));
      TeardownKeepsNear(torn, 0);
      TeardownKeepsNear(s, 0);
      if s.connectReason == Refresh && IsConnected(s) {
        SameFields(SettleHandshake(s), BeginAttempt(s, isRecovery));
      } else {
        SameFields(SettleHandshake(torn), BeginAttempt(s, isRecovery));
      }
    }
  }

  lemma OpenedKeepsNear(s: Stream, random: Draw)
    requires NearInv(s)
    ensures NearInv(HandleOpen(s, random))
  {
    hide SocketsNear;
  }

  lemma DroppingKeepsNear(s: Stream, random: Draw)
    requires NearInv(s)
    ensures NearInv(ScheduleReconnect(Dropped(s), random))
  {
    hide SocketsNear, TimersNear, ScheduleReconnect, NoteDisconnect;
    SameTimers(s, Dropped(s));
    SchedulingKeepsNear(Dropped(s), random);
  }

  lemma TimingOutKeepsNear(s: Stream, i: nat, random: Draw)
    requires NearInv(s) && i < |s.sockets|
    ensures NearInv(OnHandshakeTimeout(s, i, random))
  {
    hide NearInv, ScheduleReconnect, ScheduleRefreshRetry, DisposeCandidate, DisposeSocket, Settle, IsConnected;
    var idle := s.(isConnecting := false);
    SameFields(s, idle);
    TeardownKeepsNear(s, i);
    TeardownKeepsNear(idle, i);
    var kept := DisposeCandidate(idle);
    TeardownKeepsNear(kept, i);
    TeardownKeepsNear(DisposeSocket(kept), i);
    SchedulingKeepsNear(Settle(kept, i), random);
    SchedulingKeepsNear(Settle(DisposeSocket(kept), i), random);
  }

  lemma HandshakeOpenKeepsNear(s: Stream, i: nat, random: Draw)
    requires NearInv(s) && i < |s.sockets|
    ensures NearInv(OnHandshakeOpen(s, i, random))
  {
    hide TimersNear, SocketsNear, HandleOpen, Settle, CloseSocket;
    var promoted := s.(candidate := None, socket := Some(i), sockets := CloseSocket(s.sockets, s.socket));
    TouchingSockets(s.now, s.sockets);
    SameTimers(s, promoted);
    OpenedKeepsNear(s, random);
    OpenedKeepsNear(promoted, random);
    TeardownKeepsNear(s, i);
    TeardownKeepsNear(HandleOpen(s, random), i);
    TeardownKeepsNear(HandleOpen(promoted, random), i);
  }

  lemma HandshakeCloseKeepsNear(s: Stream, i: nat, random: Draw)
    requires NearInv(s) && i < |s.sockets|
    ensures NearInv(OnHandshakeClose(s, i, random))
  {
    hide NearInv, ScheduleReconnect, ScheduleRefreshRetry, Dropped, DisposeCandidate, Settle, IsConnected;
    var gone := s.(candidate := None, isConnecting := false);
    SameFields(s, gone);
    TeardownKeepsNear(s, i);
    TeardownKeepsNear(gone, i);
    var alone := DisposeCandidate(s);
    TeardownKeepsNear(alone, i);
    SchedulingKeepsNear(gone, random);
    DroppingKeepsNear(gone, random);
    DroppingKeepsNear(alone, random);
    TeardownKeepsNear(ScheduleRefreshRetry(gone), i);
    TeardownKeepsNear(ScheduleReconnect(Dropped(gone), random), i);
    TeardownKeepsNear(ScheduleReconnect(Dropped(alone), random), i);
  }

  lemma TimerEventsKeepNear(s: Stream, e: Event)
    requires NearInv(s) && Enabled(s, e) && (e.Start? || e.RefreshFires? || e.ReconnectFires? || e.RecoveryFires?)
    ensures NearInv(Apply(s, e))
  {
    hide TimersNear, SocketsNear, Connect;
    match e
    case Start =>
      SameTimers(s, ResetForStart(s));
      BeginningKeepsNear(ResetForStart(s), false);
    case RefreshFires =>
      var ready := s.(refreshTimer := None, reconnectTimer := None, connectReason := Refresh);
      SameTimers(s, ready);
      BeginningKeepsNear(ready, false);
    case ReconnectFires =>
      var retry, drop := s.(reconnectTimer := None, connectReason := Refresh), s.(reconnectTimer := None);
      SameTimers(s, retry);
      SameTimers(s, drop);
      BeginningKeepsNear(retry, false);
      BeginningKeepsNear(drop, false);
    case RecoveryFires =>
      var cleared := s.(recoveryTimer := None);
      var ready := cleared.(consecutiveFailures := 0, connectReason := Drop);
      SameTimers(s, cleared);
      SameTimers(s, ready);
      BeginningKeepsNear(ready, true);
  }

  lemma StoppingKeepsNear(s: Stream)
    requires NearInv(s)
    ensures NearInv(DoStop(s))
  {
    hide TimersNear, SocketsNear, DisposeCandidate, DisposeSocket, SettleHandshake;
    var halted := ClearTimers(s.(isStopped := true, connectGeneration := s.connectGeneration + 1, isConnecting := false));
    SameTimers(s, halted);
    TeardownKeepsNear(halted, 0);
    TeardownKeepsNear(SettleHandshake(halted), 0);
    TeardownKeepsNear(DisposeCandidate(SettleHandshake(halted)), 0);
  }

  lemma AnswersKeepNear(s: Stream, e: Event)
    requires NearInv(s) && Enabled(s, e) && (e.TokenArrives? || e.TokenFails?)
    ensures NearInv(Apply(s, e))
  {
    hide NearInv, OpenSocket, HandleConnectFailure, StillOwns, IsSuperseded;
    var answered := FetchSettled(s, e.k);
    SameFields(s, answered);
    SameFields(s, Abandon(answered, s.attempts[e.k]));
    FailingKeepsNear(answered, s.attempts[e.k], e.random);
    OpeningKeepsNear(answered, s.attempts[e.k], e.TokenArrives? && e.constructorThrows, e.random);
  }

  lemma SocketEventsKeepNear(s: Stream, e: Event)
    requires NearInv(s) && Enabled(s, e)
    requires e.HandshakeFires? || e.SocketOpens? || e.SocketCloses? || e.SocketStartsClosing?
    ensures NearInv(Apply(s, e))
  {
    hide TimersNear, SocketsNear, OnHandshakeTimeout, OnHandshakeOpen, OnHandshakeClose;
    TouchingSockets(s.now, s.sockets);
    match e
    case HandshakeFires(i, random) => TimingOutKeepsNear(s, i, random);
    case SocketOpens(i, random) =>
      var up := s.(sockets := SetReady(s.sockets, i, Open));
      SameTimers(s, up);
      HandshakeOpenKeepsNear(up, i, random);
    case SocketCloses(i, random) =>
      var closed := s.(sockets := SetReady(s.sockets, i, Closed));
      SameTimers(s, closed);
      HandshakeCloseKeepsNear(closed, i, random);
    case SocketStartsClosing(i) => SameTimers(s, s.(sockets := SetReady(s.sockets, i, Closing)));
  }

  lemma StepKeepsNear(s: Stream, e: Event)
    requires NearInv(s)
    ensures NearInv(Step(s, e))
  {
    if Enabled(s, e) {
      match e
      case Start => hide *; TimerEventsKeepNear(s, e);
      case RefreshFires => hide *; TimerEventsKeepNear(s, e);
      case ReconnectFires => hide *; TimerEventsKeepNear(s, e);
      case RecoveryFires => hide *; TimerEventsKeepNear(s, e);
      case TokenArrives(_, _, _) => hide *; AnswersKeepNear(s, e);
      case TokenFails(_, _) => hide *; AnswersKeepNear(s, e);
      case HandshakeFires(_, _) => hide *; SocketEventsKeepNear(s, e);
      case SocketOpens(_, _) => hide *; SocketEventsKeepNear(s, e);
      case SocketCloses(_, _) => hide *; SocketEventsKeepNear(s, e);
      case SocketStartsClosing(_) => hide *; SocketEventsKeepNear(s, e);
      case Stop => hide DoStop, NearInv; StoppingKeepsNear(s);
      case _ =>
    }
  }

  lemma {:induction false} RunKeepsNear(events: seq<Event>)
    ensures NearInv(Run(FRESH, events))
  {
    hide NearInv, Step;
    if events == [] {
      NothingArmedYet();
    } else {
      RunKeepsNear(events[..|events| - 1]);
      StepKeepsNear(Run(FRESH, events[..|events| - 1]), events[|events| - 1]);
    }
  }

  lemma NothingArmedYet()
    ensures NearInv(FRESH)
  {
  }

  /**
   * Over every run: whatever the stream waits for by a timer comes due within its interval, so a
   * started stream that is neither up nor fetching moves on within fifteen minutes at the most.
   */
  lemma NothingIsPutOffForLong(events: seq<Event>)
    ensures var s := Run(FRESH, events);
            && (s.reconnectTimer.Some? ==>
                  s.reconnectTimer.value.due <= s.now + (if s.reconnectTimer.value.isRefreshRetry then 5_000.0 else 100_000.0))
            && (s.refreshTimer.Some? ==> s.refreshTimer.value <= s.now + 210_000.0)
            && (s.recoveryTimer.Some? ==> s.recoveryTimer.value <= s.now + 900_000.0)
            && (forall i :: 0 <= i < |s.sockets| && s.sockets[i].handshakeTimer.Some? ==>
                  s.sockets[i].handshakeTimer.value <= s.now + 15_000.0)
  {
    RunKeepsNear(events);
    hide Run;
  }

  // ---- A new socket --------------------------------------------------------

  lemma TearingDownAddsNoSocket(s: Stream, i: nat)
    ensures |Settle(s, i).sockets| == |SettleHandshake(s).sockets| == |s.sockets|
    ensures |DisposeCandidate(s).sockets| == |DisposeSocket(s).sockets| == |s.sockets|
  {
  }

  lemma BeginningAddsNoSocket(s: Stream, isRecovery: bool)
    ensures |Connect(s, isRecovery).sockets| == |s.sockets|
  {
    hide DisposeCandidate, DisposeSocket, SettleHandshake, IsConnected;
    var torn := DisposeCandidate(s.(connectGeneration := s.connectGeneration + 1));
    TearingDownAddsNoSocket(s, 0);
    TearingDownAddsNoSocket(s.(connectGeneration := s.connectGeneration + 1), 0);
    TearingDownAddsNoSocket(torn, 0);
    TearingDownAddsNoSocket(DisposeSocket(torn), 0);
  }

  lemma PiecesAddNoSocket(i: nat, random: Draw)
    ensures forall t: Stream :: |Settle(t, i).sockets| == |t.sockets|
    ensures forall t: Stream :: |HandleOpen(t, random).sockets| == |t.sockets|
    ensures forall t: Stream :: |DisposeCandidate(t).sockets| == |t.sockets| && |DisposeSocket(t).sockets| == |t.sockets|
    ensures forall t: Stream :: |ScheduleRefreshRetry(t).sockets| == |t.sockets|
  {
    hide ScheduleRefreshRetry, DisposeCandidate, DisposeSocket, Settle, HandleOpen;
    forall t: Stream ensures |Settle(t, i).sockets| == |t.sockets| && |HandleOpen(t, random).sockets| == |t.sockets|
      && |DisposeCandidate(t).sockets| == |DisposeSocket(t).sockets| == |t.sockets|
      && |ScheduleRefreshRetry(t).sockets| == |t.sockets| {
      TearingDownAddsNoSocket(t, i);
      ArmingAddsNoSocket(t, random);
    }
  }

  lemma TimeoutAddsNoSocket(s: Stream, i: nat, random: Draw)
    requires i < |s.sockets|
    ensures |OnHandshakeTimeout(s, i, random).sockets| == |s.sockets|
  {
    hide ScheduleReconnect, ScheduleRefreshRetry, IsConnected, DisposeCandidate, DisposeSocket, Settle;
    PiecesAddNoSocket(i, random);
  }

  lemma OpeningAddsNoSocket(s: Stream, i: nat, random: Draw)
    requires i < |s.sockets|
    ensures |OnHandshakeOpen(s, i, random).sockets| == |s.sockets|
  {
    hide Settle, HandleOpen;
    PiecesAddNoSocket(i, random);
  }

  lemma ClosingAddsNoSocket(s: Stream, i: nat, random: Draw)
    requires i < |s.sockets|
    ensures |OnHandshakeClose(s, i, random).sockets| == |s.sockets|
  {
    hide ScheduleReconnect, ScheduleRefreshRetry, IsConnected, NoteDisconnect, DisposeCandidate, Settle;
    PiecesAddNoSocket(i, random);
  }

  lemma ArmingAddsNoSocket(s: Stream, random: Draw)
    ensures ScheduleRefreshRetry(s).sockets == HandleOpen(s, random).sockets == s.sockets
  {
  }

  lemma StoppingAddsNoSocket(s: Stream)
    ensures |DoStop(s).sockets| == |s.sockets|
  {
    hide DisposeCandidate, DisposeSocket, SettleHandshake;
    var halted := ClearTimers(s.(isStopped := true, connectGeneration := s.connectGeneration + 1, isConnecting := false));
    TearingDownAddsNoSocket(halted, 0);
    TearingDownAddsNoSocket(SettleHandshake(halted), 0);
    TearingDownAddsNoSocket(DisposeCandidate(SettleHandshake(halted)), 0);
  }

  lemma TimersAddNoSocket(s: Stream, e: Event)
    requires Enabled(s, e) && (e.Start? || e.RefreshFires? || e.ReconnectFires? || e.RecoveryFires?)
    ensures |Apply(s, e).sockets| == |s.sockets|
  {
    hide Connect;
    match e
    case Start => BeginningAddsNoSocket(ResetForStart(s), false);
    case RefreshFires =>
      BeginningAddsNoSocket(s.(refreshTimer := None, reconnectTimer := None, connectReason := Refresh), false);
    case ReconnectFires =>
      BeginningAddsNoSocket(s.(reconnectTimer := None, connectReason := Refresh), false);
      BeginningAddsNoSocket(s.(reconnectTimer := None), false);
    case RecoveryFires =>
      BeginningAddsNoSocket(s.(recoveryTimer := None, consecutiveFailures := 0, connectReason := Drop), true);
  }

  lemma SocketEventsAddNoSocket(s: Stream, e: Event)
    requires Enabled(s, e) && (e.HandshakeFires? || e.SocketOpens? || e.SocketCloses? || e.SocketStartsClosing?)
    ensures |Apply(s, e).sockets| == |s.sockets|
  {
    hide OnHandshakeTimeout, OnHandshakeOpen, OnHandshakeClose;
    match e
    case HandshakeFires(i, random) => TimeoutAddsNoSocket(s, i, random);
    case SocketOpens(i, random) => OpeningAddsNoSocket(s.(sockets := SetReady(s.sockets, i, Open)), i, random);
    case SocketCloses(i, random) => ClosingAddsNoSocket(s.(sockets := SetReady(s.sockets, i, Closed)), i, random);
    case SocketStartsClosing(_) =>
  }

  lemma OnlyATokenOpensASocket(s: Stream, e: Event)
    requires Enabled(s, e) && !e.TokenArrives?
    ensures |Apply(s, e).sockets| == |s.sockets|
  {
    match e
    case Start => hide *; TimersAddNoSocket(s, e);
    case RefreshFires => hide *; TimersAddNoSocket(s, e);
    case ReconnectFires => hide *; TimersAddNoSocket(s, e);
    case RecoveryFires => hide *; TimersAddNoSocket(s, e);
    case HandshakeFires(_, _) => hide *; SocketEventsAddNoSocket(s, e);
    case SocketOpens(_, _) => hide *; SocketEventsAddNoSocket(s, e);
    case SocketCloses(_, _) => hide *; SocketEventsAddNoSocket(s, e);
    case SocketStartsClosing(_) => hide *; SocketEventsAddNoSocket(s, e);
    case Stop => hide DoStop; StoppingAddsNoSocket(s);
    case TokenFails(k, random) => hide HandleConnectFailure; FailingLeavesSockets(FetchSettled(s, k), s.attempts[k], random);
    case _ =>
  }

  /** What a new socket is, and whose it becomes. */
  predicate IsNewSocket(s: Stream, t: Stream) {
    && |t.sockets| == |s.sockets| + 1
    && var k := t.sockets[|s.sockets|];
       && k.ready == Connecting && k.listening && k.generation == t.connectGeneration
       && k.handshakeTimer == Some(s.now + 15_000.0) && t.handshakeSettle == Some(|s.sockets|)
       && (k.isRefreshCandidate <==> t.candidate == Some(|s.sockets|))
       && (!k.isRefreshCandidate <==> t.socket == Some(|s.sockets|))
  }

  lemma AwaitingANewSocket(s: Stream, isRefreshCandidate: bool)
    requires isRefreshCandidate <==> s.candidate == Some(|s.sockets|)
    requires !isRefreshCandidate <==> s.socket == Some(|s.sockets|)
    ensures IsNewSocket(s, AwaitHandshake(s, isRefreshCandidate))
  {
  }

  lemma CandidateIsNew(s: Stream, a: Attempt, random: Draw)
    requires a.shouldDeferDispose && IsConnected(s)
    requires s.socket.Some? ==> s.socket.value < |s.sockets|
    ensures IsNewSocket(s, OpenSocket(s, a, false, random))
  {
    hide AwaitHandshake, CloseSocket, IsConnected, IsNewSocket;
    TearingDownAddsNoSocket(s.(connectGeneration := s.connectGeneration + 1), 0);
    var ready := DisposeCandidate(s.(connectGeneration := s.connectGeneration + 1));
    AwaitingANewSocket(ready.(candidate := Some(|ready.sockets|)), true);
    SameStart(s, ready.(candidate := Some(|ready.sockets|)), OpenSocket(s, a, false, random));
  }

  lemma ReplacementIsNew(s: Stream, a: Attempt, random: Draw)
    requires !(a.shouldDeferDispose && IsConnected(s))
    ensures IsNewSocket(s, OpenSocket(s, a, false, random))
  {
    hide AwaitHandshake, CloseSocket, NoteDisconnect, IsConnected, IsNewSocket;
    TearingDownAddsNoSocket(s, 0);
    TearingDownAddsNoSocket(DisposeCandidate(s), 0);
    var ready := DisposeSocket(DisposeCandidate(s));
    AwaitingANewSocket(ready.(socket := Some(|ready.sockets|)), false);
    SameStart(s, ready.(socket := Some(|ready.sockets|)), OpenSocket(s, a, false, random));
  }

  lemma ThrowingAddsNoSocket(s: Stream, a: Attempt, random: Draw)
    ensures |OpenSocket(s, a, true, random).sockets| == |s.sockets|
  {
    hide HandleConnectFailure, DisposeCandidate, DisposeSocket, IsConnected;
    var bumped := s.(connectGeneration := s.connectGeneration + 1);
    TearingDownAddsNoSocket(s, 0);
    TearingDownAddsNoSocket(bumped, 0);
    TearingDownAddsNoSocket(DisposeCandidate(s), 0);
    FailingLeavesSockets(DisposeCandidate(bumped), a, random);
    FailingLeavesSockets(DisposeSocket(DisposeCandidate(s)), a, random);
  }

  lemma TokenOpensASocket(s: Stream, a: Attempt, throws: bool, random: Draw)
    requires s.socket.Some? ==> s.socket.value < |s.sockets|
    ensures var t := OpenSocket(s, a, throws, random);
            if throws then |t.sockets| == |s.sockets| else IsNewSocket(s, t)
  {
    hide OpenSocket, IsConnected, IsNewSocket;
    if throws {
      ThrowingAddsNoSocket(s, a, random);
    } else if a.shouldDeferDispose && IsConnected(s) {
      CandidateIsNew(s, a, random);
    } else {
      ReplacementIsNew(s, a, random);
    }
  }

  lemma SameStart(s: Stream, ready: Stream, t: Stream)
    requires ready.now == s.now && |ready.sockets| == |s.sockets|
    ensures IsNewSocket(ready, t) <==> IsNewSocket(s, t)
  {
  }

  lemma FailingLeavesSockets(s: Stream, a: Attempt, random: Draw)
    ensures HandleConnectFailure(s, a, random).sockets == s.sockets
  {
    hide ScheduleReconnect, IsConnected, IsSuperseded, DropOwns;
  }

  /** Over every run: a socket is opened by nothing but a token, one at a time, with fifteen seconds to shake hands. */
  lemma EachSocketIsGivenFifteenSeconds(events: seq<Event>, e: Event)
    requires |Step(Run(FRESH, events), e).sockets| != |Run(FRESH, events).sockets|
    ensures e.TokenArrives? && !e.constructorThrows
    ensures IsNewSocket(Run(FRESH, events), Step(Run(FRESH, events), e))
  {
    var s := Run(FRESH, events);
    if !e.TokenArrives? {
      OnlyATokenOpensASocket(s, e);
    } else {
      RunKeepsInv(events);
      LiveIsOneOfThem(s);
      var answered := FetchSettled(s, e.k);
      TokenOpensASocket(answered, s.attempts[e.k], e.constructorThrows, e.random);
      hide Run, OpenSocket, IsNewSocket, StillOwns, IsSuperseded, Inv;
      SameStart(s, answered, Step(s, e));
    }
  }

  lemma LiveIsOneOfThem(s: Stream)
    requires Inv(s)
    ensures s.socket.Some? ==> s.socket.value < |s.sockets|
  {
    hide AttemptsFine, OwnersOk, NoWedge;
  }

  // ---- The first loss ------------------------------------------------------

  /** Losing an open connection arms a retry five seconds off, a quarter either way, and never a recovery. */
  lemma FirstLossIsRetriedSoon(events: seq<Event>, i: nat, random: Draw)
    requires var s := Run(FRESH, events);
             && IsActive(s) && s.socket == Some(i) && IsEstablished(s.sockets, s.socket) && !DropPending(s)
             && Enabled(s, SocketCloses(i, random))
    ensures var s := Run(FRESH, events); var t := Step(s, SocketCloses(i, random));
            && t.recoveryTimer.None? && t.notices == s.notices
            && t.reconnectTimer.Some? && !t.reconnectTimer.value.isRefreshRetry
            && s.now + 3_750.0 <= t.reconnectTimer.value.due <= s.now + 6_250.0
  {
    RunKeepsInv(events);
    G.RunKeepsFailAndNotices(events);
    hide Run, Sane, AttemptsFine, OwnersOk, NoWedge, G.Streak;
    LosingTheLiveSocket(Run(FRESH, events), i, random);
  }

  lemma LosingTheLiveSocket(s: Stream, i: nat, random: Draw)
    requires IsActive(s) && s.socket == Some(i) && s.candidate != Some(i) && s.consecutiveFailures == 0 && s.recoveryTimer.None?
    requires IsEstablished(s.sockets, s.socket) && Enabled(s, SocketCloses(i, random))
    ensures var t := Step(s, SocketCloses(i, random));
            && t.recoveryTimer.None? && t.notices == s.notices
            && t.reconnectTimer.Some? && !t.reconnectTimer.value.isRefreshRetry
            && s.now + 3_750.0 <= t.reconnectTimer.value.due <= s.now + 6_250.0
  {
    hide ScheduleReconnect, CloseSocket, Untimed, NoteDisconnect, IsConnected;
    var closed := s.(sockets := SetReady(s.sockets, i, Closed));
    LossIsRetriedByTheTable(Dropped(DisposeCandidate(closed)), random);
  }
}
