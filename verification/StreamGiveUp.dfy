/** How long the stream keeps failing before it gives up, and what it announces when it does. */
module StreamGiveUp {
  import opened Options
  import opened Settings
  import opened StreamSpec
  import opened StreamInvariant

  /**
   * Connection attempts in a row that did not open, since the last open, start or recovery wait, not
   * counting refreshes asked for while the live socket is open: losing one of those is no outage.
   */
  function Streak(marks: seq<Mark>): nat {
    if marks == [] then 0 else
    match marks[|marks| - 1]
    case Opened => 0
    case Asked(_, isDeferred, isRecovery) =>
      if isRecovery then 1
      else if isDeferred then Streak(marks[..|marks| - 1])
      else Streak(marks[..|marks| - 1]) + 1
  }

  /**
   * How the failure count and the attempts in a row bound each other. A loss is counted for each
   * attempt that failed, for the drop before them, and once more if the candidate and the live socket
   * it was to replace are lost one after the other. A give-up is outstanding while a recovery is
   * armed, and none is while a socket is up.
   */
  predicate FailHolds(streak: nat, failures: nat, hasDropRetry: bool, hasRecovery: bool, isUp: bool, hasGivenUp: bool) {
    if hasRecovery then WEBSOCKET_MAX_FAILURES - 1 <= streak <= WEBSOCKET_MAX_FAILURES + 1 && hasGivenUp
    else if hasDropRetry then streak <= failures <= WEBSOCKET_MAX_FAILURES && failures <= streak + (if isUp then 1 else 2)
    else if isUp then streak == 0 && failures == 0 && !hasGivenUp
    else streak <= failures + 1 && failures <= WEBSOCKET_MAX_FAILURES && failures <= streak + 1
  }

  predicate FailInv(s: Stream) {
    && Streak(s.marks) <= WEBSOCKET_MAX_FAILURES + 1
    && (IsActive(s) ==>
      FailHolds(Streak(s.marks), s.consecutiveFailures, s.reconnectTimer.Some? && !s.reconnectTimer.value.isRefreshRetry,
                s.recoveryTimer.Some?, IsEstablished(s.sockets, s.socket), s.hasGivenUp))
  }

  lemma AskingExtendsStreak(marks: seq<Mark>, at: real, isDeferred: bool, isRecovery: bool)
    ensures Streak(marks + [Asked(at, isDeferred, isRecovery)])
            == if isRecovery then 1 else if isDeferred then Streak(marks) else Streak(marks) + 1
    ensures Streak(marks + [Opened]) == 0
  {
    assert (marks + [Asked(at, isDeferred, isRecovery)])[..|marks|] == marks;
  }

  /** An attempt that tears the sockets down adds one to the streak, or starts it over after a give-up. */
  lemma FreshConnectKeepsFail(s: Stream, isRecovery: bool)
    requires IsActive(s) && NoTimers(s) && (s.connectReason != Refresh || !IsConnected(s))
    requires if isRecovery then s.consecutiveFailures == 0
             else Streak(s.marks) <= s.consecutiveFailures <= WEBSOCKET_MAX_FAILURES
                  && s.consecutiveFailures <= Streak(s.marks) + 2
    ensures FailInv(Connect(s, isRecovery))
  {
    AskingExtendsStreak(s.marks, s.now, false, isRecovery);
    hide Streak, CloseSocket, NoteDisconnect, Untimed;
  }

  lemma RefreshConnectKeepsFail(s: Stream)
    requires IsActive(s) && NoTimers(s) && Streak(s.marks) == s.consecutiveFailures == 0 && !s.hasGivenUp
    ensures FailInv(Connect(s, false))
  {
    if s.connectReason == Refresh && IsConnected(s) {
      AskingExtendsStreak(s.marks, s.now, true, false);
      hide Streak, CloseSocket, NoteDisconnect, Untimed;
    } else {
      FreshConnectKeepsFail(s, false);
    }
  }

  /** While no drop is pending, a scheduling step has room for one more failure. */
  predicate HasRoom(s: Stream) {
    && (s.recoveryTimer.Some? ==>
          WEBSOCKET_MAX_FAILURES - 1 <= Streak(s.marks) <= WEBSOCKET_MAX_FAILURES + 1 && s.hasGivenUp)
    && (s.recoveryTimer.None? ==>
          && Streak(s.marks) <= s.consecutiveFailures + 1 && s.consecutiveFailures <= WEBSOCKET_MAX_FAILURES
          && s.consecutiveFailures <= Streak(s.marks) + 1)
  }

  /** Counting one more failure absorbs the attempt that failed. */
  lemma ScheduleReconnectKeepsFail(s: Stream, random: Draw)
    requires HasRoom(s) && s.reconnectTimer.None?
    requires s.recoveryTimer.None? && IsEstablished(s.sockets, s.socket) ==> s.consecutiveFailures <= Streak(s.marks)
    ensures FailInv(ScheduleReconnect(s, random))
  {
    hide Streak, ReconnectDelay, IsEstablished, GiveUp;
    GivingUpLeaves(s.(consecutiveFailures := s.consecutiveFailures + 1));
  }

  lemma DropKeepsFail(s: Stream, i: nat, random: Draw)
    requires HasRoom(s)
    requires s.recoveryTimer.None? && (IsEstablished(s.sockets, s.socket) || IsEstablished(Untimed(s.sockets, i), s.socket))
             ==> s.consecutiveFailures <= Streak(s.marks)
    ensures FailInv(Settle(ScheduleReconnect(Dropped(s), random), i))
  {
    hide Streak, IsEstablished, Untimed, ReconnectDelay, NoteDisconnect, GiveUp;
    var dropped := Dropped(s);
    GivingUpLeaves(dropped.(consecutiveFailures := dropped.consecutiveFailures + 1));
  }

  lemma RetryKeepsFail(s: Stream, i: nat)
    requires IsActive(s) && NoTimers(s) && s.consecutiveFailures == 0 && Streak(s.marks) == 0 && !s.hasGivenUp
    ensures FailInv(Settle(ScheduleRefreshRetry(s), i))
  {
    hide Streak, IsEstablished, Untimed;
  }

  lemma HandleOpenKeepsFail(s: Stream, i: nat, random: Draw)
    requires NoTimers(s)
    ensures FailInv(Settle(HandleOpen(s, random), i))
  {
    AskingExtendsStreak(s.marks, 0.0, false, false);
    hide Streak, IsEstablished, Untimed, RefreshDelay;
  }

  lemma FailureKeepsFail(s: Stream, a: Attempt, random: Draw)
    requires IsAnswered(s, a.shouldDeferDispose) && !IsSuperseded(s, a) && FailInv(s)
    ensures FailInv(HandleConnectFailure(s, a, random))
  {
    hide Streak, ScheduleReconnect, SocketsSane, NobodyOwns, OnlyRefreshOwns, AttemptsOk;
    var idle := s.(isConnecting := false);
    if !DropOwns(s, a) && !a.shouldDeferDispose {
      ScheduleReconnectKeepsFail(idle, random);
    }
  }

  lemma TokenArrivesKeepsFail(s: Stream, a: Attempt, throws: bool, random: Draw)
    requires IsAnswered(s, a.shouldDeferDispose) && !IsSuperseded(s, a) && FailInv(s) && !DropOwns(s, a)
    ensures FailInv(OpenSocket(s, a, throws, random))
  {
    hide Streak, SocketsSane, NobodyOwns, OnlyRefreshOwns, AttemptsOk, HandleConnectFailure;
    if a.shouldDeferDispose {
      assert FailHolds(Streak(s.marks), s.consecutiveFailures, false, false, true, s.hasGivenUp);
      var ready := DisposeCandidate(s.(connectGeneration := s.connectGeneration + 1));
      SupersededFailureIsNothing(ready, a, random);
    } else if throws {
      FailureKeepsFail(s, a, random);
    }
  }

  lemma TokenEventsKeepFail(s: Stream, e: Event)
    requires Inv(s) && FailInv(s) && Enabled(s, e) && (e.TokenArrives? || e.TokenFails?)
    ensures FailInv(Apply(s, e))
  {
    hide Streak, Inv, OpenSocket, HandleConnectFailure, IsEstablished;
    var k := e.k;
    var a := s.attempts[k];
    var answered := FetchSettled(s, k);
    if IsSuperseded(s, a) {
      SupersededFailureIsNothing(answered, a, e.random);
    } else {
      OwnersFetchIsAnswered(s, k);
      if e.TokenFails? {
        FailureKeepsFail(answered, a, e.random);
      } else if !DropOwns(answered, a) {
        ActiveIfAnswered(answered, a);
        TokenArrivesKeepsFail(answered, a, e.constructorThrows, e.random);
      }
    }
  }

  lemma ActiveIfAnswered(s: Stream, a: Attempt)
    requires IsAnswered(s, a.shouldDeferDispose)
    ensures IsActive(s)
  {
  }

  lemma SupersededFailureIsNothing(s: Stream, a: Attempt, random: Draw)
    requires IsSuperseded(s, a)
    ensures HandleConnectFailure(s, a, random) == s
  {
  }

  lemma TimerEventsKeepFail(s: Stream, e: Event)
    requires Inv(s) && FailInv(s) && Enabled(s, e) && e in {RefreshFires, ReconnectFires, RecoveryFires, Start}
    ensures FailInv(Apply(s, e))
  {
    hide Sane, AttemptsFine, BeginAttempt, Streak;
    match e
    case RefreshFires =>
      RefreshConnectKeepsFail(s.(refreshTimer := None, reconnectTimer := None, connectReason := Refresh));
    case ReconnectFires =>
      if s.reconnectTimer.value.isRefreshRetry {
        RefreshConnectKeepsFail(s.(reconnectTimer := None, connectReason := Refresh));
      } else {
        FreshConnectKeepsFail(s.(reconnectTimer := None), false);
      }
    case RecoveryFires =>
      FreshConnectKeepsFail(s.(recoveryTimer := None, consecutiveFailures := 0, connectReason := Drop), true);
    case Start =>
      NoStreakYet();
      FreshConnectKeepsFail(ResetForStart(s), false);
  }

  lemma NoStreakYet()
    ensures Streak([]) == 0
  {
  }

  /** Settling a handshake that is not the live socket's own leaves the count as it was. */
  lemma UntimedOtherKeepsFail(s: Stream, i: nat)
    requires FailInv(s) && (s.socket != Some(i) || !IsUnsettled(s.sockets, i))
    ensures FailInv(Settle(s, i))
  {
    hide Streak, FailHolds;
    assert IsEstablished(Untimed(s.sockets, i), s.socket) == IsEstablished(s.sockets, s.socket);
  }

  lemma HandshakeFiresKeepsFail(s: Stream, i: nat, random: Draw)
    requires Inv(s) && FailInv(s) && Enabled(s, HandshakeFires(i, random))
    ensures FailInv(OnHandshakeTimeout(s, i, random))
  {
    hide Streak, Sane, AttemptsFine, NobodyOwns, OnlyRefreshOwns, ScheduleReconnect, ScheduleRefreshRetry, NoWedge;
    var idle := s.(isConnecting := false);
    if s.sockets[i].generation != s.connectGeneration {
      UntimedOtherKeepsFail(s, i);
    } else if s.candidate == Some(i) && IsConnected(s) {
      RetryAfterTimeoutKeepsFail(Settle(DisposeCandidate(idle), i));
    } else if s.socket != Some(i) && s.candidate != Some(i) {
      UntimedOtherKeepsFail(idle, i);
    } else {
      ScheduleReconnectKeepsFail(Settle(DisposeSocket(DisposeCandidate(idle)), i), random);
    }
  }

  lemma RetryAfterTimeoutKeepsFail(s: Stream)
    requires IsActive(s) && NoTimers(s) && s.consecutiveFailures == 0 && Streak(s.marks) == 0 && !s.hasGivenUp
    ensures FailInv(ScheduleRefreshRetry(s))
  {
    hide Streak, IsEstablished;
  }

  lemma SocketOpensKeepsFail(s: Stream, i: nat, random: Draw)
    requires Inv(s) && FailInv(s) && Enabled(s, SocketOpens(i, random))
    ensures FailInv(Apply(s, SocketOpens(i, random)))
  {
    hide Streak, AttemptsFine, NobodyOwns, OnlyRefreshOwns, HandleOpen;
    assert SocketOk(s.sockets[i], i, s.socket, s.candidate, s.connectGeneration);
    var up := s.(sockets := SetReady(s.sockets, i, Open));
    if s.sockets[i].listening {
      HandleOpenKeepsFail(up, i, random);
      HandleOpenKeepsFail(up.(candidate := None, socket := Some(i), sockets := CloseSocket(up.sockets, up.socket)),
                          i, random);
    }
  }

  lemma SocketClosesKeepsFail(s: Stream, i: nat, random: Draw)
    requires Inv(s) && FailInv(s) && Enabled(s, SocketCloses(i, random))
    ensures FailInv(Apply(s, SocketCloses(i, random)))
  {
    hide Streak, AttemptsFine, NobodyOwns, OnlyRefreshOwns, ScheduleReconnect, ScheduleRefreshRetry;
    assert SocketOk(s.sockets[i], i, s.socket, s.candidate, s.connectGeneration);
    var closed := s.(sockets := SetReady(s.sockets, i, Closed));
    if s.candidate == Some(i) {
      var gone := closed.(candidate := None, isConnecting := false);
      DropKeepsFail(gone, i, random);
      if IsConnected(gone) {
        RetryKeepsFail(gone, i);
      }
    } else if s.socket == Some(i) {
      DropKeepsFail(DisposeCandidate(closed), i, random);
    } else {
      assert !s.sockets[i].listening;
    }
  }

  lemma StepKeepsFail(s: Stream, e: Event)
    requires Inv(s) && FailInv(s)
    ensures FailInv(Step(s, e))
  {
    if Enabled(s, e) {
      match e
      case TokenArrives(k, throws, random) => hide *; TokenEventsKeepFail(s, e);
      case TokenFails(k, random) => hide *; TokenEventsKeepFail(s, e);
      case HandshakeFires(i, random) => hide FailInv, Inv, OnHandshakeTimeout; HandshakeFiresKeepsFail(s, i, random);
      case SocketOpens(i, random) => hide *; SocketOpensKeepsFail(s, i, random);
      case SocketCloses(i, random) => hide *; SocketClosesKeepsFail(s, i, random);
      case RefreshFires => hide *; TimerEventsKeepFail(s, e);
      case ReconnectFires => hide *; TimerEventsKeepFail(s, e);
      case RecoveryFires => hide *; TimerEventsKeepFail(s, e);
      case Start => hide *; TimerEventsKeepFail(s, e);
      case Stop => hide CloseSocket, Untimed, NoteDisconnect, Inv, Streak;
      case SocketStartsClosing(i) =>
        hide Streak, AttemptsFine, TimersOk, OwnersOk, NoWedge;
        assert SocketOk(s.sockets[i], i, s.socket, s.candidate, s.connectGeneration);
      case _ => hide Inv, Streak, IsEstablished;
    }
  }

  // ---- Announcements ------------------------------------------------------

  /** `onUnavailable` and `onRecovered` take turns, starting with `onUnavailable`. */
  predicate Alternates(notices: seq<Notice>) {
    forall i :: 0 <= i < |notices| ==> notices[i] == if i % 2 == 0 then Unavailable else Recovered
  }

  /** A give-up is outstanding exactly when the last announcement was `onUnavailable`. */
  predicate NoticesHold(notices: seq<Notice>, hasGivenUp: bool, giveUpCount: nat) {
    && Alternates(notices)
    && (hasGivenUp <==> giveUpCount >= 1)
    && (hasGivenUp <==> |notices| % 2 == 1)
  }

  predicate NoticeInv(s: Stream) {
    NoticesHold(s.notices, s.hasGivenUp, s.giveUpCount)
  }

  lemma OneMoreNotice(notices: seq<Notice>)
    requires Alternates(notices)
    ensures Alternates(notices + [if |notices| % 2 == 0 then Unavailable else Recovered])
  {
  }

  lemma GivingUpKeepsNotices(s: Stream)
    requires NoticeInv(s)
    ensures NoticeInv(GiveUp(s))
  {
    hide Alternates;
    OneMoreNotice(s.notices);
  }

  lemma ScheduleReconnectKeepsNotices(s: Stream, random: Draw)
    requires NoticeInv(s)
    ensures NoticeInv(ScheduleReconnect(s, random))
  {
    hide ReconnectDelay, NoticesHold, GiveUp;
    var counted := s.(consecutiveFailures := s.consecutiveFailures + 1);
    GivingUpKeepsNotices(counted);
  }

  lemma HandleConnectFailureKeepsNotices(s: Stream, a: Attempt, random: Draw)
    requires NoticeInv(s)
    ensures NoticeInv(HandleConnectFailure(s, a, random))
  {
    hide ScheduleReconnect, NoticesHold;
    ScheduleReconnectKeepsNotices(s.(isConnecting := false), random);
  }

  /** Announcements are no concern of the sockets. */
  lemma SameNotices(s: Stream, t: Stream)
    requires NoticeInv(s) && t.notices == s.notices && t.hasGivenUp == s.hasGivenUp && t.giveUpCount == s.giveUpCount
    ensures NoticeInv(t)
  {
  }

  lemma TeardownKeepsNotices(s: Stream, i: nat)
    requires NoticeInv(s)
    ensures NoticeInv(Settle(s, i)) && NoticeInv(DisposeCandidate(s)) && NoticeInv(DisposeSocket(s))
  {
    hide NoticesHold, CloseSocket, Untimed, NoteDisconnect, IsConnected;
    SameNotices(s, Settle(s, i));
    SameNotices(s, DisposeCandidate(s));
    SameNotices(s, DisposeSocket(s));
  }

  lemma OpenSocketKeepsNotices(s: Stream, a: Attempt, throws: bool, random: Draw)
    requires NoticeInv(s)
    ensures NoticeInv(OpenSocket(s, a, throws, random))
  {
    hide HandleConnectFailure, NoticeInv, DisposeCandidate, DisposeSocket, IsConnected;
    var bumped := s.(connectGeneration := s.connectGeneration + 1);
    SameNotices(s, bumped);
    TeardownKeepsNotices(bumped, 0);
    TeardownKeepsNotices(s, 0);
    TeardownKeepsNotices(DisposeCandidate(s), 0);
    var kept, torn := DisposeCandidate(bumped), DisposeSocket(DisposeCandidate(s));
    HandleConnectFailureKeepsNotices(kept, a, random);
    HandleConnectFailureKeepsNotices(torn, a, random);
    SameNotices(kept, AwaitHandshake(kept.(candidate := Some(|kept.sockets|)), true));
    SameNotices(torn, AwaitHandshake(torn.(socket := Some(|torn.sockets|)), false));
  }

  lemma RetryKeepsNotices(s: Stream)
    requires NoticeInv(s)
    ensures NoticeInv(ScheduleRefreshRetry(s))
  {
    hide NoticesHold;
    SameNotices(s, ScheduleRefreshRetry(s));
  }

  lemma HandshakeFiresKeepsNotices(s: Stream, i: nat, random: Draw)
    requires NoticeInv(s) && i < |s.sockets|
    ensures NoticeInv(OnHandshakeTimeout(s, i, random))
  {
    hide NoticeInv, ScheduleReconnect, ScheduleRefreshRetry, DisposeCandidate, DisposeSocket, Settle, IsConnected;
    var idle := s.(isConnecting := false);
    SameNotices(s, idle);
    TeardownKeepsNotices(s, i);
    TeardownKeepsNotices(idle, i);
    var kept := DisposeCandidate(idle);
    TeardownKeepsNotices(kept, i);
    TeardownKeepsNotices(DisposeSocket(kept), i);
    RetryKeepsNotices(Settle(kept, i));
    ScheduleReconnectKeepsNotices(Settle(DisposeSocket(kept), i), random);
  }

  lemma SocketOpensKeepsNotices(s: Stream, i: nat, random: Draw)
    requires NoticeInv(s) && i < |s.sockets|
    ensures NoticeInv(OnHandshakeOpen(s, i, random))
  {
    hide NoticeInv, HandleOpen, Settle;
    var promoted := s.(candidate := None, socket := Some(i), sockets := CloseSocket(s.sockets, s.socket));
    SameNotices(s, promoted);
    HandleOpenKeepsNotices(s, random);
    HandleOpenKeepsNotices(promoted, random);
    TeardownKeepsNotices(s, i);
    TeardownKeepsNotices(HandleOpen(s, random), i);
    TeardownKeepsNotices(HandleOpen(promoted, random), i);
  }

  lemma HandleOpenKeepsNotices(s: Stream, random: Draw)
    requires NoticeInv(s)
    ensures NoticeInv(HandleOpen(s, random))
  {
    hide RefreshDelay, Alternates;
    OneMoreNotice(s.notices);
  }

  lemma SocketClosesKeepsNotices(s: Stream, i: nat, random: Draw)
    requires NoticeInv(s) && i < |s.sockets|
    ensures NoticeInv(OnHandshakeClose(s, i, random))
  {
    hide NoticesHold, ScheduleReconnect, CloseSocket, Untimed, NoteDisconnect, IsConnected;
    ScheduleReconnectKeepsNotices(Dropped(s.(candidate := None, isConnecting := false)), random);
    ScheduleReconnectKeepsNotices(Dropped(DisposeCandidate(s)), random);
  }

  lemma ReadyKeepsNotices(s: Stream, i: nat, ready: ReadyState)
    requires NoticeInv(s)
    ensures var t := s.(sockets := SetReady(s.sockets, i, ready));
            |t.sockets| == |s.sockets| && NoticeInv(t)
  {
  }

  lemma AnswersKeepNotices(s: Stream, e: Event)
    requires NoticeInv(s) && Enabled(s, e) && (e.TokenArrives? || e.TokenFails?)
    ensures NoticeInv(Apply(s, e))
  {
    hide NoticesHold, OpenSocket, HandleConnectFailure, IsConnected;
    match e
    case TokenArrives(k, throws, random) =>
      OpenSocketKeepsNotices(FetchSettled(s, k), s.attempts[k], throws, random);
    case TokenFails(k, random) =>
      HandleConnectFailureKeepsNotices(FetchSettled(s, k), s.attempts[k], random);
  }

  lemma SocketEventsKeepNotices(s: Stream, e: Event)
    requires NoticeInv(s) && Enabled(s, e) && (e.HandshakeFires? || e.SocketOpens? || e.SocketCloses?)
    ensures NoticeInv(Apply(s, e))
  {
    hide NoticesHold, OnHandshakeTimeout, OnHandshakeOpen, OnHandshakeClose, SetReady;
    match e
    case HandshakeFires(i, random) => HandshakeFiresKeepsNotices(s, i, random);
    case SocketOpens(i, random) =>
      ReadyKeepsNotices(s, i, Open);
      SocketOpensKeepsNotices(s.(sockets := SetReady(s.sockets, i, Open)), i, random);
    case SocketCloses(i, random) =>
      ReadyKeepsNotices(s, i, Closed);
      SocketClosesKeepsNotices(s.(sockets := SetReady(s.sockets, i, Closed)), i, random);
  }

  lemma SettlingPendingKeepsNotices(s: Stream)
    requires NoticeInv(s)
    ensures NoticeInv(SettleHandshake(s))
  {
    hide NoticesHold, Untimed;
    SameNotices(s, SettleHandshake(s));
  }

  lemma ConnectKeepsNotices(s: Stream, isRecovery: bool)
    requires NoticeInv(s)
    ensures NoticeInv(Connect(s, isRecovery))
  {
    hide NoticeInv, DisposeCandidate, DisposeSocket, SettleHandshake, IsConnected;
    var bumped := s.(connectGeneration := s.connectGeneration + 1);
    SameNotices(s, bumped);
    TeardownKeepsNotices(bumped, 0);
    TeardownKeepsNotices(DisposeCandidate(bumped), 0);
    if !s.isStopped {
      if s.connectReason == Refresh && IsConnected(s) {
        SettlingPendingKeepsNotices(s);
        SameNotices(SettleHandshake(s), BeginAttempt(s, isRecovery));
      } else {
        var torn := DisposeSocket(DisposeCandidate(bumped));
        SettlingPendingKeepsNotices(torn);
        SameNotices(SettleHandshake(torn), BeginAttempt(s, isRecovery));
      }
    }
  }

  lemma TimersKeepNotices(s: Stream, e: Event)
    requires NoticeInv(s) && Enabled(s, e)
    requires e in {RefreshFires, ReconnectFires, RecoveryFires, Start, Stop}
    ensures NoticeInv(Apply(s, e))
  {
    hide BeginAttempt, CloseSocket, Untimed, NoteDisconnect, IsConnected;
    if e == RefreshFires {
      ConnectKeepsNotices(s.(refreshTimer := None, reconnectTimer := None, connectReason := Refresh), false);
    } else if e == ReconnectFires {
      ConnectKeepsNotices(s.(reconnectTimer := None, connectReason := Refresh), false);
      ConnectKeepsNotices(s.(reconnectTimer := None), false);
    } else if e == RecoveryFires {
      ConnectKeepsNotices(s.(recoveryTimer := None, consecutiveFailures := 0, connectReason := Drop), true);
    } else if e == Start {
      ConnectKeepsNotices(ResetForStart(s), false);
    }
  }

  lemma StepKeepsNotices(s: Stream, e: Event)
    requires NoticeInv(s)
    ensures NoticeInv(Step(s, e))
  {
    if Enabled(s, e) {
      match e
      case TokenArrives(k, throws, random) => hide *; AnswersKeepNotices(s, e);
      case TokenFails(k, random) => hide *; AnswersKeepNotices(s, e);
      case HandshakeFires(i, random) => hide *; SocketEventsKeepNotices(s, e);
      case SocketOpens(i, random) => hide *; SocketEventsKeepNotices(s, e);
      case SocketCloses(i, random) => hide *; SocketEventsKeepNotices(s, e);
      case RefreshFires => hide *; TimersKeepNotices(s, e);
      case ReconnectFires => hide *; TimersKeepNotices(s, e);
      case RecoveryFires => hide *; TimersKeepNotices(s, e);
      case Start => hide *; TimersKeepNotices(s, e);
      case Stop => hide *; TimersKeepNotices(s, e);
      case _ => hide NoticesHold;
    }
  }

  // ---- Every run ----------------------------------------------------------

  lemma {:induction false} RunKeepsFailAndNotices(events: seq<Event>)
    ensures FailInv(Run(FRESH, events)) && NoticeInv(Run(FRESH, events))
  {
    if events != [] {
      hide Inv, FailInv, NoticeInv, Step;
      RunKeepsInv(events[..|events| - 1]);
      RunKeepsFailAndNotices(events[..|events| - 1]);
      StepKeepsFail(Run(FRESH, events[..|events| - 1]), events[|events| - 1]);
      StepKeepsNotices(Run(FRESH, events[..|events| - 1]), events[|events| - 1]);
    }
  }

  /**
   * At most one attempt more than the failure limit is made in a row before a full recovery wait,
   * refreshes over an open live socket apart.
   */
  lemma FailuresInARowAreBounded(events: seq<Event>)
    ensures Streak(Run(FRESH, events).marks) <= WEBSOCKET_MAX_FAILURES + 1
  {
    RunKeepsFailAndNotices(events);
  }

  /** Between starts the stream never announces the same thing twice in a row. */
  lemma AnnouncementsAlternate(events: seq<Event>, i: nat)
    requires i < |Run(FRESH, events).notices|
    ensures Run(FRESH, events).notices[i] == (if i % 2 == 0 then Unavailable else Recovered)
  {
    RunKeepsFailAndNotices(events);
  }

  /** It does not give up too soon: with a recovery armed, four attempts at the least have failed in a row. */
  lemma NeverGivesUpTooSoon(events: seq<Event>)
    ensures Run(FRESH, events).recoveryTimer.Some? ==> Streak(Run(FRESH, events).marks) >= 4
  {
    RunKeepsInv(events);
    RunKeepsFailAndNotices(events);
    hide Run, Streak, TimersOk, OwnersOk, NoWedge, Sane, AttemptsFine;
  }

  /**
   * What has been announced is how things stand: `onUnavailable` last while a recovery is awaited,
   * and nothing outstanding while a socket is up.
   */
  lemma AnnouncementsAreCurrent(events: seq<Event>)
    ensures var s := Run(FRESH, events);
            && (s.recoveryTimer.Some? ==> s.notices != [] && s.notices[|s.notices| - 1] == Unavailable)
            && (IsActive(s) && IsEstablished(s.sockets, s.socket) && !DropPending(s) ==>
                  s.notices == [] || s.notices[|s.notices| - 1] == Recovered)
  {
    RunKeepsInv(events);
    RunKeepsFailAndNotices(events);
    hide Run, Streak, TimersOk, OwnersOk, NoWedge, Sane, AttemptsFine, IsEstablished;
  }
}
