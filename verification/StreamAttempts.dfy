/**
 * Every attempt counted, those that a live socket makes harmless too: how many may fail in a row,
 * and why only the others are bounded.
 */
module StreamAttempts {
  import opened Options
  import opened Settings
  import opened StreamSpec
  import opened StreamInvariant
  import opened StreamGiveUp
  import opened StreamRefresh

  /** Attempts in a row that did not open, whatever they were for, since the last open, start or recovery wait. */
  function AttemptsInARow(marks: seq<Mark>): nat {
    if marks == [] then 0 else
    match marks[|marks| - 1]
    case Opened => 0
    case Asked(_, _, isRecovery) => if isRecovery then 1 else AttemptsInARow(marks[..|marks| - 1]) + 1
  }

  /** Those of them that were refreshes asked for over an open live socket. */
  function RefreshesInARow(marks: seq<Mark>): nat {
    if marks == [] then 0 else
    match marks[|marks| - 1]
    case Opened => 0
    case Asked(_, isDeferred, isRecovery) =>
      if isRecovery then 0 else RefreshesInARow(marks[..|marks| - 1]) + (if isDeferred then 1 else 0)
  }

  lemma {:induction false} AttemptsAddUp(marks: seq<Mark>)
    ensures AttemptsInARow(marks) == Streak(marks) + RefreshesInARow(marks)
  {
    if marks != [] {
      AttemptsAddUp(marks[..|marks| - 1]);
    }
  }

  lemma StartAsksFresh(s: Stream)
    ensures Apply(s, Start).marks == [Asked(s.now, false, false)]
  {
    hide DisposeSocket, DisposeCandidate, SettleHandshake;
    var reset := ResetForStart(s);
    TearingDownAsksNothing(reset.(connectGeneration := s.connectGeneration + 1));
  }

  lemma RecoveryAsksFresh(s: Stream)
    requires Enabled(s, RecoveryFires)
    ensures var marks := Apply(s, RecoveryFires).marks; marks == s.marks || marks == s.marks + [Asked(s.now, false, true)]
  {
    hide DisposeSocket, DisposeCandidate, SettleHandshake;
    var reset := s.(recoveryTimer := None, consecutiveFailures := 0, connectReason := Drop);
    TearingDownAsksNothing(reset.(connectGeneration := s.connectGeneration + 1));
  }

  lemma KeepingMarks(s: Stream)
    ensures DisposeSocket(s).marks == s.marks && DisposeSocket(s).now == s.now
    ensures DisposeCandidate(s).marks == s.marks && DisposeCandidate(s).now == s.now
  {
    hide CloseSocket, NoteDisconnect, IsConnected;
  }

  lemma TearingDownAsksNothing(s: Stream)
    ensures var t := SettleHandshake(DisposeSocket(DisposeCandidate(s))); t.marks == s.marks && t.now == s.now
  {
    hide Untimed;
    KeepingMarks(s);
    KeepingMarks(DisposeCandidate(s));
    hide DisposeSocket, DisposeCandidate;
    SettlingAsksNothing(DisposeSocket(DisposeCandidate(s)));
  }

  lemma ConnectAsks(s: Stream)
    ensures var marks := Connect(s, false).marks;
            marks == s.marks || marks == s.marks + [Asked(s.now, s.connectReason == Refresh && IsConnected(s), false)]
  {
    hide DisposeSocket, DisposeCandidate, SettleHandshake, IsConnected;
    TearingDownAsksNothing(s.(connectGeneration := s.connectGeneration + 1));
    SettlingAsksNothing(s);
  }

  lemma SettlingAsksNothing(s: Stream)
    ensures SettleHandshake(s).marks == s.marks && SettleHandshake(s).now == s.now
  {
    hide Untimed;
  }

  lemma TimersAskConnected(s: Stream, e: Event)
    requires Enabled(s, e) && (e == RefreshFires || e == ReconnectFires)
    ensures var marks := Apply(s, e).marks;
            || marks == s.marks || marks == s.marks + [Asked(s.now, false, false)]
            || (IsConnected(s) && marks == s.marks + [Asked(s.now, true, false)])
  {
    hide Connect;
    ConnectAsks(s.(refreshTimer := None, reconnectTimer := None, connectReason := Refresh));
    ConnectAsks(s.(reconnectTimer := None, connectReason := Refresh));
    ConnectAsks(s.(reconnectTimer := None));
  }

  lemma OthersAskNothing(s: Stream, e: Event)
    requires Enabled(s, e) && (e.Stop? || e.Elapse? || e.SocketStartsClosing? || e.SocketFails? || e.FrameArrives?)
    ensures Apply(s, e).marks == s.marks
  {
    hide Untimed, CloseSocket, NoteDisconnect, SetReady, IsConnected;
  }

  lemma AnswersAskNothing(s: Stream, e: Event)
    requires Enabled(s, e) && (e.TokenArrives? || e.TokenFails?)
    ensures Apply(s, e).marks == s.marks
  {
    hide OpenSocket, HandleConnectFailure, IsConnected;
    var a, answered := s.attempts[e.k], FetchSettled(s, e.k);
    FailingAsksNothing(answered, a, e.random);
    OpeningAsksNothing(answered, a, e.TokenArrives? && e.constructorThrows, e.random);
  }

  lemma HandshakeAsksNothing(s: Stream, i: nat, random: Draw)
    requires Enabled(s, HandshakeFires(i, random))
    ensures Apply(s, HandshakeFires(i, random)).marks == s.marks
  {
    hide OnHandshakeTimeout;
    TimingOutAsksNothing(s, i, random);
  }

  /** A request is marked deferred only if it is made while the live socket is open. */
  lemma DeferredMeansConnected(s: Stream, e: Event, at: real, isRecovery: bool)
    requires Step(s, e).marks == s.marks + [Asked(at, true, isRecovery)]
    ensures IsConnected(s) && (e == RefreshFires || e == ReconnectFires)
  {
    hide Apply;
    assert Step(s, e).marks[|s.marks|] == Asked(at, true, isRecovery);
    if Enabled(s, e) {
      match e
      case TokenArrives(_, _, _) => AnswersAskNothing(s, e);
      case TokenFails(_, _) => AnswersAskNothing(s, e);
      case HandshakeFires(i, random) => HandshakeAsksNothing(s, i, random);
      case SocketOpens(i, random) => OpenedAsksNothing(s, i, random);
      case SocketCloses(i, random) => ClosedAsksNothing(s, i, random);
      case Start => StartAsksFresh(s);
      case RecoveryFires => RecoveryAsksFresh(s);
      case RefreshFires => TimersAskConnected(s, e);
      case ReconnectFires => TimersAskConnected(s, e);
      case _ => OthersAskNothing(s, e);
    }
  }

  lemma SchedulingAsksNothing(s: Stream, random: Draw)
    ensures ScheduleReconnect(s, random).marks == s.marks && ScheduleRefreshRetry(s).marks == s.marks
  {
    hide ReconnectDelay, GiveUp;
    GivingUpLeaves(s.(consecutiveFailures := s.consecutiveFailures + 1));
  }

  lemma FailingAsksNothing(s: Stream, a: Attempt, random: Draw)
    ensures HandleConnectFailure(s, a, random).marks == s.marks
  {
    hide ScheduleReconnect, ScheduleRefreshRetry;
    SchedulingAsksNothing(s.(isConnecting := false), random);
  }

  lemma OpeningAsksNothing(s: Stream, a: Attempt, throws: bool, random: Draw)
    ensures OpenSocket(s, a, throws, random).marks == s.marks
  {
    hide HandleConnectFailure, CloseSocket, NoteDisconnect, IsConnected;
    FailingAsksNothing(DisposeCandidate(s.(connectGeneration := s.connectGeneration + 1)), a, random);
    FailingAsksNothing(DisposeSocket(DisposeCandidate(s)), a, random);
  }

  lemma TimingOutAsksNothing(s: Stream, i: nat, random: Draw)
    requires i < |s.sockets|
    ensures OnHandshakeTimeout(s, i, random).marks == s.marks
  {
    hide ScheduleReconnect, ScheduleRefreshRetry, DisposeCandidate, DisposeSocket, Untimed, IsConnected;
    var idle := s.(isConnecting := false);
    KeepingMarks(idle);
    KeepingMarks(DisposeCandidate(idle));
    SchedulingAsksNothing(Settle(DisposeCandidate(idle), i), random);
    SchedulingAsksNothing(Settle(DisposeSocket(DisposeCandidate(idle)), i), random);
  }

  lemma OpeningMarksOne(s: Stream, random: Draw)
    ensures HandleOpen(s, random).marks == s.marks + [Opened]
  {
  }

  lemma OpenedAsksNothing(s: Stream, i: nat, random: Draw)
    requires Enabled(s, SocketOpens(i, random))
    ensures var marks := Apply(s, SocketOpens(i, random)).marks; marks == s.marks || marks == s.marks + [Opened]
  {
    hide HandleOpen, CloseSocket, Untimed;
    var up := s.(sockets := SetReady(s.sockets, i, Open));
    if s.sockets[i].listening && i < |up.sockets| {
      OpeningMarksOne(up, random);
      OpeningMarksOne(up.(candidate := None, socket := Some(i), sockets := CloseSocket(up.sockets, up.socket)), random);
    }
  }

  lemma DroppingAsksNothing(s: Stream, random: Draw)
    ensures ScheduleReconnect(Dropped(s), random).marks == s.marks && ScheduleRefreshRetry(s).marks == s.marks
  {
    hide ScheduleReconnect, ScheduleRefreshRetry, NoteDisconnect;
    SchedulingAsksNothing(s, random);
    SchedulingAsksNothing(Dropped(s), random);
  }

  lemma LosingCandidateAsksNothing(s: Stream)
    ensures DisposeCandidate(s).marks == s.marks
  {
    hide CloseSocket;
  }

  lemma ClosedAsksNothing(s: Stream, i: nat, random: Draw)
    requires Enabled(s, SocketCloses(i, random))
    ensures Apply(s, SocketCloses(i, random)).marks == s.marks
  {
    hide ScheduleReconnect, ScheduleRefreshRetry, Untimed, Dropped, DisposeCandidate, IsConnected, SetReady;
    var closed := s.(sockets := SetReady(s.sockets, i, Closed));
    DroppingAsksNothing(closed.(candidate := None, isConnecting := false), random);
    DroppingAsksNothing(DisposeCandidate(closed), random);
    LosingCandidateAsksNothing(closed);
  }

  /**
   * Over every run: the failure limit plus one bounds the attempts in a row once the refreshes made
   * over an open socket are left out, and bounds them all if and only if few enough were such.
   */
  lemma AttemptsAreBoundedExactlyWhen(events: seq<Event>)
    ensures var marks := Run(FRESH, events).marks;
            && AttemptsInARow(marks) - RefreshesInARow(marks) <= WEBSOCKET_MAX_FAILURES + 1
            && (AttemptsInARow(marks) <= WEBSOCKET_MAX_FAILURES + 1
                <==> RefreshesInARow(marks) <= WEBSOCKET_MAX_FAILURES + 1 - Streak(marks))
  {
    AttemptsAddUp(Run(FRESH, events).marks);
    FailuresInARowAreBounded(events);
    hide Run, Streak, AttemptsInARow, RefreshesInARow;
  }

  // ---- A refresh that is refused for as long as one likes -------------------

  const RETRY_MS: real := WEBSOCKET_RECONNECT_BASE_MS as real

  /** The first connection opens and its refresh is refused; then, `n` times more, so is the retry. */
  function RefusedRefreshes(n: nat): seq<Event> {
    if n == 0 then ONCE_UP + [Elapse(210_000.0), RefreshFires, TokenFails(1, 0.0)]
    else RefusedRefreshes(n - 1) + [Elapse(RETRY_MS), ReconnectFires, TokenFails(n + 1, 0.0)]
  }

  /** The live socket is up, its refresh has been refused `n + 1` times, and the next try is armed. */
  predicate HasBeenRefused(s: Stream, n: nat) {
    && IsActive(s) && s.socket == Some(0) && |s.sockets| == 1 && s.sockets[0].ready == Open
    && s.candidate.None? && s.refreshTimer.None? && s.recoveryTimer.None? && s.handshakeSettle.None?
    && s.reconnectTimer == Some(ReconnectTimer(s.now + RETRY_MS, true))
    && |s.attempts| == n + 2 && AttemptsInARow(s.marks) == n + 1
  }

  lemma OneMoreAttempt(marks: seq<Mark>, at: real, isDeferred: bool)
    ensures AttemptsInARow(marks + [Asked(at, isDeferred, false)]) == AttemptsInARow(marks) + 1
  {
    assert (marks + [Asked(at, isDeferred, false)])[..|marks|] == marks;
  }

  /** A refresh is asked for and its token refused. */
  lemma RefusingARefresh(s: Stream, n: nat)
    requires IsActive(s) && s.socket == Some(0) && |s.sockets| == 1 && s.sockets[0].ready == Open
    requires s.candidate.None? && s.refreshTimer.None? && s.recoveryTimer.None? && s.reconnectTimer.None?
    requires s.handshakeSettle.None? && |s.attempts| == n + 1 && AttemptsInARow(s.marks) == n
    ensures HasBeenRefused(Step(Reconnect(s, Refresh), TokenFails(n + 1, 0.0)), n)
  {
    hide AttemptsInARow, ScheduleReconnect;
    OneMoreAttempt(s.marks, s.now, true);
    var asked := Reconnect(s, Refresh);
    assert asked.attempts == s.attempts + [Attempt(true, s.connectGeneration, true)];
    assert asked.sockets == s.sockets && asked.connectGeneration == s.connectGeneration;
  }

  lemma RetryIsRefused(s: Stream, n: nat)
    requires HasBeenRefused(s, n)
    ensures HasBeenRefused(Step(Step(Step(s, Elapse(RETRY_MS)), ReconnectFires), TokenFails(n + 2, 0.0)), n + 1)
  {
    hide AttemptsInARow, Connect;
    var due := Step(s, Elapse(RETRY_MS));
    RefusingARefresh(due.(reconnectTimer := None), n + 1);
  }

  lemma RunAppend(events: seq<Event>, e: Event)
    ensures Run(FRESH, events + [e]) == Step(Run(FRESH, events), e)
  {
    assert (events + [e])[..|events|] == events;
  }

  lemma RunThree(events: seq<Event>, a: Event, b: Event, c: Event)
    ensures Run(FRESH, events + [a, b, c]) == Step(Step(Step(Run(FRESH, events), a), b), c)
  {
    hide Step, Run;
    RunAppend(events, a);
    RunAppend(events + [a], b);
    RunAppend(events + [a] + [b], c);
    assert events + [a] + [b] + [c] == events + [a, b, c];
  }

  lemma OnceUpRuns()
    ensures Run(FRESH, ONCE_UP) == Step(Step(Step(FRESH, Start), TokenArrives(0, false, 0.0)), SocketOpens(0, 0.0))
  {
    RunThree([], Start, TokenArrives(0, false, 0.0), SocketOpens(0, 0.0));
    assert [] + ONCE_UP == ONCE_UP;
  }

  /** For every `n` there is a run in which that many attempts and one fail in a row, the socket up throughout. */
  lemma {:induction false} AnyNumberOfRefreshesMayFail(n: nat)
    ensures HasBeenRefused(Run(FRESH, RefusedRefreshes(n)), n)
    ensures AttemptsInARow(Run(FRESH, RefusedRefreshes(n)).marks) == n + 1
  {
    hide Run, Step, HasBeenRefused;
    if n == 0 {
      FirstRefreshIsRefused();
    } else {
      AnyNumberOfRefreshesMayFail(n - 1);
      RetryIsRefused(Run(FRESH, RefusedRefreshes(n - 1)), n - 1);
      RunThree(RefusedRefreshes(n - 1), Elapse(RETRY_MS), ReconnectFires, TokenFails(n + 1, 0.0));
    }
    RefusedMeansAttempts(Run(FRESH, RefusedRefreshes(n)), n);
  }

  lemma RefusedMeansAttempts(s: Stream, n: nat)
    requires HasBeenRefused(s, n)
    ensures AttemptsInARow(s.marks) == n + 1
  {
  }

  lemma FirstRefreshIsRefused()
    ensures HasBeenRefused(Run(FRESH, RefusedRefreshes(0)), 0)
  {
    hide Run, AttemptsInARow;
    OnceUpRuns();
    FirstConnectionOpens();
    RunThree(ONCE_UP, Elapse(210_000.0), RefreshFires, TokenFails(1, 0.0));
    var s := Run(FRESH, ONCE_UP);
    NoAttemptsOnceUp();
    var due := Step(s, Elapse(210_000.0));
    hide HandleConnectFailure, BeginAttempt;
    RefusingARefresh(due.(refreshTimer := None), 0);
  }

  lemma NoAttemptsOnceUp()
    ensures AttemptsInARow(Run(FRESH, ONCE_UP).marks) == 0
  {
    hide Run;
    OnceUpRuns();
    FirstMarks();
  }

  lemma FirstMarks()
    ensures var s := Step(Step(Step(FRESH, Start), TokenArrives(0, false, 0.0)), SocketOpens(0, 0.0));
            AttemptsInARow(s.marks) == 0
  {
    var asked := Step(FRESH, Start);
    assert asked.attempts == [Attempt(false, 0, true)] && asked.connectGeneration == 1 && asked.sockets == [];
    var opening := Step(asked, TokenArrives(0, false, 0.0));
    assert |opening.sockets| == 1 && opening.socket == Some(0) && opening.sockets[0].ready == Connecting;
    assert Step(opening, SocketOpens(0, 0.0)).marks == opening.marks + [Opened];
  }
}
