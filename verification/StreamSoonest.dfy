/** The soonest the stream gives up: a run that does so after four attempts in a row. */
module StreamSoonest {
  import opened Options
  import opened Settings
  import opened StreamSpec
  import opened StreamInvariant
  import opened StreamGiveUp
  import opened StreamRefresh
  import A = StreamAttempts
  import D = StreamDeadlines

  /** A refresh's candidate is lost while the live socket is closing, and then the live socket too. */
  const BOTH_LOST: seq<Event> :=
    ONCE_UP + [Elapse(210_000.0), RefreshFires, TokenArrives(1, false, 0.0)]
    + [SocketStartsClosing(0), SocketCloses(1, 0.0), SocketCloses(0, 0.0)]

  /** After both losses, the next attempts are each refused a token. */
  function Refused(n: nat): seq<Event> {
    if n == 0 then BOTH_LOST
    else Refused(n - 1) + [Elapse(100_000.0), ReconnectFires, TokenFails(n + 1, 0.0)]
  }

  /** Down, `n` attempts refused since the last open and two losses counted before them. */
  predicate IsDown(s: Stream, n: nat) {
    && IsActive(s) && s.consecutiveFailures == n + 2 && Streak(s.marks) == n && |s.attempts| == n + 2
    && s.recoveryTimer.None? && s.refreshTimer.None? && s.connectReason == Drop
    && s.reconnectTimer.Some? && !s.reconnectTimer.value.isRefreshRetry
    && s.reconnectTimer.value.due <= s.now + 100_000.0
  }

  predicate HasGivenUp(s: Stream, n: nat) {
    IsActive(s) && s.recoveryTimer.Some? && Streak(s.marks) == n
  }

  /** The retry has fired and its token is being fetched. */
  predicate IsAsking(s: Stream, n: nat) {
    && IsActive(s) && s.consecutiveFailures == n + 2 && Streak(s.marks) == n + 1 && |s.attempts| == n + 3
    && s.recoveryTimer.None? && s.refreshTimer.None? && s.reconnectTimer.None?
    && s.attempts[n + 2].isPending && !s.attempts[n + 2].shouldDeferDispose
    && s.attempts[n + 2].generationBeforeFetch + 1 == s.connectGeneration
  }

  lemma TearingDownKeepsCounts(s: Stream)
    ensures var t := SettleHandshake(DisposeSocket(DisposeCandidate(s)));
            t == s.(candidate := None, socket := None, sockets := t.sockets, disconnectedAt := t.disconnectedAt,
                    handshakeSettle := t.handshakeSettle)
  {
    hide CloseSocket, Untimed, NoteDisconnect, IsConnected;
  }

  lemma RetryIsAsked(s: Stream, n: nat)
    requires IsDown(s, n)
    ensures IsAsking(Step(Step(s, Elapse(100_000.0)), ReconnectFires), n)
  {
    hide Streak, DisposeSocket, DisposeCandidate, SettleHandshake, IsConnected;
    var due := Step(s, Elapse(100_000.0));
    AskingExtendsStreak(s.marks, due.now, false, false);
    TearingDownKeepsCounts(due.(reconnectTimer := None, connectGeneration := s.connectGeneration + 1));
  }

  lemma RetryIsRefused(s: Stream, n: nat)
    requires IsAsking(s, n) && n <= 3
    ensures var t := Step(s, TokenFails(n + 2, 0.0));
            if n < 3 then IsDown(t, n + 1) else HasGivenUp(t, 4)
  {
    hide Streak, IsConnected, ScheduleReconnect;
    CountingOneMore(FetchSettled(s, n + 2).(isConnecting := false), n);
  }

  lemma NextIsRefused(s: Stream, n: nat)
    requires IsDown(s, n) && n <= 3
    ensures var t := Step(Step(Step(s, Elapse(100_000.0)), ReconnectFires), TokenFails(n + 2, 0.0));
            if n < 3 then IsDown(t, n + 1) else HasGivenUp(t, 4)
  {
    hide Step, IsDown, IsAsking, HasGivenUp;
    RetryIsAsked(s, n);
    RetryIsRefused(Step(Step(s, Elapse(100_000.0)), ReconnectFires), n);
  }

  lemma CountingOneMore(s: Stream, n: nat)
    requires IsActive(s) && s.consecutiveFailures == n + 2 && n <= 3 && s.reconnectTimer.None? && s.recoveryTimer.None?
    ensures var t := ScheduleReconnect(s, 0.0);
            && t.marks == s.marks && t.attempts == s.attempts && t.now == s.now && t.refreshTimer == s.refreshTimer
            && IsActive(t) && t.consecutiveFailures == n + 3
            && (n < 3 ==> t.recoveryTimer.None? && t.connectReason == Drop && t.reconnectTimer.Some?
                          && !t.reconnectTimer.value.isRefreshRetry && t.reconnectTimer.value.due <= t.now + 100_000.0)
            && (n == 3 ==> t.recoveryTimer.Some?)
  {
    hide ReconnectDelay, GiveUp;
    GivingUpLeaves(s.(consecutiveFailures := n + 3));
    D.LossIsRetriedByTheTable(s, 0.0);
    D.TableIsUnderTheCap(n + 3);
  }

  /** Up on the first socket, with nothing lost. */
  predicate IsUp(s: Stream) {
    && IsActive(s) && s.socket == Some(0) && |s.sockets| == 1 && s.sockets[0].ready == Open && s.sockets[0].listening
    && s.candidate.None? && NoDrop(s) && s.handshakeSettle.None? && Streak(s.marks) == 0
  }

  lemma RefreshIsAsked(s: Stream)
    requires IsUp(s) && s.now == 0.0 && s.refreshTimer == Some(210_000.0) && |s.attempts| == 1
    ensures var t := Step(Step(s, Elapse(210_000.0)), RefreshFires);
            && IsUp(t) && t.refreshTimer.None? && |t.attempts| == 2
            && t.attempts[1] == Attempt(true, t.connectGeneration, true)
  {
    AskingExtendsStreak(s.marks, 210_000.0, true, false);
    hide Streak;
  }

  lemma CandidateIsOpening(s: Stream)
    requires IsUp(s) && s.refreshTimer.None? && |s.attempts| == 2
    requires s.attempts[1] == Attempt(true, s.connectGeneration, true)
    ensures IsReplacing(Step(s, TokenArrives(1, false, 0.0)))
  {
    hide Streak;
  }

  /** The live socket is up, and the one that is to replace it is opening. */
  predicate IsReplacing(s: Stream) {
    && IsActive(s) && s.socket == Some(0) && s.candidate == Some(1) && |s.sockets| == 2
    && s.sockets[0].ready == Open && s.sockets[0].listening
    && s.sockets[1].ready == Connecting && s.sockets[1].listening && s.sockets[1].isRefreshCandidate
    && NoDrop(s) && |s.attempts| == 2 && Streak(s.marks) == 0 && s.refreshTimer.None?
  }

  predicate NoDrop(s: Stream) {
    s.consecutiveFailures == 0 && s.reconnectTimer.None? && s.recoveryTimer.None?
  }

  /** The candidate is lost and one failure counted; the live socket is closing still. */
  predicate IsLosingTheOther(s: Stream) {
    && IsActive(s) && s.socket == Some(0) && s.candidate.None? && |s.sockets| == 2
    && s.sockets[0].ready == Closing && s.sockets[0].listening
    && s.consecutiveFailures == 1 && s.recoveryTimer.None?
    && |s.attempts| == 2 && Streak(s.marks) == 0
  }

  lemma CandidateIsLost(s: Stream)
    requires IsReplacing(s)
    ensures IsLosingTheOther(Step(Step(s, SocketStartsClosing(0)), SocketCloses(1, 0.0)))
  {
    hide Streak, ScheduleReconnect, NoteDisconnect;
    var closing := Step(s, SocketStartsClosing(0));
    var alone := closing.(sockets := SetReady(closing.sockets, 1, Closed), candidate := None, isConnecting := false);
    ScheduledOnce(Dropped(alone));
    assert Step(closing, SocketCloses(1, 0.0)) == Settle(ScheduleReconnect(Dropped(alone), 0.0), 1);
  }

  lemma OtherIsLost(s: Stream)
    requires IsLosingTheOther(s)
    ensures IsDown(Step(s, SocketCloses(0, 0.0)), 0)
  {
    hide Streak, ScheduleReconnect, NoteDisconnect;
    var bare := DisposeCandidate(s.(sockets := SetReady(s.sockets, 0, Closed)));
    ScheduledOnce(Dropped(bare));
    D.LossIsRetriedByTheTable(Dropped(bare), 0.0);
  }

  lemma BothAreLost(s: Stream)
    requires IsReplacing(s)
    ensures IsDown(Step(Step(Step(s, SocketStartsClosing(0)), SocketCloses(1, 0.0)), SocketCloses(0, 0.0)), 0)
  {
    hide Step, IsReplacing, IsDown, IsLosingTheOther;
    CandidateIsLost(s);
    OtherIsLost(Step(Step(s, SocketStartsClosing(0)), SocketCloses(1, 0.0)));
  }

  lemma ScheduledOnce(s: Stream)
    requires IsActive(s) && s.consecutiveFailures <= 1 && s.reconnectTimer.None? && s.recoveryTimer.None?
    ensures var t := ScheduleReconnect(s, 0.0);
            t == s.(consecutiveFailures := s.consecutiveFailures + 1, connectReason := Drop, reconnectTimer := t.reconnectTimer)
  {
    hide ReconnectDelay;
  }

  lemma {:induction false} RefusedLeavesDown(n: nat)
    requires n <= 3
    ensures IsDown(Run(FRESH, Refused(n)), n)
  {
    hide Run, Step, IsDown, IsUp, IsReplacing;
    if n == 0 {
      OnceUpIsQuiet();
      A.RunThree(ONCE_UP, Elapse(210_000.0), RefreshFires, TokenArrives(1, false, 0.0));
      RefreshIsAsked(Run(FRESH, ONCE_UP));
      CandidateIsOpening(Step(Step(Run(FRESH, ONCE_UP), Elapse(210_000.0)), RefreshFires));
      A.RunThree(ONCE_UP + [Elapse(210_000.0), RefreshFires, TokenArrives(1, false, 0.0)],
                 SocketStartsClosing(0), SocketCloses(1, 0.0), SocketCloses(0, 0.0));
      BothAreLost(Run(FRESH, ONCE_UP + [Elapse(210_000.0), RefreshFires, TokenArrives(1, false, 0.0)]));
    } else {
      RefusedLeavesDown(n - 1);
      NextIsRefused(Run(FRESH, Refused(n - 1)), n - 1);
      A.RunThree(Refused(n - 1), Elapse(100_000.0), ReconnectFires, TokenFails(n + 1, 0.0));
    }
  }

  /** The first attempt's socket is opening. */
  predicate IsOpening(s: Stream) {
    && IsActive(s) && s.socket == Some(0) && s.candidate.None? && |s.sockets| == 1
    && s.sockets[0] == Socket(Connecting, true, false, s.connectGeneration, Some(15_000.0))
    && s.now == 0.0 && s.handshakeSettle == Some(0) && |s.attempts| == 1 && NoDrop(s)
  }

  lemma FirstSocketIsOpening()
    ensures IsOpening(Step(Step(FRESH, Start), TokenArrives(0, false, 0.0)))
  {
    var asked := Step(FRESH, Start);
    assert asked.attempts == [Attempt(false, 0, true)] && asked.connectGeneration == 1 && asked.sockets == [];
    assert !asked.isStopped && asked.socket.None? && asked.candidate.None? && NoDrop(asked) && asked.now == 0.0;
  }

  lemma FirstSocketOpens(s: Stream)
    requires IsOpening(s)
    ensures var t := Step(s, SocketOpens(0, 0.0));
            IsUp(t) && t.now == 0.0 && t.refreshTimer == Some(210_000.0) && |t.attempts| == 1
  {
    AskingExtendsStreak(s.marks, 0.0, false, false);
    hide Streak;
  }

  lemma OnceUpIsQuiet()
    ensures var s := Run(FRESH, ONCE_UP);
            IsUp(s) && s.now == 0.0 && s.refreshTimer == Some(210_000.0) && |s.attempts| == 1
  {
    A.OnceUpRuns();
    hide Run, Step, IsOpening, IsUp;
    FirstSocketIsOpening();
    FirstSocketOpens(Step(Step(FRESH, Start), TokenArrives(0, false, 0.0)));
  }

  /** Four attempts are enough when the two sockets of a refresh were lost one after the other. */
  lemma GivesUpAfterFour()
    ensures var s := Run(FRESH, Refused(4));
            s.recoveryTimer.Some? && Streak(s.marks) == 4
  {
    RefusedLeavesDown(3);
    NextIsRefused(Run(FRESH, Refused(3)), 3);
    A.RunThree(Refused(3), Elapse(100_000.0), ReconnectFires, TokenFails(5, 0.0));
    hide Run, Step, IsDown;
  }
}
