/** Whether an open live socket always has its replacement on the way, and the one step that forgets it. */
module StreamRefresh {
  import opened Options
  import opened Settings
  import opened StreamSpec
  import opened StreamInvariant

  /** A refresh is scheduled, to be retried, waiting for its token or shaking hands. */
  predicate RefreshPending(s: Stream) {
    s.refreshTimer.Some? || HasRefreshRetry(s) || s.candidate.Some? || !Unowned(s)
  }

  predicate RefreshInv(s: Stream) {
    IsActive(s) && IsConnected(s) ==> RefreshPending(s)
  }

  /**
   * The step that breaks it: a refresh's token arrives and constructing the candidate throws. The
   * generation was bumped just before, so the failure looks like that of a superseded attempt.
   */
  predicate ForgetsRefresh(s: Stream, e: Event) {
    && Enabled(s, e) && e.TokenArrives? && e.constructorThrows
    && s.attempts[e.k].shouldDeferDispose
    && StillOwns(FetchSettled(s, e.k), s.attempts[e.k])
  }

  lemma ConnectingLeavesPending(s: Stream, isRecovery: bool)
    requires AttemptsFine(s) && !s.isStopped
    requires s.connectReason == Refresh && IsConnected(s) ==> Unowned(s)
    ensures RefreshInv(Connect(s, isRecovery))
  {
    hide AttemptsOk, NobodyOwns, OnlyRefreshOwns, CloseSocket, Untimed, NoteDisconnect;
    if s.connectReason == Refresh && IsConnected(s) {
      AppendOwner(s.attempts, Attempt(true, s.connectGeneration, true), s.connectGeneration);
    }
  }

  lemma TimersLeavePending(s: Stream, e: Event)
    requires Inv(s) && RefreshInv(s) && Enabled(s, e) && e in {Start, RefreshFires, ReconnectFires, RecoveryFires}
    ensures RefreshInv(Apply(s, e))
  {
    hide BeginAttempt, Sane, LiveOk, CandidateOk, NoWedge, OwnersOk;
    match e
    case Start => ConnectingLeavesPending(ResetForStart(s), false);
    case RefreshFires =>
      ConnectingLeavesPending(s.(refreshTimer := None, reconnectTimer := None, connectReason := Refresh), false);
    case ReconnectFires =>
      if s.reconnectTimer.value.isRefreshRetry {
        ConnectingLeavesPending(s.(reconnectTimer := None, connectReason := Refresh), false);
      } else {
        ConnectingLeavesPending(s.(reconnectTimer := None), false);
      }
    case RecoveryFires =>
      ConnectingLeavesPending(s.(recoveryTimer := None, consecutiveFailures := 0, connectReason := Drop), true);
  }

  lemma OwnedHasNoRecovery(s: Stream, k: nat)
    requires Inv(s) && IsConnected(s) && k < |s.attempts| && s.attempts[k].isPending && !IsSuperseded(s, s.attempts[k])
    ensures s.attempts[k].shouldDeferDispose && s.recoveryTimer.None? && NoTimers(s) && s.candidate.None?
  {
    OwnerIsUnique(s.attempts, k, s.connectGeneration);
    hide SocketsSane, AttemptsOk, NobodyOwns, OnlyRefreshOwns, LiveOk, CandidateOk;
  }

  lemma TokensLeavePendingExactlyWhen(s: Stream, e: Event)
    requires Inv(s) && RefreshInv(s) && Enabled(s, e) && (e.TokenArrives? || e.TokenFails?)
    ensures RefreshInv(Apply(s, e)) <==> !ForgetsRefresh(s, e)
  {
    var a, answered := s.attempts[e.k], FetchSettled(s, e.k);
    FetchSettledEffect(s.attempts, e.k, s.connectGeneration);
    if IsSuperseded(s, a) {
      hide Inv, AttemptsOk, NobodyOwns;
    } else {
      OwnersFetchIsAnswered(s, e.k);
      if IsConnected(s) {
        OwnedHasNoRecovery(s, e.k);
        ConnectedOwner(s, e);
      } else {
        UnconnectedOwner(s, e);
      }
    }
  }

  lemma ConnectedOwner(s: Stream, e: Event)
    requires Enabled(s, e) && (e.TokenArrives? || e.TokenFails?) && IsActive(s) && IsConnected(s)
    requires s.attempts[e.k].shouldDeferDispose && !IsSuperseded(s, s.attempts[e.k])
    requires IsAnswered(FetchSettled(s, e.k), true) && NoTimers(s) && s.candidate.None?
    ensures RefreshInv(Apply(s, e)) <==> !ForgetsRefresh(s, e)
  {
    hide SocketsSane, OnlyRefreshOwns, ScheduleReconnect, LiveOk;
    var answered := FetchSettled(s, e.k);
    BumpSupersedesAll(answered.attempts, s.connectGeneration);
    hide AttemptsOk, NobodyOwns;
  }

  lemma UnconnectedOwner(s: Stream, e: Event)
    requires Enabled(s, e) && (e.TokenArrives? || e.TokenFails?) && !IsConnected(s)
    requires !IsSuperseded(s, s.attempts[e.k]) && IsAnswered(FetchSettled(s, e.k), s.attempts[e.k].shouldDeferDispose)
    ensures RefreshInv(Apply(s, e)) && !ForgetsRefresh(s, e)
  {
    hide SocketsSane, AttemptsOk, NobodyOwns, OnlyRefreshOwns, ScheduleReconnect, ScheduleRefreshRetry, LiveOk;
  }

  /** Only the socket's openness, the candidate, two timers and the fetches matter. */
  lemma SamePending(s: Stream, t: Stream)
    requires RefreshInv(s) && (IsActive(t) && IsConnected(t) ==> IsActive(s) && IsConnected(s))
    requires t.refreshTimer == s.refreshTimer && t.reconnectTimer == s.reconnectTimer && t.candidate == s.candidate
    requires t.attempts == s.attempts && t.connectGeneration == s.connectGeneration
    ensures RefreshInv(t)
  {
    hide NobodyOwns;
  }

  lemma HandshakeTimeoutLeavesPending(s: Stream, i: nat, random: Draw)
    requires Inv(s) && RefreshInv(s) && Enabled(s, HandshakeFires(i, random))
    ensures RefreshInv(OnHandshakeTimeout(s, i, random))
  {
    hide RefreshInv, SocketsSane, AttemptsOk, OnlyRefreshOwns, ScheduleReconnect, NoWedge, OwnersOk, NoteDisconnect, LiveOk;
    var idle := s.(isConnecting := false);
    if s.sockets[i].generation != s.connectGeneration {
      SamePending(s, Settle(s, i));
    } else if s.candidate == Some(i) && IsConnected(s) {
      RetryIsPending(Settle(DisposeCandidate(idle), i));
    } else if s.socket != Some(i) && s.candidate != Some(i) {
      SamePending(s, Settle(idle, i));
    } else {
      NothingLivePending(OnHandshakeTimeout(s, i, random));
    }
  }

  lemma RetryIsPending(s: Stream)
    requires s.reconnectTimer.None? && !s.isStopped
    ensures RefreshInv(ScheduleRefreshRetry(s))
  {
  }

  lemma NothingLivePending(s: Stream)
    requires s.socket.None?
    ensures RefreshInv(s)
  {
  }

  lemma OpeningLeavesPending(s: Stream, i: nat, random: Draw)
    requires Inv(s) && RefreshInv(s) && Enabled(s, SocketOpens(i, random))
    ensures RefreshInv(Apply(s, SocketOpens(i, random)))
  {
    assert SocketOk(s.sockets[i], i, s.socket, s.candidate, s.connectGeneration);
    hide SocketsSane, AttemptsOk, NobodyOwns, OnlyRefreshOwns, NoWedge, OwnersOk, RefreshDelay, TimersOk, IsConnected;
  }

  lemma ClosingLeavesPending(s: Stream, i: nat, random: Draw)
    requires Inv(s) && RefreshInv(s) && Enabled(s, SocketCloses(i, random))
    ensures RefreshInv(Apply(s, SocketCloses(i, random)))
  {
    assert SocketOk(s.sockets[i], i, s.socket, s.candidate, s.connectGeneration);
    hide RefreshInv, SocketsSane, AttemptsOk, NobodyOwns, OnlyRefreshOwns, ScheduleReconnect, NoWedge, OwnersOk, NoteDisconnect, LiveOk;
    var closed := s.(sockets := SetReady(s.sockets, i, Closed));
    var t := Apply(s, SocketCloses(i, random));
    if s.candidate == Some(i) {
      var gone := closed.(candidate := None, isConnecting := false);
      if IsConnected(gone) && !s.isStopped {
        RetryIsPending(gone);
        SamePending(ScheduleRefreshRetry(gone), Settle(ScheduleRefreshRetry(gone), i));
      } else {
        UnconnectedPending(t);
      }
    } else if s.socket == Some(i) {
      UnconnectedPending(t);
    } else {
      SamePending(s, closed);
    }
  }

  lemma UnconnectedPending(s: Stream)
    requires !IsActive(s) || !IsConnected(s)
    ensures RefreshInv(s)
  {
  }

  lemma SocketsLeavePending(s: Stream, e: Event)
    requires Inv(s) && RefreshInv(s) && Enabled(s, e)
    requires e.HandshakeFires? || e.SocketOpens? || e.SocketCloses?
    ensures RefreshInv(Apply(s, e))
  {
    hide Inv, RefreshInv, OnHandshakeTimeout, OnHandshakeOpen, OnHandshakeClose;
    match e
    case HandshakeFires(i, random) => HandshakeTimeoutLeavesPending(s, i, random);
    case SocketOpens(i, random) => OpeningLeavesPending(s, i, random);
    case SocketCloses(i, random) => ClosingLeavesPending(s, i, random);
  }

  /** An open live socket keeps its refresh pending through a step if and only if the step is not that one. */
  lemma RefreshStaysPendingExactlyWhen(s: Stream, e: Event)
    requires Inv(s) && RefreshInv(s)
    ensures RefreshInv(Step(s, e)) <==> !ForgetsRefresh(s, e)
  {
    hide Inv;
    if Enabled(s, e) {
      match e
      case TokenArrives(_, _, _) => hide *; TokensLeavePendingExactlyWhen(s, e);
      case TokenFails(_, _) => hide *; TokensLeavePendingExactlyWhen(s, e);
      case HandshakeFires(_, _) => hide Apply, RefreshInv; SocketsLeavePending(s, e);
      case SocketOpens(_, _) => hide Apply, RefreshInv; SocketsLeavePending(s, e);
      case SocketCloses(_, _) => hide Apply, RefreshInv; SocketsLeavePending(s, e);
      case Start => hide Apply, RefreshInv; TimersLeavePending(s, e);
      case RefreshFires => hide Apply, RefreshInv; TimersLeavePending(s, e);
      case ReconnectFires => hide Apply, RefreshInv; TimersLeavePending(s, e);
      case RecoveryFires => hide Apply, RefreshInv; TimersLeavePending(s, e);
      case Stop => hide DisposeSocket, DisposeCandidate, SettleHandshake;
      case _ => hide NobodyOwns;
    }
  }

  // ---- Over whole runs -----------------------------------------------------

  /** No event of the run throws its refresh away. */
  predicate NeverForgets(events: seq<Event>) {
    events == [] ||
    var before := events[..|events| - 1];
    NeverForgets(before) && !ForgetsRefresh(Run(FRESH, before), events[|events| - 1])
  }

  /** At every moment of the run an open live socket has a refresh pending. */
  predicate AlwaysPending(events: seq<Event>) {
    RefreshInv(Run(FRESH, events)) && (events != [] ==> AlwaysPending(events[..|events| - 1]))
  }

  lemma {:induction false} RefreshAlwaysPendingExactlyWhen(events: seq<Event>)
    ensures AlwaysPending(events) <==> NeverForgets(events)
  {
    hide Inv, RefreshInv, ForgetsRefresh, Step;
    if events == [] {
      FreshIsPending();
    } else {
      var before := events[..|events| - 1];
      RefreshAlwaysPendingExactlyWhen(before);
      if AlwaysPending(before) {
        RunKeepsInv(before);
        AlwaysMeansNow(before);
        RefreshStaysPendingExactlyWhen(Run(FRESH, before), events[|events| - 1]);
      }
    }
  }

  lemma FreshIsPending()
    ensures RefreshInv(FRESH)
  {
  }

  lemma AlwaysMeansNow(events: seq<Event>)
    requires AlwaysPending(events)
    ensures RefreshInv(Run(FRESH, events))
  {
  }

  // ---- The run that forgets ------------------------------------------------

  const ONCE_UP: seq<Event> := [Start, TokenArrives(0, false, 0.0), SocketOpens(0, 0.0)]

  /** The first connection opens, its refresh comes due, and constructing the candidate throws. */
  const FORGETFUL: seq<Event> := ONCE_UP + [Elapse(210_000.0), RefreshFires, TokenArrives(1, true, 0.0)]

  lemma LastStep(events: seq<Event>, k: nat)
    requires 0 < k <= |events|
    ensures Run(FRESH, events[..k]) == Step(Run(FRESH, events[..k - 1]), events[k - 1])
  {
    assert events[..k][..k - 1] == events[..k - 1];
  }

  lemma FirstConnectionOpens()
    ensures var s := Step(Step(Step(FRESH, Start), TokenArrives(0, false, 0.0)), SocketOpens(0, 0.0));
            && IsActive(s) && s.socket == Some(0) && |s.sockets| == 1 && s.sockets[0].ready == Open
            && s.now == 0.0 && s.refreshTimer == Some(210_000.0) && s.reconnectTimer.None? && s.candidate.None?
            && s.recoveryTimer.None?
            && |s.attempts| == 1 && !s.attempts[0].isPending && s.handshakeSettle.None?
  {
    var asked := Step(FRESH, Start);
    assert asked.attempts == [Attempt(false, 0, true)] && asked.connectGeneration == 1 && asked.sockets == [];
    var opening := Step(asked, TokenArrives(0, false, 0.0));
    assert |opening.sockets| == 1 && opening.socket == Some(0) && opening.sockets[0].ready == Connecting;
    assert RefreshDelay(0.0) == 210_000.0;
  }

  lemma ThrowingForgets(s: Stream)
    requires IsActive(s) && s.socket == Some(0) && |s.sockets| == 1 && s.sockets[0].ready == Open
    requires s.now == 0.0 && s.refreshTimer == Some(210_000.0) && s.reconnectTimer.None? && s.candidate.None?
    requires |s.attempts| == 1 && !s.attempts[0].isPending && s.handshakeSettle.None?
    ensures var t := Step(Step(Step(s, Elapse(210_000.0)), RefreshFires), TokenArrives(1, true, 0.0));
            IsActive(t) && IsConnected(t) && !RefreshPending(t)
  {
    var due := Step(s, Elapse(210_000.0));
    var asked := Step(due, RefreshFires);
    assert asked.attempts == s.attempts + [Attempt(true, s.connectGeneration, true)];
    assert asked.sockets == s.sockets && asked.refreshTimer.None? && asked.reconnectTimer.None?;
    assert StillOwns(FetchSettled(asked, 1), asked.attempts[1]);
  }

  /** So the stream can sit connected with nothing armed to renew it. */
  lemma ConnectedWithNoRefreshPending()
    ensures var s := Run(FRESH, FORGETFUL); IsActive(s) && IsConnected(s) && !RefreshPending(s)
  {
    FirstConnectionOpens();
    ThrowingForgets(Step(Step(Step(FRESH, Start), TokenArrives(0, false, 0.0)), SocketOpens(0, 0.0)));
    hide Step, Run, IsActive, IsConnected, RefreshPending;
    var all := FORGETFUL;
    LastStep(all, 1);
    LastStep(all, 2);
    LastStep(all, 3);
    LastStep(all, 4);
    LastStep(all, 5);
    LastStep(all, 6);
    assert all[..6] == all && all[..0] == [];
    RunNothing();
  }

  lemma RunNothing()
    ensures Run(FRESH, []) == FRESH
  {
  }
}
