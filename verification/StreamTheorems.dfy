/** What the event stream guarantees over every run, whatever order the callbacks come in. */
module StreamTheorems {
  import opened Options
  import opened Settings
  import opened StreamSpec
  import opened StreamInvariant

  /**
   * Between a start and a stop the stream is never left with nothing on its way, and a retry
   * and a recovery are never both armed.
   */
  lemma NeverWedged(events: seq<Event>)
    ensures var s := Run(FRESH, events);
            && (IsActive(s) ==> NoWedge(s))
            && !(s.reconnectTimer.Some? && s.recoveryTimer.Some?)
  {
    RunKeepsInv(events);
  }

  /** Every socket ever created is the live one, the candidate, or closed or closing with no listeners left. */
  lemma SocketsAreOwnedOrClosed(events: seq<Event>, i: nat)
    requires i < |Run(FRESH, events).sockets|
    ensures var s := Run(FRESH, events);
            || s.socket == Some(i) || s.candidate == Some(i)
            || s.sockets[i].ready == Closed
            || (s.sockets[i].ready == Closing && !s.sockets[i].listening)
  {
    RunKeepsInv(events);
    var s := Run(FRESH, events);
    assert SocketOk(s.sockets[i], i, s.socket, s.candidate, s.connectGeneration);
  }

  /** At most two sockets are open or opening: among any three, one is on its way out. */
  lemma AtMostTwoSocketsAtOnce(events: seq<Event>, i: nat, j: nat, k: nat)
    requires i != j && j != k && i != k
    requires var n := |Run(FRESH, events).sockets|; i < n && j < n && k < n
    ensures var sockets := Run(FRESH, events).sockets;
            exists x :: x in [i, j, k] && sockets[x].ready in {Closing, Closed}
  {
    var s := Run(FRESH, events);
    SocketsAreOwnedOrClosed(events, i);
    SocketsAreOwnedOrClosed(events, j);
    SocketsAreOwnedOrClosed(events, k);
    var x := if s.socket != Some(i) && s.candidate != Some(i) then i
             else if s.socket != Some(j) && s.candidate != Some(j) then j else k;
    assert x in [i, j, k];
  }

  /** At most one fetch still owns the connection; every other pending one has been superseded. */
  lemma AtMostOneOwner(events: seq<Event>, j: nat, k: nat)
    requires var s := Run(FRESH, events);
             && j < k < |s.attempts| && s.attempts[j].isPending && s.attempts[k].isPending
    ensures var s := Run(FRESH, events);
            IsSuperseded(s, s.attempts[j]) || IsSuperseded(s, s.attempts[k])
  {
    RunKeepsInv(events);
  }

  /** The answer to a superseded fetch, good or bad, changes nothing but the record that it came. */
  lemma SupersededFetchDoesNothing(s: Stream, k: nat, throws: bool, random: Draw)
    requires k < |s.attempts| && s.attempts[k].isPending && IsSuperseded(s, s.attempts[k])
    ensures Step(s, TokenArrives(k, throws, random)) == FetchSettled(s, k)
    ensures Step(s, TokenFails(k, random)) == FetchSettled(s, k)
  {
  }

  // ---- Quiescence ---------------------------------------------------------

  /** Everything a stopped stream could do to the outside: requests, sockets, timers, callbacks. */
  predicate SameOutside(s: Stream, t: Stream) {
    && t.marks == s.marks && t.notices == s.notices && t.frames == s.frames
    && |t.sockets| == |s.sockets| && |t.attempts| == |s.attempts|
    && t.reconnectTimer == s.reconnectTimer && t.refreshTimer == s.refreshTimer
    && t.recoveryTimer == s.recoveryTimer && t.socket == s.socket && t.candidate == s.candidate
    && t.hasStarted == s.hasStarted && t.isStopped == s.isStopped
  }

  lemma NoTimerLeft(s: Stream)
    requires Inv(s) && !IsActive(s)
    ensures NoTimers(s)
  {
  }

  lemma StoppedSocketIsSilent(s: Stream, e: Event)
    requires Inv(s) && !IsActive(s) && Enabled(s, e)
    requires e.HandshakeFires? || e.SocketOpens? || e.SocketCloses? || e.FrameArrives?
    ensures SameOutside(s, Apply(s, e))
  {
    NoListenerLeft(s, e.i);
    hide Inv, ScheduleReconnect, ScheduleRefreshRetry, NoteDisconnect;
    StoppedHasNoSocket(s);
  }

  lemma StoppedHasNoSocket(s: Stream)
    requires Inv(s) && !IsActive(s)
    ensures s.socket.None? && s.candidate.None? && NoTimers(s)
  {
  }

  lemma StoppedStepIsSilent(s: Stream, e: Event)
    requires Inv(s) && !IsActive(s) && e != Start && e != Stop
    ensures SameOutside(s, Step(s, e))
  {
    hide Inv;
    if Enabled(s, e) {
      match e
      case TokenArrives(k, throws, random) => hide Apply; StoppedFetchIsSilent(s, k, throws, random);
      case TokenFails(k, random) => hide Apply; StoppedFetchIsSilent(s, k, false, random);
      case HandshakeFires(_, _) => hide Apply; StoppedSocketIsSilent(s, e);
      case SocketOpens(_, _) => hide Apply; StoppedSocketIsSilent(s, e);
      case SocketCloses(_, _) => hide Apply; StoppedSocketIsSilent(s, e);
      case FrameArrives(_) => hide Apply; StoppedSocketIsSilent(s, e);
      case RefreshFires => hide Apply; NoTimerLeft(s);
      case ReconnectFires => hide Apply; NoTimerLeft(s);
      case RecoveryFires => hide Apply; NoTimerLeft(s);
      case _ =>
    }
  }

  lemma NoListenerLeft(s: Stream, i: nat)
    requires Sane(s) && s.socket.None? && s.candidate.None? && i < |s.sockets|
    ensures s.sockets[i].ready == Closed || (s.sockets[i].ready == Closing && !s.sockets[i].listening)
  {
    assert SocketOk(s.sockets[i], i, None, None, s.connectGeneration);
  }

  lemma StoppedFetchIsSilent(s: Stream, k: nat, throws: bool, random: Draw)
    requires Inv(s) && !IsActive(s) && k < |s.attempts| && s.attempts[k].isPending
    ensures Step(s, TokenArrives(k, throws, random)) == FetchSettled(s, k)
    ensures Step(s, TokenFails(k, random)) == FetchSettled(s, k)
  {
    assert !IsCurrent(s.attempts[k], s.connectGeneration);
    SupersededFetchDoesNothing(s, k, throws, random);
  }

  predicate HasNoStart(events: seq<Event>) {
    forall i :: 0 <= i < |events| ==> events[i] != Start
  }

  /**
   * After `stop()` nothing the environment delivers asks for a token, opens a socket, arms a
   * timer or calls back, until the next `start()`; fetches left pending included.
   */
  lemma {:induction false} StopIsFinalUntilStart(before: seq<Event>, after: seq<Event>)
    requires HasNoStart(after)
    ensures var stopped := Step(Run(FRESH, before), Stop);
            && SameOutside(stopped, Run(stopped, after))
            && Inv(Run(stopped, after)) && !IsActive(Run(stopped, after))
            && Quiet(Run(stopped, after))
  {
    var stopped := Step(Run(FRESH, before), Stop);
    if after == [] {
      RunKeepsInv(before);
      StepKeepsInv(Run(FRESH, before), Stop);
    } else {
      var most := after[..|after| - 1];
      var last := after[|after| - 1];
      StopIsFinalUntilStart(before, most);
      var s := Run(stopped, most);
      StepKeepsInv(s, last);
      if last == Stop {
        StoppingTwiceIsSilent(s);
      } else {
        StoppedStepIsSilent(s, last);
      }
    }
  }

  lemma UntimingKeepsLength(sockets: seq<Socket>)
    ensures forall i :: |Untimed(sockets, i)| == |sockets|
  {
  }

  lemma ClosingNothing(sockets: seq<Socket>)
    ensures CloseSocket(sockets, None) == sockets
  {
  }

  lemma StoppingTwiceIsSilent(s: Stream)
    requires Quiet(s) && s.isStopped
    ensures SameOutside(s, Step(s, Stop))
  {
    hide NobodyOwns, NoteDisconnect, Untimed, IsConnected, CloseSocket;
    UntimingKeepsLength(s.sockets);
    assert CloseSocket(SettleHandshake(s).sockets, None) == SettleHandshake(s).sockets by {
      ClosingNothing(SettleHandshake(s).sockets);
    }
  }

  // ---- Make before break --------------------------------------------------

  /** What may take an open live socket away. */
  predicate MayDisconnect(s: Stream, e: Event) {
    || e == Start || e == Stop
    || (e.SocketStartsClosing? && s.socket == Some(e.i))
    || (e.SocketCloses? && s.socket == Some(e.i))
  }

  /** The live socket is still open and nothing has taken its place. */
  predicate KeepsLive(s: Stream, t: Stream) {
    IsConnected(t) && t.socket == s.socket
  }

  lemma RefreshKeepsLive(s: Stream)
    requires IsConnected(s) && s.connectReason == Refresh && s.candidate.None?
    ensures KeepsLive(s, Connect(s, false))
  {
  }

  lemma TimersKeepLive(s: Stream, e: Event)
    requires Inv(s) && IsActive(s) && IsConnected(s) && Enabled(s, e)
    requires e in {RefreshFires, ReconnectFires, RecoveryFires}
    ensures KeepsLive(s, Apply(s, e))
  {
    hide BeginAttempt, Sane, AttemptsFine, OwnersOk, NoWedge, LiveOk, CandidateOk;
    if e == RefreshFires {
      RefreshKeepsLive(s.(refreshTimer := None, reconnectTimer := None, connectReason := Refresh));
    } else if e == ReconnectFires {
      RefreshKeepsLive(s.(reconnectTimer := None, connectReason := Refresh));
    }
  }

  lemma FailedRefreshKeepsLive(s: Stream, a: Attempt, random: Draw)
    requires IsConnected(s) && a.shouldDeferDispose
    ensures KeepsLive(s, HandleConnectFailure(s, a, random))
  {
    hide ScheduleReconnect;
  }

  lemma FetchesKeepLive(s: Stream, e: Event)
    requires Inv(s) && IsActive(s) && IsConnected(s) && Enabled(s, e) && (e.TokenArrives? || e.TokenFails?)
    ensures KeepsLive(s, Apply(s, e))
  {
    var a := s.attempts[e.k];
    if IsSuperseded(s, a) {
      SupersededFetchDoesNothing(s, e.k, false, e.random);
      SupersededFetchDoesNothing(s, e.k, e.TokenArrives? && e.constructorThrows, e.random);
    } else {
      OwnerIsUnique(s.attempts, e.k, s.connectGeneration);
      assert a.shouldDeferDispose;
      hide Inv, ScheduleReconnect, ScheduleRefreshRetry, HandleConnectFailure;
      var answered := FetchSettled(s, e.k);
      FailedRefreshKeepsLive(answered, a, e.random);
      FailedRefreshKeepsLive(s.(connectGeneration := s.connectGeneration + 1, attempts := answered.attempts), a, e.random);
      if e.TokenArrives? {
        OpenedCandidateKeepsLive(answered, a, e.constructorThrows, e.random);
      }
    }
  }

  lemma OpenedCandidateKeepsLive(s: Stream, a: Attempt, throws: bool, random: Draw)
    requires IsConnected(s) && a.shouldDeferDispose && s.candidate != s.socket
    ensures KeepsLive(s, OpenSocket(s, a, throws, random))
  {
    hide HandleConnectFailure;
    var ready := DisposeCandidate(s.(connectGeneration := s.connectGeneration + 1));
    FailedRefreshKeepsLive(ready, a, random);
  }

  lemma RetryKeepsLive(s: Stream)
    ensures ScheduleRefreshRetry(s).socket == s.socket && ScheduleRefreshRetry(s).sockets == s.sockets
  {
  }

  lemma HandshakesKeepLive(s: Stream, i: nat, random: Draw)
    requires Inv(s) && IsActive(s) && IsConnected(s) && Enabled(s, HandshakeFires(i, random))
    ensures KeepsLive(s, OnHandshakeTimeout(s, i, random))
  {
    assert s.socket != Some(i) by {
      assert SocketOk(s.sockets[i], i, s.socket, s.candidate, s.connectGeneration);
    }
    hide ScheduleReconnect, ScheduleRefreshRetry, AttemptsFine, TimersOk, OwnersOk, NoWedge, SocketsSane, NoteDisconnect;
    RetryKeepsLive(Settle(DisposeCandidate(s.(isConnecting := false)), i));
  }

  lemma OtherClosesKeepLive(s: Stream, i: nat, random: Draw)
    requires Inv(s) && IsActive(s) && IsConnected(s) && Enabled(s, SocketCloses(i, random)) && s.socket != Some(i)
    ensures KeepsLive(s, Apply(s, SocketCloses(i, random)))
  {
    hide ScheduleReconnect, AttemptsFine, TimersOk, OwnersOk, NoWedge;
  }

  /** Short of those, the live socket stays unless an already open candidate takes its place. */
  lemma ConnectedStepKeepsLive(s: Stream, e: Event)
    requires Inv(s) && IsConnected(s) && !MayDisconnect(s, e)
    ensures var t := Step(s, e);
            && IsConnected(t)
            && (t.socket == s.socket || IsPromotion(s, e, t))
  {
    if IsActive(s) && Enabled(s, e) {
      match e
      case TokenArrives(k, throws, random) => hide *; FetchesKeepLive(s, e);
      case TokenFails(k, random) => hide *; FetchesKeepLive(s, e);
      case HandshakeFires(i, random) => hide *; HandshakesKeepLive(s, i, random);
      case SocketOpens(i, random) => assert SocketOk(s.sockets[i], i, s.socket, s.candidate, s.connectGeneration);
      case SocketCloses(i, random) => hide *; OtherClosesKeepLive(s, i, random);
      case RefreshFires => hide *; TimersKeepLive(s, e);
      case ReconnectFires => hide *; TimersKeepLive(s, e);
      case RecoveryFires => hide *; TimersKeepLive(s, e);
      case _ => hide SocketsSane, AttemptsOk, NobodyOwns, OnlyRefreshOwns;
    }
  }

  /** The candidate opened, became the live socket, and the one it replaced was closed and silenced. */
  predicate IsPromotion(s: Stream, e: Event, t: Stream) {
    && e.SocketOpens? && s.candidate == Some(e.i) && t.socket == Some(e.i) && t.candidate.None?
    && s.socket.Some? && s.socket.value < |t.sockets|
    && t.sockets[s.socket.value].ready in {Closing, Closed} && !t.sockets[s.socket.value].listening
  }

  /**
   * Make before break, over every run: while connected, only a start, a stop or the server can
   * disconnect the stream, and only an open candidate can replace the live socket.
   */
  lemma MakeBeforeBreak(events: seq<Event>, e: Event)
    requires IsConnected(Run(FRESH, events))
    ensures var s := Run(FRESH, events); var t := Step(s, e);
            && (!IsConnected(t) ==> MayDisconnect(s, e))
            && (IsConnected(t) && t.socket != s.socket ==> IsPromotion(s, e, t))
  {
    RunKeepsInv(events);
    var s := Run(FRESH, events);
    if !MayDisconnect(s, e) {
      ConnectedStepKeepsLive(s, e);
    } else {
      TakingAwayKeepsNothing(s, e);
    }
  }

  /** A start or a stop drops the live socket; a close delivered by the server leaves it in place, not open. */
  lemma TakingAwayKeepsNothing(s: Stream, e: Event)
    requires Inv(s) && IsConnected(s) && MayDisconnect(s, e)
    ensures !IsConnected(Step(s, e))
  {
    hide AttemptsFine, TimersOk, OwnersOk, NoWedge, LiveOk, ScheduleReconnect, BeginAttempt, NoteDisconnect;
    if e == Start {
      StartingDisposesLive(s);
    }
  }

  lemma StartingDisposesLive(s: Stream)
    requires s.socket.Some?
    ensures DoStart(s).socket.None?
  {
    hide Untimed, CloseSocket, NoteDisconnect;
  }

  lemma AnswersDeliverNothing(s: Stream, e: Event)
    requires Enabled(s, e) && (e.TokenArrives? || e.TokenFails?)
    ensures Apply(s, e).frames == s.frames
  {
    hide OpenSocket, HandleConnectFailure, StillOwns, Abandon, FetchSettled;
    SettlingAFetchDeliversNothing(s, e.k);
    AbandoningDeliversNothing(FetchSettled(s, e.k), s.attempts[e.k]);
  }

  lemma SocketsDeliverNothing(s: Stream, e: Event)
    requires Enabled(s, e) && (e.SocketOpens? || e.SocketCloses? || e.SocketStartsClosing? || e.HandshakeFires?)
    ensures Apply(s, e).frames == s.frames
  {
    hide OnHandshakeTimeout, OnHandshakeOpen, OnHandshakeClose;
  }

  lemma TimersDeliverNothing(s: Stream, e: Event)
    requires Enabled(s, e) && (e.Start? || e.Stop? || e.RefreshFires? || e.ReconnectFires? || e.RecoveryFires?)
    ensures Apply(s, e).frames == s.frames
  {
    hide DoStart, DoStop, Reconnect, Connect;
  }

  lemma FramesFollowTheLiveSocket(s: Stream, e: Event)
    requires Sane(s)
    ensures Step(s, e).frames == if Enabled(s, e) && e.FrameArrives? && s.socket == Some(e.i)
                                 then s.frames + [e.i] else s.frames
  {
    assert s.socket.Some? ==> s.socket.value < |s.sockets| && s.sockets[s.socket.value].listening;
    hide Sane;
    if Enabled(s, e) {
      if e.TokenArrives? || e.TokenFails? {
        hide Apply;
        AnswersDeliverNothing(s, e);
      } else if e.SocketOpens? || e.SocketCloses? || e.SocketStartsClosing? || e.HandshakeFires? {
        hide Apply;
        SocketsDeliverNothing(s, e);
      } else if e.Start? || e.Stop? || e.RefreshFires? || e.ReconnectFires? || e.RecoveryFires? {
        hide Apply;
        TimersDeliverNothing(s, e);
      }
    }
  }

  lemma SettlingAFetchDeliversNothing(s: Stream, k: nat)
    requires k < |s.attempts|
    ensures FetchSettled(s, k).frames == s.frames
  {
  }

  lemma AbandoningDeliversNothing(s: Stream, a: Attempt)
    ensures Abandon(s, a).frames == s.frames
  {
  }

  /** A frame reaches the platform exactly when it comes from the live socket. */
  lemma FramesComeFromTheLiveSocket(events: seq<Event>, e: Event)
    ensures var s := Run(FRESH, events);
            Step(s, e).frames == if Enabled(s, e) && e.FrameArrives? && s.socket == Some(e.i)
                                 then s.frames + [e.i] else s.frames
  {
    RunKeepsInv(events);
    hide Run;
    FramesFollowTheLiveSocket(Run(FRESH, events), e);
  }
}
