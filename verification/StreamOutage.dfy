/** Since when the stream has been down: an outage keeps the date of its first loss until a socket opens. */
module StreamOutage {
  import opened Options
  import opened StreamSpec
  import opened StreamInvariant

  /** The date stands, or is set where there was none. */
  predicate DateKept(before: Option<real>, now: real, after: Option<real>) {
    after == before || (before.None? && after == Some(now))
  }

  /** Besides, a stream that has been connected does not part with a live socket undated. */
  predicate Kept(s: Stream, t: Stream) {
    && t.now == s.now && t.hadConnected == s.hadConnected
    && DateKept(s.disconnectedAt, s.now, t.disconnectedAt)
    && (s.hadConnected && s.socket.Some? && t.socket != s.socket ==> t.disconnectedAt.Some?)
  }

  predicate SameDate(s: Stream, t: Stream) {
    && t.now == s.now && t.disconnectedAt == s.disconnectedAt && t.marks == s.marks
    && t.hadConnected == s.hadConnected && t.socket == s.socket
  }

  lemma DisposingKeeps(s: Stream)
    ensures Kept(s, DisposeSocket(s)) && DisposeSocket(s).socket.None?
    ensures SameDate(s, DisposeCandidate(s))
  {
    hide IsConnected, CloseSocket;
  }

  lemma SettlingKeeps(s: Stream, i: nat)
    ensures SameDate(s, Settle(s, i)) && SameDate(s, SettleHandshake(s))
  {
    hide Untimed, IsUnsettled;
  }

  lemma GivingUpKeeps(s: Stream)
    ensures SameDate(s, GiveUp(s))
  {
  }

  lemma SchedulingKeeps(s: Stream, random: Draw)
    ensures SameDate(s, ScheduleReconnect(s, random)) && SameDate(s, ScheduleRefreshRetry(s))
  {
    hide ReconnectDelay, GiveUp;
    GivingUpKeeps(s.(consecutiveFailures := s.consecutiveFailures + 1));
  }

  lemma ClosingKeeps(s: Stream, random: Draw)
    ensures Kept(s, HandleClose(s, random)) && HandleClose(s, random).marks == s.marks
    ensures !s.isStopped ==> HandleClose(s, random).disconnectedAt.Some?
  {
    hide ScheduleReconnect;
    SchedulingKeeps(Dropped(s), random);
  }

  lemma BeginningKeeps(s: Stream, isRecovery: bool)
    ensures Kept(s, Connect(s, isRecovery))
  {
    hide DisposeSocket, DisposeCandidate, SettleHandshake, IsConnected;
    var bumped := s.(connectGeneration := s.connectGeneration + 1);
    var alone := DisposeCandidate(bumped);
    DisposingKeeps(bumped);
    DisposingKeeps(alone);
    SettlingKeeps(s, 0);
    SettlingKeeps(DisposeSocket(alone), 0);
  }

  lemma FailingKeeps(s: Stream, a: Attempt, random: Draw)
    ensures SameDate(s, HandleConnectFailure(s, a, random))
  {
    hide ScheduleReconnect, ScheduleRefreshRetry, IsConnected, IsSuperseded, DropOwns;
    SchedulingKeeps(s.(isConnecting := false), random);
  }

  lemma OpeningKeeps(s: Stream, a: Attempt, throws: bool, random: Draw)
    ensures Kept(s, OpenSocket(s, a, throws, random))
  {
    hide DisposeSocket, DisposeCandidate, HandleConnectFailure, IsConnected;
    var bumped, alone := s.(connectGeneration := s.connectGeneration + 1), DisposeCandidate(s);
    DisposingKeeps(bumped);
    DisposingKeeps(s);
    DisposingKeeps(alone);
    FailingKeeps(DisposeCandidate(bumped), a, random);
    FailingKeeps(DisposeSocket(alone), a, random);
  }

  lemma TimingOutKeeps(s: Stream, i: nat, random: Draw)
    requires i < |s.sockets|
    ensures Kept(s, OnHandshakeTimeout(s, i, random))
  {
    hide DisposeSocket, DisposeCandidate, Settle, ScheduleReconnect, ScheduleRefreshRetry, IsConnected;
    var idle := s.(isConnecting := false);
    var alone := DisposeCandidate(idle);
    DisposingKeeps(idle);
    DisposingKeeps(alone);
    SettlingKeeps(s, i);
    SettlingKeeps(idle, i);
    SettlingKeeps(alone, i);
    SettlingKeeps(DisposeSocket(alone), i);
    SchedulingKeeps(Settle(alone, i), random);
    SchedulingKeeps(Settle(DisposeSocket(alone), i), random);
  }

  lemma LosingKeeps(s: Stream, i: nat, random: Draw)
    requires i < |s.sockets|
    ensures Kept(s, OnHandshakeClose(s, i, random))
    ensures s.socket == Some(i) && s.candidate != Some(i) && !s.isStopped ==> OnHandshakeClose(s, i, random).disconnectedAt.Some?
  {
    hide DisposeCandidate, Settle, HandleClose, ScheduleRefreshRetry, IsConnected;
    var gone, alone := s.(candidate := None, isConnecting := false), DisposeCandidate(s);
    DisposingKeeps(s);
    assert !s.isStopped ==> !alone.isStopped by { DisposingStopsNothing(s); }
    ClosingKeeps(gone, random);
    ClosingKeeps(alone, random);
    SchedulingKeeps(gone, random);
    SettlingKeeps(s, i);
    SettlingKeeps(gone, i);
    SettlingKeeps(ScheduleRefreshRetry(gone), i);
    SettlingKeeps(HandleClose(gone, random), i);
    SettlingKeeps(HandleClose(alone, random), i);
  }

  lemma DisposingStopsNothing(s: Stream)
    ensures DisposeCandidate(s).isStopped == s.isStopped
  {
  }

  lemma OpenedClears(s: Stream, random: Draw)
    ensures var t := HandleOpen(s, random);
            t.now == s.now && t.marks == s.marks + [Opened] && t.disconnectedAt.None? && t.hadConnected
  {
    hide RefreshDelay;
  }

  lemma OpenedKeepsOrClears(s: Stream, i: nat, random: Draw)
    requires i < |s.sockets|
    ensures var t := OnHandshakeOpen(s, i, random);
            if t.marks == s.marks then SameDate(s, t)
            else t.now == s.now && t.marks == s.marks + [Opened] && t.disconnectedAt.None? && t.hadConnected
  {
    hide HandleOpen, Settle, CloseSocket;
    var promoted := s.(candidate := None, socket := Some(i), sockets := CloseSocket(s.sockets, s.socket));
    OpenedClears(s, random);
    OpenedClears(promoted, random);
    SettlingKeeps(s, i);
    SettlingKeeps(HandleOpen(s, random), i);
    SettlingKeeps(HandleOpen(promoted, random), i);
  }

  lemma StoppingKeeps(s: Stream)
    ensures Kept(s, DoStop(s))
  {
    hide DisposeSocket, DisposeCandidate, SettleHandshake;
    var halted := ClearTimers(s.(isStopped := true, connectGeneration := s.connectGeneration + 1, isConnecting := false));
    SettlingKeeps(halted, 0);
    DisposingKeeps(SettleHandshake(halted));
    DisposingKeeps(DisposeCandidate(SettleHandshake(halted)));
  }

  lemma TimersKeep(s: Stream, e: Event)
    requires Enabled(s, e) && (e.RefreshFires? || e.ReconnectFires? || e.RecoveryFires?)
    ensures Kept(s, Apply(s, e))
  {
    hide Connect;
    match e
    case RefreshFires => BeginningKeeps(s.(refreshTimer := None, reconnectTimer := None, connectReason := Refresh), false);
    case ReconnectFires =>
      BeginningKeeps(s.(reconnectTimer := None, connectReason := Refresh), false);
      BeginningKeeps(s.(reconnectTimer := None), false);
    case RecoveryFires =>
      BeginningKeeps(s.(recoveryTimer := None, consecutiveFailures := 0, connectReason := Drop), true);
  }

  lemma AnswersKeep(s: Stream, e: Event)
    requires Enabled(s, e) && (e.TokenArrives? || e.TokenFails?)
    ensures Kept(s, Apply(s, e))
  {
    hide OpenSocket, HandleConnectFailure, StillOwns, IsSuperseded;
    FailingKeeps(FetchSettled(s, e.k), s.attempts[e.k], e.random);
    OpeningKeeps(FetchSettled(s, e.k), s.attempts[e.k], e.TokenArrives? && e.constructorThrows, e.random);
  }

  /** A socket opened. */
  predicate Opens(s: Stream, t: Stream) {
    t.marks == s.marks + [Opened]
  }

  /**
   * From any state: the date of an outage, once set, is moved by nothing but a start, and cleared by
   * nothing else but a socket that opens, which always clears it. It is only ever set to the moment
   * at hand, and it is set whenever the live socket of a running stream closes, and by whatever else
   * parts with a live socket once one has opened since the start.
   */
  lemma OutageIsDatedFromItsStart(s: Stream, e: Event)
    requires !e.Start? && !e.Elapse?
    ensures var t := Step(s, e);
            if e.SocketOpens? && Opens(s, t) then t.disconnectedAt.None? && t.hadConnected
            else DateKept(s.disconnectedAt, s.now, t.disconnectedAt) && t.hadConnected == s.hadConnected
    ensures var t := Step(s, e);
            s.hadConnected && s.socket.Some? && t.socket != s.socket && !(e.SocketOpens? && Opens(s, t)) ==>
              t.disconnectedAt.Some?
    ensures (e.SocketCloses? && Enabled(s, e) && !s.isStopped && s.sockets[e.i].listening
             && s.socket == Some(e.i) && s.candidate != Some(e.i)) ==> Step(s, e).disconnectedAt.Some?
  {
    hide DoStop, OnHandshakeTimeout, OnHandshakeOpen, OnHandshakeClose;
    if Enabled(s, e) {
      match e
      case Stop => StoppingKeeps(s);
      case HandshakeFires(i, random) => TimingOutKeeps(s, i, random);
      case SocketOpens(i, random) => OpenedKeepsOrClears(s.(sockets := SetReady(s.sockets, i, Open)), i, random);
      case SocketCloses(i, random) => LosingKeeps(s.(sockets := SetReady(s.sockets, i, Closed)), i, random);
      case TokenArrives(_, _, _) => hide *; AnswersKeep(s, e);
      case TokenFails(_, _) => hide *; AnswersKeep(s, e);
      case RefreshFires => hide *; TimersKeep(s, e);
      case ReconnectFires => hide *; TimersKeep(s, e);
      case RecoveryFires => hide *; TimersKeep(s, e);
      case _ =>
    }
  }

  /** A start forgets that anything ever opened, and dates an outage only if it tears an open socket down. */
  lemma StartForgets(events: seq<Event>)
    ensures var s := Run(FRESH, events); var t := Step(s, Start);
            && !t.hadConnected
            && t.disconnectedAt == if IsConnected(s) then Some(s.now) else None
  {
    RunKeepsInv(events);
    StartingForgets(Run(FRESH, events));
    hide Run, Step, AttemptsFine, OwnersOk, NoWedge;
  }

  lemma StartingForgets(s: Stream)
    requires s.candidate.Some? ==> s.candidate != s.socket
    ensures var t := Step(s, Start);
            && !t.hadConnected
            && t.disconnectedAt == if IsConnected(s) then Some(s.now) else None
  {
    hide Untimed;
  }
}
