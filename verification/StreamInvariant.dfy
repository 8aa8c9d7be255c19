/** The structural invariant of the event stream and its preservation by every event. */
module StreamInvariant {
  import opened Options
  import opened Settings
  import opened StreamSpec

  predicate IsActive(s: Stream) {
    s.hasStarted && !s.isStopped
  }

  /** The attempt is waiting for its token and has not been superseded. */
  predicate IsCurrent(a: Attempt, generation: nat) {
    a.isPending && a.generationBeforeFetch + (if a.shouldDeferDispose then 0 else 1) == generation
  }

  /** No pending attempt may still open a socket. */
  predicate NobodyOwns(attempts: seq<Attempt>, generation: nat) {
    forall k :: 0 <= k < |attempts| ==> !IsCurrent(attempts[k], generation)
  }

  predicate AttemptsOk(attempts: seq<Attempt>, generation: nat) {
    && (forall k :: 0 <= k < |attempts| ==>
          attempts[k].generationBeforeFetch + (if attempts[k].shouldDeferDispose then 0 else 1) <= generation)
    && (forall j, k :: 0 <= j < k < |attempts| ==>
          !IsCurrent(attempts[j], generation) || !IsCurrent(attempts[k], generation))
  }

  predicate NoTimers(s: Stream) {
    s.reconnectTimer.None? && s.refreshTimer.None? && s.recoveryTimer.None?
  }

  /** A drop is scheduled to be retried, soon or after a give-up. */
  predicate DropPending(s: Stream) {
    s.recoveryTimer.Some? || (s.reconnectTimer.Some? && !s.reconnectTimer.value.isRefreshRetry)
  }

  /** Only refresh attempts, which keep the live socket, are still waiting for a token. */
  predicate OnlyRefreshOwns(attempts: seq<Attempt>, generation: nat) {
    forall k :: 0 <= k < |attempts| && IsCurrent(attempts[k], generation) ==> attempts[k].shouldDeferDispose
  }

  /** The live socket opened and its close has not been delivered. */
  predicate IsEstablished(sockets: seq<Socket>, socket: Option<nat>) {
    && socket.Some? && socket.value < |sockets|
    && var k := sockets[socket.value];
       k.listening && k.ready in {Open, Closing} && k.handshakeTimer.None?
  }

  /** The live socket is still inside its own handshake. */
  predicate IsHandshaking(sockets: seq<Socket>, socket: Option<nat>) {
    socket.Some? && socket.value < |sockets| && sockets[socket.value].handshakeTimer.Some?
  }

  predicate LiveOk(sockets: seq<Socket>, socket: Option<nat>, generation: nat) {
    socket.Some? && socket.value < |sockets| ==>
      var k := sockets[socket.value];
      && (k.handshakeTimer.Some? ==>
            k.generation == generation && !k.isRefreshCandidate && k.ready in {Connecting, Closing})
      && (k.handshakeTimer.None? ==> k.ready != Connecting)
  }

  predicate CandidateOk(sockets: seq<Socket>, candidate: Option<nat>, generation: nat) {
    candidate.Some? && candidate.value < |sockets| ==>
      var k := sockets[candidate.value];
      && k.isRefreshCandidate && k.generation == generation
      && k.ready in {Connecting, Closing} && k.handshakeTimer.Some?
  }

  predicate SocketOk(k: Socket, i: nat, socket: Option<nat>, candidate: Option<nat>, generation: nat) {
    && k.generation <= generation
    && (k.listening && k.ready != Closed ==> socket == Some(i) || candidate == Some(i))
    && (!k.listening ==> k.ready in {Closing, Closed})
    && (k.listening && k.ready == Open ==> k.handshakeTimer.None?)
  }

  /** Every socket ever created is the live one, the candidate, closed, or closing and deaf. */
  predicate SocketsSane(sockets: seq<Socket>, socket: Option<nat>, candidate: Option<nat>, generation: nat) {
    && (forall i: nat :: i < |sockets| ==> SocketOk(sockets[i], i, socket, candidate, generation))
    && (socket.Some? ==> socket.value < |sockets| && sockets[socket.value].listening)
    && (candidate.Some? ==> candidate.value < |sockets| && candidate != socket && sockets[candidate.value].listening)
  }

  predicate Sane(s: Stream) {
    SocketsSane(s.sockets, s.socket, s.candidate, s.connectGeneration)
  }

  predicate AttemptsFine(s: Stream) {
    AttemptsOk(s.attempts, s.connectGeneration)
  }

  /** No attempt may still open a socket. */
  predicate Unowned(s: Stream) {
    NobodyOwns(s.attempts, s.connectGeneration)
  }

  predicate HasRefreshRetry(s: Stream) {
    s.reconnectTimer.Some? && s.reconnectTimer.value.isRefreshRetry
  }

  predicate TimersOk(s: Stream) {
    && (s.refreshTimer.Some? || HasRefreshRetry(s) || s.candidate.Some? ==>
          IsEstablished(s.sockets, s.socket) && Unowned(s))
    && (s.refreshTimer.Some? ==> s.reconnectTimer.None?)
    && (s.reconnectTimer.Some? || s.refreshTimer.Some? ==> s.recoveryTimer.None?)
    && (s.candidate.Some? ==> NoTimers(s))
    && (DropPending(s) ==> !IsConnected(s) && !IsHandshaking(s.sockets, s.socket))
    && (IsHandshaking(s.sockets, s.socket) ==> s.candidate.None? && NoTimers(s) && Unowned(s))
  }

  predicate OwnersOk(s: Stream) {
    && (OnlyRefreshOwns(s.attempts, s.connectGeneration) ==>
          Unowned(s) || IsEstablished(s.sockets, s.socket) || DropPending(s))
    && (!OnlyRefreshOwns(s.attempts, s.connectGeneration) ==> s.socket.None? && NoTimers(s))
  }

  /** Socket `i` is inside a handshake of the current generation, with its timeout armed. */
  predicate IsTimed(sockets: seq<Socket>, i: Option<nat>, generation: nat) {
    && i.Some? && i.value < |sockets|
    && sockets[i.value].listening && sockets[i.value].generation == generation
    && sockets[i.value].handshakeTimer.Some?
  }

  /**
   * Something is on its way that will move the stream on: the live socket is open or its close
   * is still to be delivered, a retry is armed, a fetch is out, or a handshake has its timer.
   */
  predicate NoWedge(s: Stream) {
    || IsEstablished(s.sockets, s.socket)
    || s.reconnectTimer.Some?
    || s.recoveryTimer.Some?
    || !Unowned(s)
    || IsTimed(s.sockets, s.socket, s.connectGeneration)
    || IsTimed(s.sockets, s.candidate, s.connectGeneration)
  }

  predicate Quiet(s: Stream) {
    s.socket.None? && s.candidate.None? && NoTimers(s) && Unowned(s)
  }

  predicate Inv(s: Stream) {
    && Sane(s) && AttemptsFine(s)
    && LiveOk(s.sockets, s.socket, s.connectGeneration)
    && CandidateOk(s.sockets, s.candidate, s.connectGeneration)
    && (IsActive(s) ==> TimersOk(s) && OwnersOk(s) && NoWedge(s))
    && (!IsActive(s) ==> Quiet(s))
  }

  lemma FreshIsQuiet()
    ensures Inv(FRESH)
  {
  }

  // ---- Attempts -----------------------------------------------------------

  /** Bumping the generation supersedes every attempt at once. */
  lemma BumpSupersedesAll(attempts: seq<Attempt>, generation: nat)
    requires AttemptsOk(attempts, generation)
    ensures AttemptsOk(attempts, generation + 1) && NobodyOwns(attempts, generation + 1)
  {
  }

  lemma AppendOwner(attempts: seq<Attempt>, a: Attempt, generation: nat)
    requires AttemptsOk(attempts, generation) && NobodyOwns(attempts, generation) && IsCurrent(a, generation)
    ensures AttemptsOk(attempts + [a], generation) && !NobodyOwns(attempts + [a], generation)
    ensures OnlyRefreshOwns(attempts + [a], generation) <==> a.shouldDeferDispose
  {
    assert (attempts + [a])[|attempts|] == a;
  }

  lemma FetchSettledEffect(attempts: seq<Attempt>, k: nat, generation: nat)
    requires AttemptsOk(attempts, generation) && k < |attempts|
    ensures var after := attempts[k := attempts[k].(isPending := false)];
            && AttemptsOk(after, generation)
            && (IsCurrent(attempts[k], generation) ==> NobodyOwns(after, generation))
            && (!IsCurrent(attempts[k], generation) ==>
                  (NobodyOwns(after, generation) <==> NobodyOwns(attempts, generation)))
  {
    var after := attempts[k := attempts[k].(isPending := false)];
    if !IsCurrent(attempts[k], generation) && NobodyOwns(after, generation) {
      forall j | 0 <= j < |attempts| ensures !IsCurrent(attempts[j], generation) {
        assert !IsCurrent(after[j], generation);
      }
    }
  }

  // ---- Sockets ------------------------------------------------------------

  lemma DroppingCandidateIsSane(sockets: seq<Socket>, socket: Option<nat>, candidate: Option<nat>, generation: nat)
    requires SocketsSane(sockets, socket, candidate, generation)
    ensures SocketsSane(CloseSocket(sockets, candidate), socket, None, generation)
  {
    forall i: nat | i < |sockets|
      ensures SocketOk(CloseSocket(sockets, candidate)[i], i, socket, None, generation)
    {
      assert SocketOk(sockets[i], i, socket, candidate, generation);
    }
  }

  lemma DroppingSocketIsSane(sockets: seq<Socket>, socket: Option<nat>, generation: nat)
    requires SocketsSane(sockets, socket, None, generation)
    ensures SocketsSane(CloseSocket(sockets, socket), None, None, generation)
  {
    forall i: nat | i < |sockets|
      ensures SocketOk(CloseSocket(sockets, socket)[i], i, None, None, generation)
    {
      assert SocketOk(sockets[i], i, socket, None, generation);
    }
  }

  lemma SettlingIsSane(sockets: seq<Socket>, i: nat, socket: Option<nat>, candidate: Option<nat>, generation: nat)
    requires SocketsSane(sockets, socket, candidate, generation)
    ensures SocketsSane(Untimed(sockets, i), socket, candidate, generation)
  {
    forall j: nat | j < |sockets|
      ensures SocketOk(Untimed(sockets, i)[j], j, socket, candidate, generation)
    {
      assert SocketOk(sockets[j], j, socket, candidate, generation);
    }
  }

  lemma BumpIsSane(sockets: seq<Socket>, socket: Option<nat>, candidate: Option<nat>, generation: nat)
    requires SocketsSane(sockets, socket, candidate, generation)
    ensures SocketsSane(sockets, socket, candidate, generation + 1)
  {
    forall i: nat | i < |sockets| ensures SocketOk(sockets[i], i, socket, candidate, generation + 1) {
      assert SocketOk(sockets[i], i, socket, candidate, generation);
    }
  }

  /** Tearing both sockets down leaves every socket closing or closed, and deaf. */
  lemma TeardownIsSane(s: Stream)
    requires Sane(s)
    ensures Sane(DisposeSocket(DisposeCandidate(s)))
  {
    DroppingCandidateIsSane(s.sockets, s.socket, s.candidate, s.connectGeneration);
    DroppingSocketIsSane(CloseSocket(s.sockets, s.candidate), s.socket, s.connectGeneration);
  }

  lemma SettleHandshakeIsSane(s: Stream)
    requires Sane(s)
    ensures Sane(SettleHandshake(s))
  {
    if s.handshakeSettle.Some? {
      SettlingIsSane(s.sockets, s.handshakeSettle.value, s.socket, s.candidate, s.connectGeneration);
    }
  }

  // ---- Connecting and scheduling ------------------------------------------

  /** A refresh attempt leaves the live socket alone. */
  lemma DeferredAttemptKeepsInv(s: Stream, isRecovery: bool)
    requires Sane(s) && AttemptsFine(s) && IsActive(s) && NoTimers(s)
    requires LiveOk(s.sockets, s.socket, s.connectGeneration)
    requires s.connectReason == Refresh && IsConnected(s)
    requires s.candidate.None? && IsEstablished(s.sockets, s.socket) && Unowned(s)
    ensures Inv(BeginAttempt(s, isRecovery))
  {
    hide SocketsSane, AttemptsOk, NobodyOwns, OnlyRefreshOwns;
    var a := Attempt(true, s.connectGeneration, true);
    SettleHandshakeIsSane(s);
    AppendOwner(s.attempts, a, s.connectGeneration);
  }

  /** Any other attempt first tears both sockets down and supersedes every earlier one. */
  lemma FreshAttemptKeepsInv(s: Stream, isRecovery: bool)
    requires Sane(s) && AttemptsFine(s) && IsActive(s) && NoTimers(s)
    requires s.connectReason != Refresh || !IsConnected(s)
    ensures Inv(BeginAttempt(s, isRecovery))
  {
    hide CloseSocket, Untimed, SocketsSane, AttemptsOk, NobodyOwns, OnlyRefreshOwns;
    var a := Attempt(false, s.connectGeneration, true);
    var bumped := s.(connectGeneration := s.connectGeneration + 1);
    BumpIsSane(s.sockets, s.socket, s.candidate, s.connectGeneration);
    TeardownIsSane(bumped);
    SettleHandshakeIsSane(DisposeSocket(DisposeCandidate(bumped)));
    BumpSupersedesAll(s.attempts, s.connectGeneration);
    AppendOwner(s.attempts, a, s.connectGeneration + 1);
  }

  /** A connection attempt begun with no timer armed keeps the invariant. */
  lemma ConnectKeepsInv(s: Stream, isRecovery: bool)
    requires Sane(s) && AttemptsFine(s) && IsActive(s) && NoTimers(s)
    requires LiveOk(s.sockets, s.socket, s.connectGeneration)
    requires s.connectReason == Refresh && IsConnected(s) ==>
               s.candidate.None? && IsEstablished(s.sockets, s.socket) && Unowned(s)
    ensures Inv(Connect(s, isRecovery))
  {
    if s.connectReason == Refresh && IsConnected(s) {
      DeferredAttemptKeepsInv(s, isRecovery);
    } else {
      FreshAttemptKeepsInv(s, isRecovery);
    }
  }

  /** Ready to have its drop retried: nothing open, nothing shaking hands, nothing else armed. */
  predicate IsDown(s: Stream) {
    && Sane(s) && AttemptsFine(s) && IsActive(s) && LiveOk(s.sockets, s.socket, s.connectGeneration)
    && s.candidate.None? && s.refreshTimer.None? && !HasRefreshRetry(s)
    && !IsConnected(s) && !IsHandshaking(s.sockets, s.socket)
    && (s.reconnectTimer.Some? ==> s.recoveryTimer.None?)
    && OnlyRefreshOwns(s.attempts, s.connectGeneration)
  }

  /** Giving up counts, announces and arms the recovery; everything else is left alone. */
  lemma GivingUpLeaves(s: Stream)
    ensures var t := GiveUp(s);
            && t.now == s.now && t.marks == s.marks && t.attempts == s.attempts && t.sockets == s.sockets
            && t.socket == s.socket && t.candidate == s.candidate && t.connectGeneration == s.connectGeneration
            && t.hasStarted == s.hasStarted && t.isStopped == s.isStopped && t.consecutiveFailures == s.consecutiveFailures
            && t.reconnectTimer == s.reconnectTimer && t.refreshTimer == s.refreshTimer
            && t.hasGivenUp
            && t.recoveryTimer == if s.isStopped || s.recoveryTimer.Some? then s.recoveryTimer
                                  else Some(s.now + WEBSOCKET_RECOVERY_INTERVAL_MS as real)
  {
  }

  lemma ScheduleReconnectKeepsInv(s: Stream, random: Draw)
    requires IsDown(s)
    ensures Inv(ScheduleReconnect(s, random)) && DropPending(ScheduleReconnect(s, random))
  {
    hide ReconnectDelay, SocketsSane, AttemptsOk, GiveUp;
    GivingUpLeaves(s.(consecutiveFailures := s.consecutiveFailures + 1));
  }

  lemma ScheduleRefreshRetryKeepsInv(s: Stream)
    requires Sane(s) && AttemptsFine(s) && IsActive(s) && LiveOk(s.sockets, s.socket, s.connectGeneration)
    requires s.candidate.None? && NoTimers(s) && IsEstablished(s.sockets, s.socket) && Unowned(s)
    ensures Inv(ScheduleRefreshRetry(s))
  {
  }

  /** A start clears every timer before it connects, whatever ran before. */
  lemma StartKeepsInv(s: Stream)
    requires Inv(s)
    ensures Inv(Apply(s, Start))
  {
    hide SocketsSane, AttemptsOk, NobodyOwns, OnlyRefreshOwns, BeginAttempt;
    ConnectKeepsInv(ResetForStart(s), false);
  }

  lemma StopKeepsInv(s: Stream)
    requires Inv(s)
    ensures Inv(Apply(s, Stop))
  {
    hide CloseSocket, Untimed, IsCurrent, SocketsSane, AttemptsOk, NobodyOwns;
    BumpIsSane(s.sockets, s.socket, s.candidate, s.connectGeneration);
    BumpSupersedesAll(s.attempts, s.connectGeneration);
    var halted := ClearTimers(s.(isStopped := true, connectGeneration := s.connectGeneration + 1,
                                 isConnecting := false));
    SettleHandshakeIsSane(halted);
    TeardownIsSane(SettleHandshake(halted));
  }

  lemma ElapseKeepsInv(s: Stream, ms: real)
    requires Inv(s) && Enabled(s, Elapse(ms))
    ensures Inv(Apply(s, Elapse(ms)))
  {
    hide SocketsSane, AttemptsOk, NobodyOwns, OnlyRefreshOwns;
  }

  lemma RefreshFiresKeepsInv(s: Stream)
    requires Inv(s) && Enabled(s, RefreshFires)
    ensures Inv(Apply(s, RefreshFires))
  {
    ConnectKeepsInv(s.(refreshTimer := None, reconnectTimer := None, connectReason := Refresh), false);
  }

  lemma ReconnectFiresKeepsInv(s: Stream)
    requires Inv(s) && Enabled(s, ReconnectFires)
    ensures Inv(Apply(s, ReconnectFires))
  {
    var cleared := s.(reconnectTimer := None);
    if s.reconnectTimer.value.isRefreshRetry {
      ConnectKeepsInv(cleared.(connectReason := Refresh), false);
    } else {
      ConnectKeepsInv(cleared, false);
    }
  }

  lemma RecoveryFiresKeepsInv(s: Stream)
    requires Inv(s) && Enabled(s, RecoveryFires)
    ensures Inv(Apply(s, RecoveryFires))
  {
    ConnectKeepsInv(s.(recoveryTimer := None, consecutiveFailures := 0, connectReason := Drop), true);
  }

  // ---- Handshake outcomes -------------------------------------------------

  /** The socket that opened becomes the live one; the one it replaces, if any, goes deaf. */
  lemma OpeningIsSane(sockets: seq<Socket>, i: nat, socket: Option<nat>, candidate: Option<nat>, generation: nat)
    requires SocketsSane(sockets, socket, candidate, generation) && i < |sockets| && sockets[i].listening
    requires (candidate == Some(i)) || (socket == Some(i) && candidate.None?)
    ensures var previous := if candidate == Some(i) then socket else None;
            var after := Untimed(CloseSocket(SetReady(sockets, i, Open), previous), i);
            && SocketsSane(after, Some(i), None, generation)
            && IsEstablished(after, Some(i))
            && LiveOk(after, Some(i), generation)
  {
    var previous := if candidate == Some(i) then socket else None;
    var after := Untimed(CloseSocket(SetReady(sockets, i, Open), previous), i);
    forall j: nat | j < |sockets|
      ensures SocketOk(after[j], j, Some(i), None, generation)
    {
      assert SocketOk(sockets[j], j, socket, candidate, generation);
    }
  }

  lemma HandleOpenKeepsInv(s: Stream, i: nat, random: Draw)
    requires AttemptsFine(s) && IsActive(s) && NoTimers(s) && Unowned(s)
    requires s.socket == Some(i) && s.candidate.None?
    requires SocketsSane(Untimed(s.sockets, i), Some(i), None, s.connectGeneration)
    requires IsEstablished(Untimed(s.sockets, i), Some(i)) && LiveOk(Untimed(s.sockets, i), Some(i), s.connectGeneration)
    ensures Inv(Settle(HandleOpen(s, random), i))
  {
    hide RefreshDelay, SocketsSane, AttemptsOk, Untimed;
  }

  lemma SocketOpensKeepsInv(s: Stream, i: nat, random: Draw)
    requires Inv(s) && Enabled(s, SocketOpens(i, random))
    ensures Inv(Apply(s, SocketOpens(i, random)))
  {
    assert SocketOk(s.sockets[i], i, s.socket, s.candidate, s.connectGeneration);
    var up := s.(sockets := SetReady(s.sockets, i, Open));
    if s.sockets[i].listening {
      OpeningIsSane(s.sockets, i, s.socket, s.candidate, s.connectGeneration);
      if s.candidate == Some(i) {
        HandleOpenKeepsInv(up.(candidate := None, socket := Some(i), sockets := CloseSocket(up.sockets, up.socket)),
                           i, random);
      } else {
        HandleOpenKeepsInv(up, i, random);
      }
    }
  }

  /** Settling a handshake that is neither the live one's nor the candidate's changes nothing that matters. */
  lemma SettleStrangerKeepsInv(s: Stream, i: nat)
    requires Inv(s) && s.socket != Some(i) && s.candidate != Some(i)
    ensures Inv(Settle(s, i))
  {
    SettlingIsSane(s.sockets, i, s.socket, s.candidate, s.connectGeneration);
    hide SocketsSane, AttemptsOk, NobodyOwns, OnlyRefreshOwns;
  }

  /** Whether the connecting flag is up is no part of the invariant. */
  lemma IdlingKeepsInv(s: Stream)
    requires Inv(s)
    ensures Inv(s.(isConnecting := false))
  {
    hide SocketsSane, AttemptsOk, NobodyOwns, OnlyRefreshOwns;
  }

  lemma HandshakeFiresKeepsInv(s: Stream, i: nat, random: Draw)
    requires Inv(s) && Enabled(s, HandshakeFires(i, random))
    ensures Inv(Apply(s, HandshakeFires(i, random)))
  {
    hide SocketsSane, AttemptsOk, NobodyOwns, OnlyRefreshOwns, CloseSocket, Untimed, ScheduleReconnect;
    var idle := s.(isConnecting := false);
    var k := s.sockets[i];
    if k.generation != s.connectGeneration {
      SettleStrangerKeepsInv(s, i);
    } else if s.candidate == Some(i) && IsConnected(s) {
      CandidateTimesOut(s, i);
    } else if s.socket != Some(i) && s.candidate != Some(i) {
      IdlingKeepsInv(s);
      SettleStrangerKeepsInv(idle, i);
    } else {
      HandshakeIsGivenUp(s, i);
      ScheduleReconnectKeepsInv(Settle(DisposeSocket(DisposeCandidate(idle)), i), random);
    }
  }

  /** A hung refresh candidate goes; the open live socket stays. */
  lemma CandidateTimesOut(s: Stream, i: nat)
    requires Inv(s) && s.candidate == Some(i) && IsConnected(s) && i < |s.sockets|
    ensures Inv(ScheduleRefreshRetry(Settle(DisposeCandidate(s.(isConnecting := false)), i)))
  {
    DroppingCandidateIsSane(s.sockets, s.socket, s.candidate, s.connectGeneration);
    var closed := CloseSocket(s.sockets, s.candidate);
    SettlingIsSane(closed, i, s.socket, None, s.connectGeneration);
    assert s.socket != Some(i);
    var after := Settle(DisposeCandidate(s.(isConnecting := false)), i);
    assert IsEstablished(after.sockets, after.socket);
    hide SocketsSane, AttemptsOk, NobodyOwns, OnlyRefreshOwns;
    ScheduleRefreshRetryKeepsInv(after);
  }

  lemma HandshakeIsGivenUp(s: Stream, i: nat)
    requires Inv(s) && IsUnsettled(s.sockets, i) && (s.socket == Some(i) || (s.candidate == Some(i) && !IsConnected(s)))
    ensures IsDown(Settle(DisposeSocket(DisposeCandidate(s.(isConnecting := false))), i))
  {
    hide CloseSocket, Untimed, SocketsSane, AttemptsOk;
    var idle := s.(isConnecting := false);
    TeardownIsSane(idle);
    var down := DisposeSocket(DisposeCandidate(idle));
    SettlingIsSane(down.sockets, i, None, None, s.connectGeneration);
  }

  lemma SocketStartsClosingKeepsInv(s: Stream, i: nat)
    requires Inv(s) && Enabled(s, SocketStartsClosing(i))
    ensures Inv(Apply(s, SocketStartsClosing(i)))
  {
    var after := SetReady(s.sockets, i, Closing);
    forall j: nat | j < |after| ensures SocketOk(after[j], j, s.socket, s.candidate, s.connectGeneration) {
      assert SocketOk(s.sockets[j], j, s.socket, s.candidate, s.connectGeneration);
    }
    assert SocketsSane(after, s.socket, s.candidate, s.connectGeneration);
    assert IsEstablished(s.sockets, s.socket) <==> IsEstablished(after, s.socket) by {
      assert SocketOk(s.sockets[i], i, s.socket, s.candidate, s.connectGeneration);
    }
    hide SocketsSane, AttemptsOk, NobodyOwns, OnlyRefreshOwns;
  }

  lemma SocketFailsKeepsInv(s: Stream, i: nat)
    requires Inv(s) && Enabled(s, SocketFails(i))
    ensures Inv(Apply(s, SocketFails(i)))
  {
    hide Inv;
  }

  lemma FrameArrivesKeepsInv(s: Stream, i: nat)
    requires Inv(s) && Enabled(s, FrameArrives(i))
    ensures Inv(Apply(s, FrameArrives(i)))
  {
    hide SocketsSane, AttemptsOk, NobodyOwns, OnlyRefreshOwns;
  }

  // ---- Closes -------------------------------------------------------------

  /** A drop may be scheduled before the handshake that reported it has settled. */
  lemma DropThenSettleKeepsInv(s: Stream, i: nat, random: Draw)
    requires IsDown(Settle(Dropped(s), i))
    ensures Inv(Settle(ScheduleReconnect(Dropped(s), random), i))
  {
    hide ReconnectDelay, SocketsSane, AttemptsOk, Untimed;
  }

  lemma RetryThenSettleKeepsInv(s: Stream, i: nat)
    requires var t := Settle(s, i);
             && Sane(t) && AttemptsFine(t) && IsActive(t) && LiveOk(t.sockets, t.socket, t.connectGeneration)
             && t.candidate.None? && NoTimers(t) && IsEstablished(t.sockets, t.socket) && Unowned(t)
    ensures Inv(Settle(ScheduleRefreshRetry(s), i))
  {
    hide SocketsSane, AttemptsOk, Untimed;
  }

  /** The sockets after socket `i` reported its close and its handshake settled. */
  function ClosedAt(sockets: seq<Socket>, i: nat): seq<Socket> {
    Untimed(SetReady(sockets, i, Closed), i)
  }

  lemma ClosingIsSane(sockets: seq<Socket>, i: nat, socket: Option<nat>, candidate: Option<nat>, generation: nat)
    requires SocketsSane(sockets, socket, candidate, generation) && i < |sockets|
    ensures SocketsSane(ClosedAt(sockets, i), socket, if candidate == Some(i) then None else candidate, generation)
  {
    var after := ClosedAt(sockets, i);
    forall j: nat | j < |after|
      ensures SocketOk(after[j], j, socket, if candidate == Some(i) then None else candidate, generation)
    {
      assert SocketOk(sockets[j], j, socket, candidate, generation);
    }
  }

  lemma CandidateClosesKeepsInv(s: Stream, i: nat, random: Draw)
    requires Inv(s) && Enabled(s, SocketCloses(i, random)) && s.candidate == Some(i)
    ensures Inv(Apply(s, SocketCloses(i, random)))
  {
    ClosingIsSane(s.sockets, i, s.socket, s.candidate, s.connectGeneration);
    var closed := s.(sockets := SetReady(s.sockets, i, Closed));
    var gone := closed.(candidate := None, isConnecting := false);
    var after := Settle(gone, i);
    assert after.sockets == ClosedAt(s.sockets, i);
    assert IsEstablished(after.sockets, after.socket);
    assert LiveOk(after.sockets, after.socket, after.connectGeneration);
    assert IsConnected(after) == IsConnected(gone);
    hide SocketsSane, AttemptsOk, OnlyRefreshOwns, Untimed, SetReady, ScheduleReconnect, ScheduleRefreshRetry;
    if IsConnected(gone) {
      RetryThenSettleKeepsInv(gone, i);
    } else {
      DropThenSettleKeepsInv(gone, i, random);
    }
  }

  lemma LiveClosesKeepsInv(s: Stream, i: nat, random: Draw)
    requires Inv(s) && Enabled(s, SocketCloses(i, random)) && s.socket == Some(i)
    ensures Inv(Apply(s, SocketCloses(i, random)))
  {
    var closed := s.(sockets := SetReady(s.sockets, i, Closed));
    var alone := DisposeCandidate(closed);
    var after := Settle(alone, i);
    DroppingCandidateIsSane(s.sockets, s.socket, s.candidate, s.connectGeneration);
    ClosingIsSane(CloseSocket(s.sockets, s.candidate), i, s.socket, None, s.connectGeneration);
    assert after.sockets == ClosedAt(CloseSocket(s.sockets, s.candidate), i);
    assert OnlyRefreshOwns(s.attempts, s.connectGeneration);
    hide SocketsSane, AttemptsOk, OnlyRefreshOwns, NobodyOwns, ScheduleReconnect;
    DropThenSettleKeepsInv(alone, i, random);
  }

  lemma SocketClosesKeepsInv(s: Stream, i: nat, random: Draw)
    requires Inv(s) && Enabled(s, SocketCloses(i, random))
    ensures Inv(Apply(s, SocketCloses(i, random)))
  {
    if s.candidate == Some(i) {
      CandidateClosesKeepsInv(s, i, random);
    } else if s.socket == Some(i) {
      LiveClosesKeepsInv(s, i, random);
    } else {
      assert SocketOk(s.sockets[i], i, s.socket, s.candidate, s.connectGeneration);
      assert !s.sockets[i].listening;
      var after := SetReady(s.sockets, i, Closed);
      forall j: nat | j < |after| ensures SocketOk(after[j], j, s.socket, s.candidate, s.connectGeneration) {
        assert SocketOk(s.sockets[j], j, s.socket, s.candidate, s.connectGeneration);
      }
      assert SocketsSane(after, s.socket, s.candidate, s.connectGeneration);
      hide SocketsSane, AttemptsOk, NobodyOwns, OnlyRefreshOwns;
    }
  }

  // ---- Tokens -------------------------------------------------------------

  /** The one attempt that still owns the connection decides which kind of attempt owns it. */
  lemma OwnerIsUnique(attempts: seq<Attempt>, k: nat, generation: nat)
    requires AttemptsOk(attempts, generation) && k < |attempts| && IsCurrent(attempts[k], generation)
    ensures !NobodyOwns(attempts, generation)
    ensures OnlyRefreshOwns(attempts, generation) <==> attempts[k].shouldDeferDispose
  {
    forall j | 0 <= j < |attempts| && IsCurrent(attempts[j], generation) ensures j == k {
      if j < k {
        assert false;
      }
    }
  }

  /** The answer to a fetch that has been superseded changes nothing but its own bookkeeping. */
  lemma SupersededFetchKeepsInv(s: Stream, k: nat)
    requires Inv(s) && k < |s.attempts| && s.attempts[k].isPending && IsSuperseded(s, s.attempts[k])
    ensures Inv(FetchSettled(s, k))
  {
    FetchSettledEffect(s.attempts, k, s.connectGeneration);
    var after := FetchSettled(s, k).attempts;
    assert OnlyRefreshOwns(s.attempts, s.connectGeneration) ==> OnlyRefreshOwns(after, s.connectGeneration);
    if OnlyRefreshOwns(after, s.connectGeneration) {
      forall j | 0 <= j < |s.attempts| && IsCurrent(s.attempts[j], s.connectGeneration)
        ensures s.attempts[j].shouldDeferDispose
      {
        assert IsCurrent(after[j], s.connectGeneration);
      }
    }
    hide SocketsSane, AttemptsOk, NobodyOwns, OnlyRefreshOwns;
  }

  /** What holds once the owner's fetch has been answered, whichever way. */
  predicate IsAnswered(s: Stream, isRefresh: bool) {
    && Sane(s) && AttemptsFine(s) && IsActive(s) && Unowned(s) && OnlyRefreshOwns(s.attempts, s.connectGeneration)
    && LiveOk(s.sockets, s.socket, s.connectGeneration)
    && s.candidate.None? && s.refreshTimer.None? && !HasRefreshRetry(s)
    && !IsHandshaking(s.sockets, s.socket)
    && (s.reconnectTimer.Some? ==> s.recoveryTimer.None?)
    && (DropPending(s) ==> !IsConnected(s))
    && (isRefresh ==> IsEstablished(s.sockets, s.socket) || DropPending(s))
    && (!isRefresh ==> s.socket.None? && NoTimers(s))
  }

  lemma OwnersFetchIsAnswered(s: Stream, k: nat)
    requires Inv(s) && k < |s.attempts| && s.attempts[k].isPending && !IsSuperseded(s, s.attempts[k])
    ensures IsAnswered(FetchSettled(s, k), s.attempts[k].shouldDeferDispose)
  {
    OwnerIsUnique(s.attempts, k, s.connectGeneration);
    FetchSettledEffect(s.attempts, k, s.connectGeneration);
    var after := FetchSettled(s, k).attempts;
    assert OnlyRefreshOwns(after, s.connectGeneration);
    hide SocketsSane, AttemptsOk, NobodyOwns, OnlyRefreshOwns;
  }

  lemma AbandonedRefreshKeepsInv(s: Stream)
    requires IsAnswered(s, true)
    ensures Inv(s) && Inv(s.(isConnecting := false))
  {
    hide SocketsSane, AttemptsOk, NobodyOwns, OnlyRefreshOwns;
  }

  lemma TokenFailsKeepsInv(s: Stream, k: nat, random: Draw)
    requires Inv(s) && Enabled(s, TokenFails(k, random))
    ensures Inv(Apply(s, TokenFails(k, random)))
  {
    var a := s.attempts[k];
    if IsSuperseded(s, a) {
      SupersededFetchKeepsInv(s, k);
    } else {
      OwnersFetchIsAnswered(s, k);
      FailureOfOwnerKeepsInv(FetchSettled(s, k), a, random);
    }
  }

  lemma FailureOfOwnerKeepsInv(s: Stream, a: Attempt, random: Draw)
    requires IsAnswered(s, a.shouldDeferDispose) && !IsSuperseded(s, a)
    ensures Inv(HandleConnectFailure(s, a, random))
  {
    hide SocketsSane, AttemptsOk, NobodyOwns, OnlyRefreshOwns, ScheduleReconnect, ScheduleRefreshRetry;
    var idle := s.(isConnecting := false);
    if DropOwns(s, a) {
      AbandonedRefreshKeepsInv(s);
    } else if a.shouldDeferDispose {
      ScheduleRefreshRetryKeepsInv(idle);
    } else {
      ScheduleReconnectKeepsInv(idle, random);
    }
  }

  /** A new socket is added in the slot just emptied for it. */
  lemma AddingSocketIsSane(sockets: seq<Socket>, k: Socket, socket: Option<nat>, generation: nat, asCandidate: bool)
    requires SocketsSane(sockets, socket, None, generation)
    requires k.ready == Connecting && k.listening && k.generation == generation
    requires !asCandidate ==> socket.None?
    ensures var i := Some(|sockets|);
            SocketsSane(sockets + [k], if asCandidate then socket else i, if asCandidate then i else None, generation)
  {
    var after := sockets + [k];
    var i := Some(|sockets|);
    forall j: nat | j < |after|
      ensures SocketOk(after[j], j, if asCandidate then socket else i, if asCandidate then i else None, generation)
    {
      if j < |sockets| {
        assert SocketOk(sockets[j], j, socket, None, generation);
      }
    }
  }

  lemma CandidateOpensKeepsInv(s: Stream, a: Attempt, throws: bool, random: Draw)
    requires IsAnswered(s, true) && a.shouldDeferDispose && !IsSuperseded(s, a) && IsConnected(s)
    requires s.reconnectTimer.None?
    ensures Inv(OpenSocket(s, a, throws, random))
  {
    BumpIsSane(s.sockets, s.socket, None, s.connectGeneration);
    BumpSupersedesAll(s.attempts, s.connectGeneration);
    assert OnlyRefreshOwns(s.attempts, s.connectGeneration + 1);
    var k := Socket(Connecting, true, true, s.connectGeneration + 1,
                    Some(s.now + WEBSOCKET_HANDSHAKE_TIMEOUT_MS as real));
    AddingSocketIsSane(s.sockets, k, s.socket, s.connectGeneration + 1, true);
    hide SocketsSane, AttemptsOk, NobodyOwns, OnlyRefreshOwns, ScheduleReconnect, ScheduleRefreshRetry;
    var after := OpenSocket(s, a, throws, random);
    assert IsEstablished(after.sockets, after.socket);
  }

  lemma LiveSocketOpensKeepsInv(s: Stream, a: Attempt, throws: bool, random: Draw)
    requires IsAnswered(s, false) && !a.shouldDeferDispose && !IsSuperseded(s, a)
    ensures Inv(OpenSocket(s, a, throws, random))
  {
    var k := Socket(Connecting, true, false, s.connectGeneration,
                    Some(s.now + WEBSOCKET_HANDSHAKE_TIMEOUT_MS as real));
    AddingSocketIsSane(s.sockets, k, None, s.connectGeneration, false);
    if throws {
      FailureOfOwnerKeepsInv(s, a, random);
    }
    hide SocketsSane, AttemptsOk, NobodyOwns, OnlyRefreshOwns, ScheduleReconnect, ScheduleRefreshRetry;
  }

  lemma TokenArrivesKeepsInv(s: Stream, k: nat, throws: bool, random: Draw)
    requires Inv(s) && Enabled(s, TokenArrives(k, throws, random))
    ensures Inv(Apply(s, TokenArrives(k, throws, random)))
  {
    hide OpenSocket, SocketsSane, AttemptsOk, NobodyOwns, OnlyRefreshOwns;
    var a := s.attempts[k];
    if IsSuperseded(s, a) {
      SupersededFetchKeepsInv(s, k);
    } else {
      OwnersFetchIsAnswered(s, k);
      var answered := FetchSettled(s, k);
      if DropOwns(s, a) {
        AbandonedRefreshKeepsInv(answered);
      } else if a.shouldDeferDispose {
        CandidateOpensKeepsInv(answered, a, throws, random);
      } else {
        LiveSocketOpensKeepsInv(answered, a, throws, random);
      }
    }
  }

  // ---- Every event, every run ---------------------------------------------

  lemma StepKeepsInv(s: Stream, e: Event)
    requires Inv(s)
    ensures Inv(Step(s, e))
  {
    hide Inv, Apply;
    if Enabled(s, e) {
      match e
      case Start => StartKeepsInv(s);
      case Stop => StopKeepsInv(s);
      case Elapse(ms) => ElapseKeepsInv(s, ms);
      case RefreshFires => RefreshFiresKeepsInv(s);
      case ReconnectFires => ReconnectFiresKeepsInv(s);
      case RecoveryFires => RecoveryFiresKeepsInv(s);
      case HandshakeFires(i, random) => HandshakeFiresKeepsInv(s, i, random);
      case TokenArrives(k, throws, random) => TokenArrivesKeepsInv(s, k, throws, random);
      case TokenFails(k, random) => TokenFailsKeepsInv(s, k, random);
      case SocketOpens(i, random) => SocketOpensKeepsInv(s, i, random);
      case SocketStartsClosing(i) => SocketStartsClosingKeepsInv(s, i);
      case SocketCloses(i, random) => SocketClosesKeepsInv(s, i, random);
      case SocketFails(i) => SocketFailsKeepsInv(s, i);
      case FrameArrives(i) => FrameArrivesKeepsInv(s, i);
    }
  }

  /** The structural invariant holds in every reachable state. */
  lemma {:induction false} RunKeepsInv(events: seq<Event>)
    ensures Inv(Run(FRESH, events))
  {
    if events == [] {
      FreshIsQuiet();
    } else {
      hide Inv;
      RunKeepsInv(events[..|events| - 1]);
      StepKeepsInv(Run(FRESH, events[..|events| - 1]), events[|events| - 1]);
    }
  }
}
