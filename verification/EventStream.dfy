/**
 * The `EventStream` class, field by field and handler by handler. Every method is proved to
 * take the state where the specification in `StreamSpec` says, so the theorems about all
 * runs of that specification are theorems about this code.
 */
module EventStreams {
  import opened Options
  import opened Settings
  import opened StreamSpec

  class EventStream {
    // The environment: the clock, the sockets and the token fetches.
    var now: real
    var sockets: seq<Socket>
    var attempts: seq<Attempt>
    // What the outside has seen.
    ghost var marks: seq<Mark>
    ghost var notices: seq<Notice>
    ghost var frames: seq<nat>
    ghost var hasStarted: bool

    var socket: Option<nat>
    var candidate: Option<nat>
    var reconnectTimer: Option<ReconnectTimer>
    var refreshTimer: Option<real>
    var recoveryTimer: Option<real>
    var consecutiveFailures: nat
    var isStopped: bool
    var isConnecting: bool
    var hadConnected: bool
    var hasGivenUp: bool
    var giveUpCount: nat
    var disconnectedAt: Option<real>
    var handshakeSettle: Option<nat>
    var connectGeneration: nat
    var connectReason: Reason

    ghost function State(): Stream
      reads this
    {
      Stream(now, sockets, attempts, marks, notices, frames, hasStarted, socket, candidate, reconnectTimer,
             refreshTimer, recoveryTimer, consecutiveFailures, isStopped, isConnecting, hadConnected, hasGivenUp,
             giveUpCount, disconnectedAt, handshakeSettle, connectGeneration, connectReason)
    }

    constructor ()
      ensures State() == FRESH
    {
      now, sockets, attempts := 0.0, [], [];
      marks, notices, frames, hasStarted := [], [], [], false;
      socket, candidate, reconnectTimer, refreshTimer, recoveryTimer := None, None, None, None, None;
      consecutiveFailures, giveUpCount, connectGeneration := 0, 0, 0;
      isStopped, isConnecting, hadConnected, hasGivenUp := false, false, false, false;
      disconnectedAt, handshakeSettle, connectReason := None, None, Initial;
    }

    /** The `isConnected` getter. */
    method Connected() returns (open: bool)
      ensures open == IsConnected(State())
    {
      open := socket.Some? && socket.value < |sockets| && sockets[socket.value].ready == Open;
    }

    method Superseded(a: Attempt) returns (superseded: bool)
      ensures superseded == IsSuperseded(State(), a)
    {
      if a.shouldDeferDispose {
        superseded := a.generationBeforeFetch != connectGeneration;
      } else {
        superseded := a.generationBeforeFetch + 1 != connectGeneration;
      }
    }

    // ---- Disposal and settling --------------------------------------------

    method CloseOne(i: Option<nat>)
      modifies this`sockets
      ensures sockets == CloseSocket(old(sockets), i)
    {
      if i.None? || i.value >= |sockets| {
        return;
      }
      var k := sockets[i.value];
      k := k.(listening := false);
      if k.ready != Closed {
        k := k.(ready := Closing);
      }
      sockets := sockets[i.value := k];
    }

    method RecordDisconnect()
      modifies this`disconnectedAt
      ensures disconnectedAt == NoteDisconnect(old(disconnectedAt), now)
    {
      if disconnectedAt.None? {
        disconnectedAt := Some(now);
      }
    }

    method DropSocket()
      modifies this`socket, this`sockets, this`disconnectedAt
      ensures State() == DisposeSocket(old(State()))
    {
      if socket.None? {
        return;
      }
      var wasOpen := Connected();
      var dying := socket;
      socket := None;
      if wasOpen || hadConnected {
        RecordDisconnect();
      }
      CloseOne(dying);
    }

    method DropCandidate()
      modifies this`candidate, this`sockets
      ensures State() == DisposeCandidate(old(State()))
    {
      if candidate.None? {
        return;
      }
      var dying := candidate;
      candidate := None;
      CloseOne(dying);
    }

    /** The `settle` closure: the second call finds the handshake settled and returns. */
    method SettleOne(i: nat)
      modifies this`sockets, this`handshakeSettle
      ensures State() == Settle(old(State()), i)
    {
      if i >= |sockets| {
        return;
      }
      if sockets[i].handshakeTimer.None? {
        assert sockets[i := sockets[i].(handshakeTimer := None)] == sockets;
        return;
      }
      sockets := sockets[i := sockets[i].(handshakeTimer := None)];
      handshakeSettle := None;
    }

    method SettlePending()
      modifies this`sockets, this`handshakeSettle
      ensures State() == SettleHandshake(old(State()))
    {
      var pending := handshakeSettle;
      handshakeSettle := None;
      if pending.Some? {
        SettleOne(pending.value);
      }
    }

    method CancelTimers()
      modifies this`reconnectTimer, this`refreshTimer, this`recoveryTimer
      ensures State() == ClearTimers(old(State()))
    {
      if reconnectTimer.Some? {
        reconnectTimer := None;
      }
      if refreshTimer.Some? {
        refreshTimer := None;
      }
      if recoveryTimer.Some? {
        recoveryTimer := None;
      }
    }

    // ---- Scheduling -------------------------------------------------------

    method ArmRefreshRetry()
      modifies this`connectReason, this`reconnectTimer
      ensures State() == ScheduleRefreshRetry(old(State()))
    {
      if isStopped || reconnectTimer.Some? {
        return;
      }
      connectReason := Refresh;
      reconnectTimer := Some(ReconnectTimer(now + WEBSOCKET_RECONNECT_BASE_MS as real, true));
    }

    method ArmRecovery()
      modifies this`recoveryTimer
      ensures State() == ScheduleRecovery(old(State()))
    {
      if isStopped || recoveryTimer.Some? {
        return;
      }
      recoveryTimer := Some(now + WEBSOCKET_RECOVERY_INTERVAL_MS as real);
    }

    /** Tell the platform once per outage, then wait out the recovery interval. */
    method GiveUpNow()
      modifies this`hasGivenUp, this`giveUpCount, this`notices, this`recoveryTimer
      ensures State() == GiveUp(old(State()))
    {
      hide ScheduleRecovery;
      CountGiveUp();
      if giveUpCount == 1 {
        notices := notices + [Unavailable];
      }
      ArmRecovery();
    }

    method CountGiveUp()
      modifies this`hasGivenUp, this`giveUpCount
      ensures State() == old(State()).(hasGivenUp := true, giveUpCount := old(giveUpCount) + 1)
    {
      hasGivenUp := true;
      giveUpCount := giveUpCount + 1;
    }

    method ArmReconnect(random: Draw)
      modifies this
      ensures State() == ScheduleReconnect(old(State()), random)
    {
      hide ReconnectDelay, GiveUp;
      if isStopped || reconnectTimer.Some? || recoveryTimer.Some? {
        return;
      }
      consecutiveFailures := consecutiveFailures + 1;
      if consecutiveFailures > WEBSOCKET_MAX_FAILURES {
        GiveUpNow();
        return;
      }
      ArmDropRetry(ReconnectDelay(consecutiveFailures, random));
    }

    method ArmDropRetry(delay: real)
      modifies this`connectReason, this`reconnectTimer
      ensures State() == old(State()).(connectReason := Drop, reconnectTimer := Some(ReconnectTimer(now + delay, false)))
    {
      connectReason := Drop;
      reconnectTimer := Some(ReconnectTimer(now + delay, false));
    }

    // ---- Connecting -------------------------------------------------------

    method Begin(ghost isRecovery: bool)
      modifies this
      ensures State() == BeginAttempt(old(State()), isRecovery)
    {
      hide DisposeSocket, DisposeCandidate, SettleHandshake, IsOpen;
      var connected := Connected();
      var shouldDeferDispose := connectReason == Refresh && connected;
      var generationBeforeFetch := connectGeneration;
      if !shouldDeferDispose {
        BumpGeneration();
        DropCandidate();
        DropSocket();
      }
      SettlePending();
      RequestToken(Attempt(shouldDeferDispose, generationBeforeFetch, true), isRecovery);
    }

    method BumpGeneration()
      modifies this`connectGeneration
      ensures State() == old(State()).(connectGeneration := old(connectGeneration) + 1)
    {
      connectGeneration := connectGeneration + 1;
    }

    method RequestToken(a: Attempt, ghost isRecovery: bool)
      modifies this`isConnecting, this`marks, this`attempts
      ensures State() == old(State()).(isConnecting := true, attempts := old(attempts) + [a],
                                       marks := old(marks) + [Asked(now, a.shouldDeferDispose, isRecovery)])
    {
      isConnecting := true;
      marks := marks + [Asked(now, a.shouldDeferDispose, isRecovery)];
      attempts := attempts + [a];
    }

    method BeginConnect(ghost isRecovery: bool)
      modifies this
      ensures State() == Connect(old(State()), isRecovery)
    {
      hide BeginAttempt;
      if isStopped {
        return;
      }
      Begin(isRecovery);
    }

    method ReconnectFor(reason: Reason)
      modifies this
      ensures State() == Reconnect(old(State()), reason)
    {
      hide Connect;
      if reconnectTimer.Some? {
        reconnectTimer := None;
      }
      connectReason := reason;
      BeginConnect(false);
    }

    /** `new WebSocket`, its listeners and its handshake timer. */
    method AttachHandshake(isRefreshCandidate: bool)
      modifies this`sockets, this`handshakeSettle
      ensures State() == AwaitHandshake(old(State()), isRefreshCandidate)
    {
      var timeout := now + WEBSOCKET_HANDSHAKE_TIMEOUT_MS as real;
      handshakeSettle := Some(|sockets|);
      sockets := sockets + [Socket(Connecting, true, isRefreshCandidate, connectGeneration, Some(timeout))];
    }

    method FailConnect(a: Attempt, random: Draw)
      modifies this
      ensures State() == HandleConnectFailure(old(State()), a, random)
    {
      hide ScheduleReconnect;
      var superseded := Superseded(a);
      if isStopped || superseded {
        return;
      }
      var connected := Connected();
      if a.shouldDeferDispose && (reconnectTimer.Some? || !connected) {
        isConnecting := false;
        return;
      }
      isConnecting := false;
      if a.shouldDeferDispose && connected {
        ArmRefreshRetry();
        return;
      }
      ArmReconnect(random);
    }

    method NewCandidate()
      modifies this`candidate, this`sockets, this`handshakeSettle
      ensures State() == AwaitHandshake(old(State()).(candidate := Some(|old(sockets)|)), true)
    {
      candidate := Some(|sockets|);
      AttachHandshake(true);
    }

    method NewSocket()
      modifies this`socket, this`sockets, this`handshakeSettle
      ensures State() == AwaitHandshake(old(State()).(socket := Some(|old(sockets)|)), false)
    {
      socket := Some(|sockets|);
      AttachHandshake(false);
    }

    /** `#openSocket`: a candidate beside the live socket, or a live socket of its own. */
    method OpenNext(a: Attempt, constructorThrows: bool, random: Draw)
      modifies this
      ensures State() == OpenSocket(old(State()), a, constructorThrows, random)
    {
      hide HandleConnectFailure, DisposeSocket, DisposeCandidate, AwaitHandshake, IsOpen;
      var connected := Connected();
      if a.shouldDeferDispose && connected {
        BumpGeneration();
        DropCandidate();
        if constructorThrows {
          FailConnect(a, random);
          return;
        }
        NewCandidate();
        return;
      }
      DropCandidate();
      DropSocket();
      if constructorThrows {
        FailConnect(a, random);
        return;
      }
      NewSocket();
    }

    // ---- Handshake outcomes -----------------------------------------------

    method ForgetFailures()
      modifies this`consecutiveFailures, this`giveUpCount, this`hasGivenUp
      ensures State() == old(State()).(consecutiveFailures := 0, giveUpCount := 0, hasGivenUp := false)
    {
      consecutiveFailures := 0;
      giveUpCount := 0;
      hasGivenUp := false;
    }

    method NoteConnected()
      modifies this`isConnecting, this`disconnectedAt, this`connectReason, this`hadConnected
      ensures State() == old(State()).(isConnecting := false, disconnectedAt := None, connectReason := Drop,
                                       hadConnected := true)
    {
      isConnecting := false;
      disconnectedAt := None;
      connectReason := Drop;
      hadConnected := true;
    }

    method OpenReported(random: Draw)
      modifies this
      ensures State() == HandleOpen(old(State()), random)
    {
      hide RefreshDelay;
      var wasGivenUp := hasGivenUp;
      ForgetFailures();
      NoteConnected();
      marks := marks + [Opened];
      if wasGivenUp {
        notices := notices + [Recovered];
      }
      refreshTimer := Some(now + RefreshDelay(random));
    }

    method CloseReported(random: Draw)
      modifies this
      ensures State() == HandleClose(old(State()), random)
    {
      hide ScheduleReconnect, Dropped;
      if isStopped {
        return;
      }
      TakeOver();
      ArmReconnect(random);
    }

    /** The drop path owns the next connect: a pending refresh or refresh retry is cancelled. */
    method TakeOver()
      modifies this`isConnecting, this`disconnectedAt, this`refreshTimer, this`reconnectTimer, this`connectReason
      ensures State() == Dropped(old(State()))
    {
      hide NoteDisconnect;
      RecordDisconnect();
      CancelReconnects();
      TurnToDrop();
    }

    method TurnToDrop()
      modifies this`isConnecting, this`connectReason
      ensures State() == old(State()).(isConnecting := false, connectReason := Drop)
    {
      isConnecting := false;
      connectReason := Drop;
    }

    method CancelReconnects()
      modifies this`refreshTimer, this`reconnectTimer
      ensures State() == old(State()).(refreshTimer := None, reconnectTimer := None)
    {
      if refreshTimer.Some? {
        refreshTimer := None;
      }
      if reconnectTimer.Some? {
        reconnectTimer := None;
      }
    }

    method HandshakeTimedOut(i: nat, random: Draw)
      requires i < |sockets|
      modifies this
      ensures State() == OnHandshakeTimeout(old(State()), i, random)
    {
      hide ScheduleReconnect, CloseSocket, Untimed, IsUnsettled, NoteDisconnect;
      var k := sockets[i];
      if k.generation != connectGeneration {
        SettleOne(i);
        return;
      }
      isConnecting := false;
      var connected := Connected();
      if k.isRefreshCandidate && candidate == Some(i) && connected {
        DropCandidate();
        SettleOne(i);
        ArmRefreshRetry();
        return;
      }
      if socket != Some(i) && candidate != Some(i) {
        SettleOne(i);
        return;
      }
      DropCandidate();
      DropSocket();
      SettleOne(i);
      ArmReconnect(random);
    }

    method HandshakeOpened(i: nat, random: Draw)
      requires i < |sockets|
      modifies this
      ensures State() == OnHandshakeOpen(old(State()), i, random)
    {
      hide HandleOpen, CloseSocket, Untimed, IsUnsettled;
      var k := sockets[i];
      if k.generation != connectGeneration {
        SettleOne(i);
        return;
      }
      if k.isRefreshCandidate {
        if candidate != Some(i) {
          SettleOne(i);
          return;
        }
        var previous := socket;
        candidate := None;
        socket := Some(i);
        CloseOne(previous);
        OpenReported(random);
        SettleOne(i);
        return;
      }
      if socket != Some(i) {
        SettleOne(i);
        return;
      }
      OpenReported(random);
      SettleOne(i);
    }

    method HandshakeClosed(i: nat, random: Draw)
      requires i < |sockets|
      modifies this
      ensures State() == OnHandshakeClose(old(State()), i, random)
    {
      hide CloseSocket, Untimed, IsUnsettled, ScheduleReconnect;
      if sockets[i].isRefreshCandidate && candidate == Some(i) {
        LoseCandidate();
        var connected := Connected();
        if connected && !isStopped {
          ArmRefreshRetry();
        } else if !isStopped && !connected {
          CloseReported(random);
        }
        SettleOne(i);
        return;
      }
      if socket == Some(i) {
        DropCandidate();
        if !isStopped {
          CloseReported(random);
        }
      }
      SettleOne(i);
    }

    method LoseCandidate()
      modifies this`candidate, this`isConnecting
      ensures State() == old(State()).(candidate := None, isConnecting := false)
    {
      candidate := None;
      isConnecting := false;
    }

    // ---- What the environment calls ---------------------------------------

    method ForgetConnections()
      modifies this`hadConnected, this`disconnectedAt, this`connectReason
      ensures State() == old(State()).(hadConnected := false, disconnectedAt := None, connectReason := Initial)
    {
      hadConnected := false;
      disconnectedAt := None;
      connectReason := Initial;
    }

    ghost method BeginHistory()
      modifies this`hasStarted, this`marks, this`notices
      ensures State() == old(State()).(hasStarted := true, marks := [], notices := [])
    {
      hasStarted, marks, notices := true, [], [];
    }

    method Start()
      modifies this
      ensures State() == Apply(old(State()), StreamSpec.Start)
    {
      hide Connect;
      isStopped := false;
      ForgetFailures();
      ForgetConnections();
      BeginHistory();
      CancelTimers();
      BeginConnect(false);
    }

    method Halt()
      modifies this`isStopped, this`isConnecting, this`connectGeneration
      ensures State() == old(State()).(isStopped := true, isConnecting := false,
                                       connectGeneration := old(connectGeneration) + 1)
    {
      isStopped := true;
      connectGeneration := connectGeneration + 1;
      isConnecting := false;
    }

    method Stop()
      modifies this
      ensures State() == Apply(old(State()), StreamSpec.Stop)
    {
      hide DisposeSocket, DisposeCandidate, SettleHandshake;
      Halt();
      CancelTimers();
      SettlePending();
      DropCandidate();
      DropSocket();
    }

    method OnRefreshTimer()
      requires Enabled(State(), RefreshFires)
      modifies this
      ensures State() == Apply(old(State()), RefreshFires)
    {
      hide Connect;
      refreshTimer := None;
      ReconnectFor(Refresh);
    }

    method OnReconnectTimer()
      requires Enabled(State(), ReconnectFires)
      modifies this
      ensures State() == Apply(old(State()), ReconnectFires)
    {
      hide Connect;
      var isRefreshRetry := reconnectTimer.value.isRefreshRetry;
      reconnectTimer := None;
      if isRefreshRetry {
        ReconnectFor(Refresh);
      } else {
        BeginConnect(false);
      }
    }

    method OnRecoveryTimer()
      requires Enabled(State(), RecoveryFires)
      modifies this
      ensures State() == Apply(old(State()), RecoveryFires)
    {
      hide Connect;
      recoveryTimer := None;
      if isStopped {
        return;
      }
      ForgiveFailures();
      BeginConnect(true);
    }

    method ForgiveFailures()
      modifies this`consecutiveFailures, this`connectReason
      ensures State() == old(State()).(consecutiveFailures := 0, connectReason := Drop)
    {
      consecutiveFailures := 0;
      connectReason := Drop;
    }

    method OnHandshakeTimer(i: nat, random: Draw)
      requires Enabled(State(), HandshakeFires(i, random))
      modifies this
      ensures State() == Apply(old(State()), HandshakeFires(i, random))
    {
      hide OnHandshakeTimeout;
      HandshakeTimedOut(i, random);
    }

    /** The rest of `#connect` once its token fetch resolves. */
    method OnToken(k: nat, constructorThrows: bool, random: Draw)
      requires Enabled(State(), TokenArrives(k, constructorThrows, random))
      modifies this
      ensures State() == Apply(old(State()), TokenArrives(k, constructorThrows, random))
    {
      hide OpenSocket;
      var a := attempts[k];
      attempts := attempts[k := a.(isPending := false)];
      var superseded := Superseded(a);
      if isStopped {
        if !superseded {
          isConnecting := false;
        }
        return;
      }
      if superseded {
        return;
      }
      var connected := Connected();
      if a.shouldDeferDispose && (reconnectTimer.Some? || !connected) {
        isConnecting := false;
        return;
      }
      OpenNext(a, constructorThrows, random);
    }

    method OnTokenFailure(k: nat, random: Draw)
      requires Enabled(State(), TokenFails(k, random))
      modifies this
      ensures State() == Apply(old(State()), TokenFails(k, random))
    {
      hide HandleConnectFailure;
      var a := attempts[k];
      attempts := attempts[k := a.(isPending := false)];
      FailConnect(a, random);
    }

    method OnOpen(i: nat, random: Draw)
      requires Enabled(State(), SocketOpens(i, random))
      modifies this
      ensures State() == Apply(old(State()), SocketOpens(i, random))
    {
      hide OnHandshakeOpen;
      var listening := sockets[i].listening;
      sockets := sockets[i := sockets[i].(ready := Open)];
      if listening {
        HandshakeOpened(i, random);
      }
    }

    method OnClose(i: nat, random: Draw)
      requires Enabled(State(), SocketCloses(i, random))
      modifies this
      ensures State() == Apply(old(State()), SocketCloses(i, random))
    {
      hide OnHandshakeClose;
      var listening := sockets[i].listening;
      sockets := sockets[i := sockets[i].(ready := Closed)];
      if listening {
        HandshakeClosed(i, random);
      }
    }

    /** A frame is delivered by socket identity, whatever the generation. */
    method OnFrame(i: nat)
      requires Enabled(State(), FrameArrives(i))
      modifies this`frames
      ensures State() == Apply(old(State()), FrameArrives(i))
    {
      if sockets[i].listening && socket == Some(i) {
        frames := frames + [i];
      }
    }

    // ---- What the environment does by itself ------------------------------

    method Elapsed(ms: real)
      requires Enabled(State(), Elapse(ms))
      modifies this`now
      ensures State() == Apply(old(State()), Elapse(ms))
    {
      now := now + ms;
    }

    method StartedClosing(i: nat)
      requires Enabled(State(), SocketStartsClosing(i))
      modifies this`sockets
      ensures State() == Apply(old(State()), SocketStartsClosing(i))
    {
      sockets := sockets[i := sockets[i].(ready := Closing)];
    }

    /** One event, whichever it is; one the environment cannot produce now does nothing. */
    method Handle(e: Event)
      modifies this
      ensures State() == Step(old(State()), e)
    {
      hide Apply;
      match e
      case Start => Start();
      case Stop => Stop();
      case Elapse(ms) => if ms >= 0.0 { Elapsed(ms); }
      case RefreshFires => if refreshTimer.Some? && refreshTimer.value <= now { OnRefreshTimer(); }
      case ReconnectFires => if reconnectTimer.Some? && reconnectTimer.value.due <= now { OnReconnectTimer(); }
      case RecoveryFires => if recoveryTimer.Some? && recoveryTimer.value <= now { OnRecoveryTimer(); }
      case HandshakeFires(i, random) =>
        if i < |sockets| && sockets[i].handshakeTimer.Some? && sockets[i].handshakeTimer.value <= now {
          OnHandshakeTimer(i, random);
        }
      case TokenArrives(k, constructorThrows, random) =>
        if k < |attempts| && attempts[k].isPending { OnToken(k, constructorThrows, random); }
      case TokenFails(k, random) => if k < |attempts| && attempts[k].isPending { OnTokenFailure(k, random); }
      case SocketOpens(i, random) => if i < |sockets| && sockets[i].ready == Connecting { OnOpen(i, random); }
      case SocketStartsClosing(i) =>
        if i < |sockets| && sockets[i].ready in {Connecting, Open} { StartedClosing(i); }
      case SocketCloses(i, random) => if i < |sockets| && sockets[i].ready != Closed { OnClose(i, random); }
      case SocketFails(i) => ErrorsOnlyLog(State(), i);
      case FrameArrives(i) => if i < |sockets| && sockets[i].ready in {Open, Closing} { OnFrame(i); }
    }

    static lemma ErrorsOnlyLog(s: Stream, i: nat)
      ensures Step(s, SocketFails(i)) == s
    {
    }
  }

  /** A new stream handed any events at all ends where the machine's run of them does. */
  method Replay(events: seq<Event>) returns (stream: EventStream)
    ensures fresh(stream) && stream.State() == Run(FRESH, events)
  {
    hide Step;
    stream := new EventStream();
    for n := 0 to |events|
      invariant fresh(stream) && stream.State() == Run(FRESH, events[..n])
    {
      assert events[..n + 1][..n] == events[..n];
      stream.Handle(events[n]);
    }
    assert events[..|events|] == events;
  }
}
