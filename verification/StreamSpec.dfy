/**
 * The event stream as a state machine: what each callback does to the fields of
 * `EventStream` and to the sockets, token fetches and timers around it.
 * An adversary chooses the next event; nothing here decides their order.
 */
module StreamSpec {
  import opened Options
  import opened Settings
  import Backoff

  /** `WebSocket.readyState`. */
  datatype ReadyState = Connecting | Open | Closing | Closed

  datatype Reason = Initial | Refresh | Drop

  /**
   * One socket and what the listeners of its handshake close over. The handshake timer is
   * armed exactly while the handshake is unsettled.
   */
  datatype Socket = Socket(
    ready: ReadyState,
    listening: bool,
    isRefreshCandidate: bool,
    generation: nat,
    handshakeTimer: Option<real>)

  /** One `#connect` attempt; pending while its token fetch is out. */
  datatype Attempt = Attempt(shouldDeferDispose: bool, generationBeforeFetch: nat, isPending: bool)

  /** The one reconnect handle is armed by two paths whose callbacks differ. */
  datatype ReconnectTimer = ReconnectTimer(due: real, isRefreshRetry: bool)

  /** History since the last `start()`: token requests, and sockets that opened. */
  datatype Mark = Asked(at: real, isDeferred: bool, isRecovery: bool) | Opened

  /** Give-up notifications since the last `start()`. */
  datatype Notice = Unavailable | Recovered

  datatype Stream = Stream(
    // The environment and what was observed of it.
    now: real,
    sockets: seq<Socket>,
    attempts: seq<Attempt>,
    marks: seq<Mark>,
    notices: seq<Notice>,
    frames: seq<nat>,
    hasStarted: bool,
    // The fields of the class.
    socket: Option<nat>,
    candidate: Option<nat>,
    reconnectTimer: Option<ReconnectTimer>,
    refreshTimer: Option<real>,
    recoveryTimer: Option<real>,
    consecutiveFailures: nat,
    isStopped: bool,
    isConnecting: bool,
    hadConnected: bool,
    hasGivenUp: bool,
    giveUpCount: nat,
    disconnectedAt: Option<real>,
    handshakeSettle: Option<nat>,
    connectGeneration: nat,
    connectReason: Reason)

  const FRESH: Stream := Stream(0.0, [], [], [], [], [], false, None, None, None, None, None, 0,
                                false, false, false, false, 0, None, None, 0, Initial)

  datatype Event =
    | Start
    | Stop
    | Elapse(ms: real)
    | RefreshFires
    | ReconnectFires
    | RecoveryFires
    | HandshakeFires(i: nat, random: Draw)
    | TokenArrives(k: nat, constructorThrows: bool, random: Draw)
    | TokenFails(k: nat, random: Draw)
    | SocketOpens(i: nat, random: Draw)
    | SocketStartsClosing(i: nat)
    | SocketCloses(i: nat, random: Draw)
    | SocketFails(i: nat)
    | FrameArrives(i: nat)

  // ---- Small pieces -------------------------------------------------------

  predicate IsOpen(sockets: seq<Socket>, socket: Option<nat>) {
    socket.Some? && socket.value < |sockets| && sockets[socket.value].ready == Open
  }

  /** The `isConnected` getter. */
  predicate IsConnected(s: Stream) {
    IsOpen(s.sockets, s.socket)
  }

  function SetReady(sockets: seq<Socket>, i: nat, ready: ReadyState): seq<Socket> {
    if i < |sockets| then sockets[i := sockets[i].(ready := ready)] else sockets
  }

  /** What `#closeSocket` leaves of a socket: its listeners gone, its close begun. */
  function Deaf(k: Socket): Socket {
    k.(listening := false, ready := if k.ready == Closed then Closed else Closing)
  }

  function CloseSocket(sockets: seq<Socket>, i: Option<nat>): seq<Socket> {
    if i.Some? && i.value < |sockets| then sockets[i.value := Deaf(sockets[i.value])] else sockets
  }

  function NoteDisconnect(disconnectedAt: Option<real>, now: real): Option<real> {
    if disconnectedAt.None? then Some(now) else disconnectedAt
  }

  function DisposeSocket(s: Stream): (t: Stream)
    ensures t.frames == s.frames
  {
    if s.socket.None? then s else
    s.(socket := None,
       sockets := CloseSocket(s.sockets, s.socket),
       disconnectedAt := if IsConnected(s) || s.hadConnected then NoteDisconnect(s.disconnectedAt, s.now)
                         else s.disconnectedAt)
  }

  function DisposeCandidate(s: Stream): (t: Stream)
    ensures t.frames == s.frames
  {
    s.(candidate := None, sockets := CloseSocket(s.sockets, s.candidate))
  }

  /** Whether socket `i`'s handshake has not settled yet. */
  predicate IsUnsettled(sockets: seq<Socket>, i: nat) {
    i < |sockets| && sockets[i].handshakeTimer.Some?
  }

  function Untimed(sockets: seq<Socket>, i: nat): seq<Socket> {
    if i < |sockets| then sockets[i := sockets[i].(handshakeTimer := None)] else sockets
  }

  /** The `settle` closure of socket `i`'s handshake; a second call does nothing. */
  function Settle(s: Stream, i: nat): (t: Stream)
    ensures t.frames == s.frames
  {
    s.(sockets := Untimed(s.sockets, i),
       handshakeSettle := if IsUnsettled(s.sockets, i) then None else s.handshakeSettle)
  }

  function SettleHandshake(s: Stream): (t: Stream)
    ensures t.frames == s.frames
  {
    if s.handshakeSettle.None? then s
    else s.(sockets := Untimed(s.sockets, s.handshakeSettle.value), handshakeSettle := None)
  }

  function ClearTimers(s: Stream): Stream {
    s.(reconnectTimer := None, refreshTimer := None, recoveryTimer := None)
  }

  function IsSuperseded(s: Stream, a: Attempt): bool {
    if a.shouldDeferDispose then a.generationBeforeFetch != s.connectGeneration
    else a.generationBeforeFetch + 1 != s.connectGeneration
  }

  function RefreshDelay(random: Draw): real {
    var delay := WEBSOCKET_REFRESH_INTERVAL_MS as real - random * (WEBSOCKET_REFRESH_JITTER_MS as real);
    if delay < WEBSOCKET_RECONNECT_BASE_MS as real then WEBSOCKET_RECONNECT_BASE_MS as real else delay
  }

  function ReconnectDelay(failures: nat, random: Draw): real
    requires failures >= 1
  {
    Backoff.ComputeBackoffMs(failures, WEBSOCKET_RECONNECT_BASE_MS, WEBSOCKET_RECONNECT_MAX_MS, random) as real
  }

  // ---- Timers -------------------------------------------------------------

  function ScheduleRefresh(s: Stream, random: Draw): Stream {
    s.(refreshTimer := Some(s.now + RefreshDelay(random)))
  }

  function ScheduleRefreshRetry(s: Stream): (t: Stream)
    ensures t.frames == s.frames
  {
    if s.isStopped || s.reconnectTimer.Some? then s else
    s.(connectReason := Refresh,
       reconnectTimer := Some(ReconnectTimer(s.now + WEBSOCKET_RECONNECT_BASE_MS as real, true)))
  }

  function ScheduleRecovery(s: Stream): Stream {
    if s.isStopped || s.recoveryTimer.Some? then s else
    s.(recoveryTimer := Some(s.now + WEBSOCKET_RECOVERY_INTERVAL_MS as real))
  }

  function GiveUp(s: Stream): (t: Stream)
    ensures t.frames == s.frames && t.sockets == s.sockets && t.socket == s.socket && t.candidate == s.candidate
  {
    var counted := s.(hasGivenUp := true, giveUpCount := s.giveUpCount + 1);
    var told := if counted.giveUpCount == 1
                then counted.(notices := counted.notices + [Unavailable]) else counted;
    ScheduleRecovery(told)
  }

  function ScheduleReconnect(s: Stream, random: Draw): (t: Stream)
    ensures t.frames == s.frames && t.sockets == s.sockets && t.socket == s.socket && t.candidate == s.candidate
  {
    if s.isStopped || s.reconnectTimer.Some? || s.recoveryTimer.Some? then s else
    var counted := s.(consecutiveFailures := s.consecutiveFailures + 1);
    if counted.consecutiveFailures > WEBSOCKET_MAX_FAILURES then GiveUp(counted) else
    var delay := ReconnectDelay(counted.consecutiveFailures, random);
    counted.(connectReason := Drop, reconnectTimer := Some(ReconnectTimer(s.now + delay, false)))
  }

  // ---- Connecting ---------------------------------------------------------

  function BeginAttempt(s: Stream, isRecovery: bool): (t: Stream)
    ensures t.frames == s.frames
  {
    var shouldDeferDispose := s.connectReason == Refresh && IsConnected(s);
    var cleared := if shouldDeferDispose then s else
                   DisposeSocket(DisposeCandidate(s.(connectGeneration := s.connectGeneration + 1)));
    var settled := SettleHandshake(cleared);
    settled.(isConnecting := true,
             attempts := settled.attempts + [Attempt(shouldDeferDispose, s.connectGeneration, true)],
             marks := settled.marks + [Asked(s.now, shouldDeferDispose, isRecovery)])
  }

  function Connect(s: Stream, isRecovery: bool): (t: Stream)
    ensures t.frames == s.frames
  {
    if s.isStopped then s else BeginAttempt(s, isRecovery)
  }

  function Reconnect(s: Stream, reason: Reason): (t: Stream)
    ensures t.frames == s.frames
  {
    Connect(s.(reconnectTimer := None, connectReason := reason), false)
  }

  /** A new socket with its handshake listeners and timer attached. */
  function AwaitHandshake(s: Stream, isRefreshCandidate: bool): Stream {
    s.(sockets := s.sockets + [Socket(Connecting, true, isRefreshCandidate, s.connectGeneration,
                                      Some(s.now + WEBSOCKET_HANDSHAKE_TIMEOUT_MS as real))],
       handshakeSettle := Some(|s.sockets|))
  }

  /** Did a drop take over while the refresh token was being fetched? */
  predicate DropOwns(s: Stream, a: Attempt) {
    a.shouldDeferDispose && (s.reconnectTimer.Some? || !IsConnected(s))
  }

  predicate StillOwns(s: Stream, a: Attempt) {
    !s.isStopped && !IsSuperseded(s, a) && !DropOwns(s, a)
  }

  /** What an attempt that lost the connection leaves behind. */
  function Abandon(s: Stream, a: Attempt): Stream {
    if !IsSuperseded(s, a) then s.(isConnecting := false) else s
  }

  function HandleConnectFailure(s: Stream, a: Attempt, random: Draw): (t: Stream)
    ensures t.frames == s.frames
  {
    if s.isStopped || IsSuperseded(s, a) then s else
    var idle := s.(isConnecting := false);
    if DropOwns(s, a) then idle
    else if a.shouldDeferDispose && IsConnected(idle) then ScheduleRefreshRetry(idle)
    else ScheduleReconnect(idle, random)
  }

  function OpenSocket(s: Stream, a: Attempt, constructorThrows: bool, random: Draw): (t: Stream)
    ensures t.frames == s.frames
  {
    if a.shouldDeferDispose && IsConnected(s) then
      var ready := DisposeCandidate(s.(connectGeneration := s.connectGeneration + 1));
      if constructorThrows then HandleConnectFailure(ready, a, random)
      else AwaitHandshake(ready.(candidate := Some(|ready.sockets|)), true)
    else
      var ready := DisposeSocket(DisposeCandidate(s));
      if constructorThrows then HandleConnectFailure(ready, a, random)
      else AwaitHandshake(ready.(socket := Some(|ready.sockets|)), false)
  }

  // ---- Handshake outcomes -------------------------------------------------

  function HandleOpen(s: Stream, random: Draw): (t: Stream)
    ensures t.frames == s.frames
  {
    var up := s.(isConnecting := false, consecutiveFailures := 0, giveUpCount := 0,
                     disconnectedAt := None, connectReason := Drop, hasGivenUp := false,
                     hadConnected := true, marks := s.marks + [Opened],
                     notices := if s.hasGivenUp then s.notices + [Recovered] else s.notices);
    ScheduleRefresh(up, random)
  }

  /** The drop path cancels a pending refresh or refresh retry before it schedules its own. */
  function Dropped(s: Stream): (t: Stream)
    ensures t.frames == s.frames
  {
    s.(isConnecting := false, refreshTimer := None, reconnectTimer := None, connectReason := Drop,
       disconnectedAt := NoteDisconnect(s.disconnectedAt, s.now))
  }

  function HandleClose(s: Stream, random: Draw): (t: Stream)
    ensures t.frames == s.frames
  {
    if s.isStopped then s else ScheduleReconnect(Dropped(s), random)
  }

  function OnHandshakeTimeout(s: Stream, i: nat, random: Draw): (t: Stream)
    ensures t.frames == s.frames
    requires i < |s.sockets|
  {
    var k := s.sockets[i];
    if k.generation != s.connectGeneration then Settle(s, i) else
    var idle := s.(isConnecting := false);
    if k.isRefreshCandidate && s.candidate == Some(i) && IsConnected(s) then
      ScheduleRefreshRetry(Settle(DisposeCandidate(idle), i))
    else if s.socket != Some(i) && s.candidate != Some(i) then Settle(idle, i)
    else ScheduleReconnect(Settle(DisposeSocket(DisposeCandidate(idle)), i), random)
  }

  function OnHandshakeOpen(s: Stream, i: nat, random: Draw): (t: Stream)
    ensures t.frames == s.frames
    requires i < |s.sockets|
  {
    var k := s.sockets[i];
    if k.generation != s.connectGeneration then Settle(s, i)
    else if k.isRefreshCandidate then
      if s.candidate != Some(i) then Settle(s, i) else
      var promoted := s.(candidate := None, socket := Some(i), sockets := CloseSocket(s.sockets, s.socket));
      Settle(HandleOpen(promoted, random), i)
    else if s.socket != Some(i) then Settle(s, i)
    else Settle(HandleOpen(s, random), i)
  }

  function OnHandshakeClose(s: Stream, i: nat, random: Draw): (t: Stream)
    ensures t.frames == s.frames
    requires i < |s.sockets|
  {
    if s.sockets[i].isRefreshCandidate && s.candidate == Some(i) then
      var gone := s.(candidate := None, isConnecting := false);
      Settle(if IsConnected(gone) && !gone.isStopped then ScheduleRefreshRetry(gone)
             else if !gone.isStopped then HandleClose(gone, random)
             else gone, i)
    else if s.socket == Some(i) then
      Settle(HandleClose(DisposeCandidate(s), random), i)
    else Settle(s, i)
  }

  // ---- Events -------------------------------------------------------------

  /** What `start()` resets before it connects; the histories begin again with it. */
  function ResetForStart(s: Stream): Stream {
    ClearTimers(s.(isStopped := false, hasGivenUp := false, giveUpCount := 0, consecutiveFailures := 0,
                   hadConnected := false, disconnectedAt := None, connectReason := Initial,
                   hasStarted := true, marks := [], notices := []))
  }

  function DoStart(s: Stream): (t: Stream)
    ensures t.frames == s.frames
  {
    Connect(ResetForStart(s), false)
  }

  function DoStop(s: Stream): (t: Stream)
    ensures t.frames == s.frames
  {
    var halted := s.(isStopped := true, connectGeneration := s.connectGeneration + 1, isConnecting := false);
    DisposeSocket(DisposeCandidate(SettleHandshake(ClearTimers(halted))))
  }

  function FetchSettled(s: Stream, k: nat): Stream
    requires k < |s.attempts|
  {
    s.(attempts := s.attempts[k := s.attempts[k].(isPending := false)])
  }

  /** Whether the environment can produce this event now. */
  predicate Enabled(s: Stream, e: Event) {
    match e
    case Start => true
    case Stop => true
    case Elapse(ms) => ms >= 0.0
    case RefreshFires => s.refreshTimer.Some? && s.refreshTimer.value <= s.now
    case ReconnectFires => s.reconnectTimer.Some? && s.reconnectTimer.value.due <= s.now
    case RecoveryFires => s.recoveryTimer.Some? && s.recoveryTimer.value <= s.now
    case HandshakeFires(i, _) =>
      i < |s.sockets| && s.sockets[i].handshakeTimer.Some? && s.sockets[i].handshakeTimer.value <= s.now
    case TokenArrives(k, _, _) => k < |s.attempts| && s.attempts[k].isPending
    case TokenFails(k, _) => k < |s.attempts| && s.attempts[k].isPending
    case SocketOpens(i, _) => i < |s.sockets| && s.sockets[i].ready == Connecting
    case SocketStartsClosing(i) => i < |s.sockets| && s.sockets[i].ready in {Connecting, Open}
    case SocketCloses(i, _) => i < |s.sockets| && s.sockets[i].ready != Closed
    case SocketFails(i) => i < |s.sockets|
    case FrameArrives(i) => i < |s.sockets| && s.sockets[i].ready in {Open, Closing}
  }

  /** What an enabled event does. A transport error only writes a log line. */
  function Apply(s: Stream, e: Event): Stream
    requires Enabled(s, e)
  {
    match e
    case Start => DoStart(s)
    case Stop => DoStop(s)
    case Elapse(ms) => s.(now := s.now + ms)
    case RefreshFires => Reconnect(s.(refreshTimer := None), Refresh)
    case ReconnectFires =>
      if s.reconnectTimer.value.isRefreshRetry then Reconnect(s.(reconnectTimer := None), Refresh)
      else Connect(s.(reconnectTimer := None), false)
    case RecoveryFires =>
      var cleared := s.(recoveryTimer := None);
      if s.isStopped then cleared
      else Connect(cleared.(consecutiveFailures := 0, connectReason := Drop), true)
    case HandshakeFires(i, random) => OnHandshakeTimeout(s, i, random)
    case TokenArrives(k, constructorThrows, random) =>
      var a := s.attempts[k];
      var settled := FetchSettled(s, k);
      if StillOwns(settled, a) then OpenSocket(settled, a, constructorThrows, random) else Abandon(settled, a)
    case TokenFails(k, random) => HandleConnectFailure(FetchSettled(s, k), s.attempts[k], random)
    case SocketOpens(i, random) =>
      var up := s.(sockets := SetReady(s.sockets, i, Open));
      if s.sockets[i].listening then OnHandshakeOpen(up, i, random) else up
    case SocketStartsClosing(i) => s.(sockets := SetReady(s.sockets, i, Closing))
    case SocketCloses(i, random) =>
      var closed := s.(sockets := SetReady(s.sockets, i, Closed));
      if s.sockets[i].listening then OnHandshakeClose(closed, i, random) else closed
    case SocketFails(_) => s
    case FrameArrives(i) =>
      if s.sockets[i].listening && s.socket == Some(i) then s.(frames := s.frames + [i]) else s
  }

  function Step(s: Stream, e: Event): Stream {
    if Enabled(s, e) then Apply(s, e) else s
  }

  function Run(s: Stream, events: seq<Event>): Stream {
    if events == [] then s else Step(Run(s, events[..|events| - 1]), events[|events| - 1])
  }
}
