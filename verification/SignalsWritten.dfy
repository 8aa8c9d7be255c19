/** Exactly what each event writes, and what the two device signals mean over a whole run. */
module SignalsWritten {
  import opened Options
  import opened SignalsSpec
  import opened SignalsTheorems

  /** What an open tracker writes for a call. */
  function WrittenFor(call: Call, at: int): seq<Write> {
    match call
    case Start => []
    case Unreachable => []
    case Reached =>
      [Write(AuthFailed, false, Error, AUTH_REJECTED_SUMMARY, at),
       Write(CloudOffline, false, Error, CLOUD_OFFLINE_SUMMARY, at)]
    case SignInStopped(CredentialsRejected) =>
      [Write(AuthFailed, true, Error, AUTH_REJECTED_SUMMARY, at),
       Write(CloudOffline, false, Error, CLOUD_OFFLINE_SUMMARY, at)]
    case SignInStopped(LoginFormUnreadable) =>
      [Write(AuthFailed, true, Error, AUTH_LOGIN_FORM_SUMMARY, at),
       Write(CloudOffline, false, Error, CLOUD_OFFLINE_SUMMARY, at)]
    case Devices(alarm, smoke) =>
      (if alarm.Some? then [Write(AlarmActive, alarm.value, Critical, ALARM_ACTIVE_SUMMARY, at)] else [])
      + (if smoke.Some? then [Write(SmokeActive, smoke.value, Critical, SMOKE_ACTIVE_SUMMARY, at)] else [])
  }

  /** The grace has run in full: nothing was reached since the trouble began, and it is not yet reported. */
  predicate GraceIsUp(graceMs: nat, s: Signals) {
    && !s.isClosed && !IsOn(s.writes, CloudOffline)
    && var since := TroubleSince(s.heard);
       since.Some? && s.now >= since.value + graceMs
  }

  function Written(graceMs: nat, s: Signals, e: Event): seq<Write> {
    match e
    case Call(call) => if s.isClosed then [] else WrittenFor(call, s.now)
    case TimerFires =>
      if GraceIsUp(graceMs, s) then [Write(CloudOffline, true, Error, CLOUD_OFFLINE_SUMMARY, s.now)] else []
    case Close => []
    case Elapse(_) => []
  }

  lemma SettlingWritesExactly(s: Signals, isAuthRejected: bool, failure: SignInFailure)
    ensures Settle(s, isAuthRejected, failure).writes ==
            s.writes + [Write(AuthFailed, isAuthRejected, Error,
                              if failure == LoginFormUnreadable then AUTH_LOGIN_FORM_SUMMARY else AUTH_REJECTED_SUMMARY, s.now),
                        Write(CloudOffline, false, Error, CLOUD_OFFLINE_SUMMARY, s.now)]
  {
  }

  lemma NotingWritesExactly(s: Signals, alarm: Option<bool>, smoke: Option<bool>)
    ensures NoteDevices(s, alarm, smoke).writes == s.writes + WrittenFor(Devices(alarm, smoke), s.now)
  {
  }

  lemma TakingWritesExactly(graceMs: nat, s: Signals, call: Call)
    ensures Take(graceMs, s, call).writes == s.writes + WrittenFor(call, s.now)
  {
    hide Settle, NoteDevices;
    match call
    case Reached => SettlingWritesExactly(s, false, CredentialsRejected);
    case SignInStopped(failure) => SettlingWritesExactly(s, true, failure);
    case Devices(alarm, smoke) => hide WrittenFor; NotingWritesExactly(s, alarm, smoke);
    case _ =>
  }

  lemma FiringWritesExactly(graceMs: nat, s: Signals)
    requires Inv(graceMs, s)
    ensures TimerDue(s) <==> GraceIsUp(graceMs, s)
    ensures TimerDue(s) ==> Fire(s).writes == s.writes + [Write(CloudOffline, true, Error, CLOUD_OFFLINE_SUMMARY, s.now)]
  {
    hide IsOn, SignInIsStopped, HasStarted, TroubleSince;
  }

  /** Over every run, what an event writes is told by the calls heard: this and nothing else. */
  lemma EveryWriteIsDue(graceMs: nat, events: seq<Event>, e: Event)
    ensures var s := Run(graceMs, FRESH, events);
            Step(graceMs, s, e).writes == s.writes + Written(graceMs, s, e)
  {
    hide Take, Fire, TimerDue, GraceIsUp, WrittenFor, Inv;
    FreshIsOk(graceMs);
    RunKeepsInv(graceMs, FRESH, events);
    var s := Run(graceMs, FRESH, events);
    if e.Call? && !s.isClosed {
      TakingWritesExactly(graceMs, Hear(s, e.call), e.call);
    }
    FiringWritesExactly(graceMs, s);
    hide Run;
  }

  // ---- The two device signals. ----

  /** What a call says of a device signal. */
  function SaysOf(call: Call, signal: Signal): Option<bool> {
    if !call.Devices? then None
    else if signal == AlarmActive then call.alarmActive
    else if signal == SmokeActive then call.smokeActive
    else None
  }

  /** The last that was said of a device signal. */
  function LastSaid(heard: seq<Heard>, signal: Signal): Option<bool> {
    if heard == [] then None else
    var said := SaysOf(heard[|heard| - 1].call, signal);
    if said.Some? then said else LastSaid(heard[..|heard| - 1], signal)
  }

  predicate DevicesOk(s: Signals) {
    forall signal :: signal == AlarmActive || signal == SmokeActive ==>
      (IsOn(s.writes, signal) <==> LastSaid(s.heard, signal) == Some(true))
  }

  lemma WritesOfOneCall(writes: seq<Write>, call: Call, at: int, signal: Signal)
    requires signal == AlarmActive || signal == SmokeActive
    ensures IsOn(writes + WrittenFor(call, at), signal)
       <==> if SaysOf(call, signal).Some? then SaysOf(call, signal).value else IsOn(writes, signal)
  {
    hide IsOn;
    var more := WrittenFor(call, at);
    if more == [] {
      assert writes + more == writes;
    } else {
      OneMoreWrite(writes, more[0], signal);
      if |more| == 1 {
        assert writes + more == writes + [more[0]];
      } else {
        OneMoreWrite(writes + [more[0]], more[1], signal);
        assert writes + more == writes + [more[0]] + [more[1]];
      }
    }
  }

  lemma SaidOfOneMore(heard: seq<Heard>, call: Call, at: int, signal: Signal)
    ensures LastSaid(heard + [Heard(call, at)], signal)
         == if SaysOf(call, signal).Some? then SaysOf(call, signal) else LastSaid(heard, signal)
  {
    var longer := heard + [Heard(call, at)];
    assert longer[..|longer| - 1] == heard;
  }

  lemma StepKeepsDevices(graceMs: nat, s: Signals, e: Event)
    requires DevicesOk(s)
    ensures DevicesOk(Step(graceMs, s, e))
  {
    hide IsOn, LastSaid, SaysOf, WrittenFor, Take;
    if e.Call? && !s.isClosed {
      TakingWritesExactly(graceMs, Hear(s, e.call), e.call);
      TakingHearsNoMore(graceMs, Hear(s, e.call), e.call);
      WritesOfOneCall(s.writes, e.call, s.now, AlarmActive);
      WritesOfOneCall(s.writes, e.call, s.now, SmokeActive);
      SaidOfOneMore(s.heard, e.call, s.now, AlarmActive);
      SaidOfOneMore(s.heard, e.call, s.now, SmokeActive);
    } else if e.TimerFires? && TimerDue(s) && !s.isClosed {
      var fired := Fire(s);
      OneMoreWrite(s.writes, fired.writes[|s.writes|], AlarmActive);
      OneMoreWrite(s.writes, fired.writes[|s.writes|], SmokeActive);
    }
  }

  lemma TakingHearsNoMore(graceMs: nat, s: Signals, call: Call)
    ensures Take(graceMs, s, call).heard == s.heard
  {
  }

  /** Over every run, each device signal is on exactly when the last read that spoke of it said so. */
  lemma DeviceSignalsMeanWhatWasSaid(graceMs: nat, events: seq<Event>)
    ensures var s := Run(graceMs, FRESH, events);
            && (IsOn(s.writes, AlarmActive) <==> LastSaid(s.heard, AlarmActive) == Some(true))
            && (IsOn(s.writes, SmokeActive) <==> LastSaid(s.heard, SmokeActive) == Some(true))
  {
    RunKeepsDevices(graceMs, events);
    hide Run, IsOn, LastSaid;
  }

  lemma {:induction false} RunKeepsDevices(graceMs: nat, events: seq<Event>)
    ensures DevicesOk(Run(graceMs, FRESH, events))
  {
    if events != [] {
      hide DevicesOk, Step;
      RunKeepsDevices(graceMs, events[..|events| - 1]);
      StepKeepsDevices(graceMs, Run(graceMs, FRESH, events[..|events| - 1]), events[|events| - 1]);
    }
  }

  /** A house signal is raised by any one device, lowered only by a full answer, and otherwise left. */
  lemma HouseSignalSaysExactly(handlers: map<string, bool>, requested: set<string>, read: set<string>)
    ensures HouseSignal(handlers, requested, read)
         == if true in handlers.Values then Some(true)
            else if forall id <- requested :: id in read then Some(false)
            else None
  {
    if true in handlers.Values {
      var id :| id in handlers && handlers[id];
    } else {
      forall id <- handlers ensures !handlers[id] {
        assert handlers[id] in handlers.Values;
      }
    }
  }
}
