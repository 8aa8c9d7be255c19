/** One cause sends one page, and `cloud-offline` waits out its grace from the first sign of trouble. */
module SignalsTheorems {
  import opened Options
  import opened SignalsSpec

  // ---- What a reader of the calls alone would say. ----

  predicate IsReset(call: Call) {
    call.Reached? || call.SignInStopped?
  }

  /** Whether the last word on signing in was that it stopped. */
  predicate SignInIsStopped(heard: seq<Heard>) {
    if heard == [] then false else
    var last := heard[|heard| - 1].call;
    if IsReset(last) then last.SignInStopped? else SignInIsStopped(heard[..|heard| - 1])
  }

  predicate HasStarted(heard: seq<Heard>) {
    exists i :: 0 <= i < |heard| && heard[i].call == Start
  }

  /** A call that says Alarm.com is out of reach: a failed read, or the launch itself. */
  predicate IsTrouble(before: seq<Heard>, call: Call) {
    !SignInIsStopped(before) && (call.Unreachable? || (call.Start? && !HasStarted(before)))
  }

  /** Since when Alarm.com has been out of reach: the first trouble heard since the last reset. */
  function TroubleSince(heard: seq<Heard>): Option<int> {
    if heard == [] then None else
    var before, last := heard[..|heard| - 1], heard[|heard| - 1];
    if IsReset(last.call) then None
    else if TroubleSince(before).Some? then TroubleSince(before)
    else if IsTrouble(before, last.call) then Some(last.at) else None
  }

  /** The last that was written of a signal. */
  function LastWrite(writes: seq<Write>, signal: Signal): Option<Write> {
    if writes == [] then None else
    var last := writes[|writes| - 1];
    if last.signal == signal then Some(last) else LastWrite(writes[..|writes| - 1], signal)
  }

  predicate IsOn(writes: seq<Write>, signal: Signal) {
    var last := LastWrite(writes, signal);
    last.Some? && last.value.active
  }

  // ---- The invariant. ----

  predicate FlagsOk(graceMs: nat, s: Signals) {
    && (s.isAuthRejected <==> SignInIsStopped(s.heard))
    && (s.hasStarted <==> HasStarted(s.heard))
    && (s.isAuthRejected ==> !s.isCloudOfflineConfirmed && s.offlineTimer.None?)
  }

  /** The timer is set for one grace after the trouble began, and has been let run its course. */
  predicate TimerOk(graceMs: nat, s: Signals) {
    var since := TroubleSince(s.heard);
    && (s.isCloudOfflineConfirmed ==> since.Some? && s.now >= since.value + graceMs && s.offlineTimer.None?)
    && (s.offlineTimer.Some? ==> since.Some? && s.offlineTimer.value == since.value + graceMs)
    && (since.Some? && !s.isClosed && !s.isCloudOfflineConfirmed ==> s.offlineTimer.Some?)
    && (s.isClosed ==> s.offlineTimer.None?)
    && (since.Some? ==> !s.isAuthRejected)
  }

  predicate WritesOk(s: Signals) {
    && (IsOn(s.writes, AuthFailed) <==> s.isAuthRejected)
    && (IsOn(s.writes, CloudOffline) <==> s.isCloudOfflineConfirmed)
  }

  predicate Inv(graceMs: nat, s: Signals) {
    FlagsOk(graceMs, s) && TimerOk(graceMs, s) && WritesOk(s)
  }

  lemma OneMoreWrite(writes: seq<Write>, write: Write, signal: Signal)
    ensures IsOn(writes + [write], signal) <==> if write.signal == signal then write.active else IsOn(writes, signal)
  {
    var longer := writes + [write];
    assert longer[..|longer| - 1] == writes;
  }

  lemma OneMoreHeard(heard: seq<Heard>, call: Call, at: int)
    ensures SignInIsStopped(heard + [Heard(call, at)])
       <==> if IsReset(call) then call.SignInStopped? else SignInIsStopped(heard)
    ensures HasStarted(heard + [Heard(call, at)]) <==> HasStarted(heard) || call == Start
    ensures TroubleSince(heard + [Heard(call, at)])
         == if IsReset(call) then None
            else if TroubleSince(heard).Some? then TroubleSince(heard)
            else if IsTrouble(heard, call) then Some(at) else None
  {
    var longer := heard + [Heard(call, at)];
    assert longer[..|longer| - 1] == heard;
    assert longer[|heard|].call == call;
    forall i | 0 <= i < |heard| && heard[i].call == Start ensures HasStarted(longer) {
      assert longer[i].call == Start;
    }
  }

  lemma TakingKeepsFlagsAndTimer(graceMs: nat, s: Signals, call: Call)
    requires !s.isClosed && FlagsOk(graceMs, s) && TimerOk(graceMs, s)
    ensures FlagsOk(graceMs, Take(graceMs, Hear(s, call), call))
    ensures TimerOk(graceMs, Take(graceMs, Hear(s, call), call))
  {
    hide SignInIsStopped, HasStarted, TroubleSince;
    OneMoreHeard(s.heard, call, s.now);
  }

  lemma TakingKeepsWrites(graceMs: nat, s: Signals, call: Call)
    requires WritesOk(s) && FlagsOk(graceMs, s) && !s.isClosed
    ensures WritesOk(Take(graceMs, Hear(s, call), call))
  {
    hide IsOn, SignInIsStopped, HasStarted;
    match call
    case Reached => SettlingSetsWrites(Hear(s, call), false, CredentialsRejected);
    case SignInStopped(failure) => SettlingSetsWrites(Hear(s, call), true, failure);
    case Devices(alarmActive, smokeActive) => DevicesKeepWrites(Hear(s, call), alarmActive, smokeActive);
    case _ =>
  }

  lemma SettlingSetsWrites(s: Signals, isAuthRejected: bool, failure: SignInFailure)
    ensures WritesOk(Settle(s, isAuthRejected, failure))
  {
    hide IsOn;
    var t := WriteAuth(s.(isAuthRejected := isAuthRejected, isCloudOfflineConfirmed := false, offlineTimer := None),
                       isAuthRejected, failure);
    OneMoreWrite(s.writes, t.writes[|s.writes|], AuthFailed);
    OneMoreWrite(t.writes, WriteCloud(t).writes[|t.writes|], AuthFailed);
    OneMoreWrite(t.writes, WriteCloud(t).writes[|t.writes|], CloudOffline);
  }

  lemma DevicesKeepWrites(s: Signals, alarmActive: Option<bool>, smokeActive: Option<bool>)
    requires WritesOk(s)
    ensures WritesOk(NoteDevices(s, alarmActive, smokeActive))
  {
    hide IsOn;
    var noted := NoteDevices(s, alarmActive, None);
    if alarmActive.Some? {
      OneMoreWrite(s.writes, noted.writes[|s.writes|], AuthFailed);
      OneMoreWrite(s.writes, noted.writes[|s.writes|], CloudOffline);
    }
    if smokeActive.Some? {
      var all := NoteDevices(s, alarmActive, smokeActive);
      OneMoreWrite(noted.writes, all.writes[|noted.writes|], AuthFailed);
      OneMoreWrite(noted.writes, all.writes[|noted.writes|], CloudOffline);
    }
  }

  lemma FiringKeepsInv(graceMs: nat, s: Signals)
    requires Inv(graceMs, s) && TimerDue(s)
    ensures Inv(graceMs, Fire(s))
  {
    hide IsOn, SignInIsStopped, HasStarted, TroubleSince;
    var fired := s.(offlineTimer := None, isCloudOfflineConfirmed := true);
    OneMoreWrite(s.writes, WriteCloud(fired).writes[|s.writes|], AuthFailed);
    OneMoreWrite(s.writes, WriteCloud(fired).writes[|s.writes|], CloudOffline);
  }

  lemma StepKeepsInv(graceMs: nat, s: Signals, e: Event)
    requires Inv(graceMs, s)
    ensures Inv(graceMs, Step(graceMs, s, e))
  {
    hide IsOn, SignInIsStopped, HasStarted, TroubleSince, Take, Fire;
    match e
    case Call(call) =>
      if !s.isClosed {
        TakingKeepsFlagsAndTimer(graceMs, s, call);
        TakingKeepsWrites(graceMs, s, call);
      }
    case TimerFires =>
      if TimerDue(s) {
        FiringKeepsInv(graceMs, s);
      }
    case _ =>
  }

  lemma {:induction false} RunKeepsInv(graceMs: nat, s: Signals, events: seq<Event>)
    requires Inv(graceMs, s)
    ensures Inv(graceMs, Run(graceMs, s, events))
  {
    hide Inv, Step;
    if events != [] {
      RunKeepsInv(graceMs, s, events[..|events| - 1]);
      StepKeepsInv(graceMs, Run(graceMs, s, events[..|events| - 1]), events[|events| - 1]);
    }
  }

  // ---- The promises. ----

  /** After every call at most one of the two account signals was last written active. */
  lemma NeverBothAccountSignals(graceMs: nat, events: seq<Event>)
    ensures var writes := Run(graceMs, FRESH, events).writes; !(IsOn(writes, AuthFailed) && IsOn(writes, CloudOffline))
  {
    RunKeepsInv(graceMs, FRESH, events);
  }

  /** Each account signal is on exactly when the calls heard say so, and the grace has run. */
  lemma AccountSignalsMeanWhatWasHeard(graceMs: nat, events: seq<Event>)
    ensures var s := Run(graceMs, FRESH, events);
            var since := TroubleSince(s.heard);
            && (IsOn(s.writes, AuthFailed) <==> SignInIsStopped(s.heard))
            && (IsOn(s.writes, CloudOffline) ==> since.Some? && s.now >= since.value + graceMs)
            && (since.Some? && !s.isClosed && !IsOn(s.writes, CloudOffline) ==> s.offlineTimer == Some(since.value + graceMs))
  {
    hide IsOn, SignInIsStopped, HasStarted, TroubleSince;
    FreshIsOk(graceMs);
    RunKeepsInv(graceMs, FRESH, events);
  }

  lemma FreshIsOk(graceMs: nat)
    ensures Inv(graceMs, FRESH)
  {
  }

  /** Trouble that is still on began with a call that no reset has followed. */
  lemma {:induction false} TroubleIsUnbroken(heard: seq<Heard>) returns (i: nat)
    requires TroubleSince(heard).Some?
    ensures i < |heard| && heard[i].at == TroubleSince(heard).value && IsTrouble(heard[..i], heard[i].call)
    ensures forall k :: i <= k < |heard| ==> !IsReset(heard[k].call)
    ensures TroubleSince(heard[..i]) == None
  {
    var before := heard[..|heard| - 1];
    if TroubleSince(before).Some? {
      i := TroubleIsUnbroken(before);
      assert heard[..i] == before[..i];
      forall k | i <= k < |heard| ensures !IsReset(heard[k].call) {
        if k < |before| {
          assert before[k] == heard[k];
        }
      }
    } else {
      i := |heard| - 1;
    }
  }

  /** While it lasts, nothing that is reported moves the moment it is counted from. */
  lemma {:induction false} ReportsDoNotMoveIt(heard: seq<Heard>, more: seq<Heard>)
    requires TroubleSince(heard).Some? && forall k :: 0 <= k < |more| ==> !IsReset(more[k].call)
    ensures TroubleSince(heard + more) == TroubleSince(heard)
  {
    if more == [] {
      assert heard + more == heard;
    } else {
      var front, last := more[..|more| - 1], more[|more| - 1];
      ReportsDoNotMoveIt(heard, front);
      assert heard + more == (heard + front) + [Heard(last.call, last.at)];
      OneMoreHeard(heard + front, last.call, last.at);
    }
  }

  /** `cloud-offline` is turned on by the grace timer alone, in full, with no reset since it began. */
  lemma CloudTurnsOnOnlyAfterTheGrace(graceMs: nat, events: seq<Event>, e: Event) returns (i: nat)
    requires var s := Run(graceMs, FRESH, events);
             !IsOn(s.writes, CloudOffline) && IsOn(Step(graceMs, s, e).writes, CloudOffline)
    ensures e == TimerFires
    ensures var s := Run(graceMs, FRESH, events);
            && i < |s.heard| && s.heard[i].at + graceMs <= s.now && (s.heard[i].call.Unreachable? || s.heard[i].call.Start?)
            && forall k :: i <= k < |s.heard| ==> !IsReset(s.heard[k].call)
  {
    hide IsOn, SignInIsStopped, HasStarted, TroubleSince, Take, Fire;
    var s := Run(graceMs, FRESH, events);
    FreshIsOk(graceMs);
    RunKeepsInv(graceMs, FRESH, events);
    StepKeepsInv(graceMs, s, e);
    OnlyTheTimerConfirms(graceMs, s, e);
    i := TroubleIsUnbroken(s.heard);
  }

  lemma OnlyTheTimerConfirms(graceMs: nat, s: Signals, e: Event)
    requires !s.isCloudOfflineConfirmed && Step(graceMs, s, e).isCloudOfflineConfirmed
    ensures e == TimerFires && TimerDue(s)
  {
  }

  /** Nothing is written once the tracker is closed, whatever calls and timers still come. */
  lemma {:induction false} ClosedForGood(graceMs: nat, s: Signals, events: seq<Event>)
    requires s.isClosed && s.offlineTimer.None?
    ensures Run(graceMs, s, events).writes == s.writes && Run(graceMs, s, events).isClosed
    ensures Run(graceMs, s, events).offlineTimer.None?
  {
    if events != [] {
      ClosedForGood(graceMs, s, events[..|events| - 1]);
    }
  }

  /** One device in alarm is enough to page; only a full answer with none in alarm clears. */
  lemma ClearsOnlyOnAFullQuietRead(graceMs: nat, s: Signals, handlers: map<string, bool>, requested: set<string>, read: set<string>)
    requires !s.isClosed
    ensures var t := Step(graceMs, s, Call(Devices(HouseSignal(handlers, requested, read), None)));
            && (!IsOn(s.writes, AlarmActive) && IsOn(t.writes, AlarmActive) ==> exists id <- handlers :: handlers[id])
            && (IsOn(s.writes, AlarmActive) && !IsOn(t.writes, AlarmActive) ==>
                  requested <= read && forall id <- handlers :: !handlers[id])
            && ((exists id <- handlers :: handlers[id]) ==> IsOn(t.writes, AlarmActive))
  {
    hide IsOn;
    var observed := HouseSignal(handlers, requested, read);
    if observed.Some? {
      OneMoreWrite(s.writes, Write(AlarmActive, observed.value, Critical, ALARM_ACTIVE_SUMMARY, s.now), AlarmActive);
    }
  }
}
