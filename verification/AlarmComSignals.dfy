/** The `AlarmComSignals` object, proved to take its fields where `SignalsSpec` says. */
module SignalTrackers {
  import opened Options
  import opened SignalsSpec

  class AlarmComSignals {
    const graceMs: nat

    var now: int
    ghost var heard: seq<Heard>
    // Everything handed to the writer, in order.
    var writes: seq<Write>

    var offlineTimer: Option<int>
    var isCloudOfflineConfirmed: bool
    var isAuthRejected: bool
    var hasStarted: bool
    var isClosed: bool

    ghost function State(): Signals
      reads this
    {
      Signals(now, heard, writes, offlineTimer, isCloudOfflineConfirmed, isAuthRejected, hasStarted, isClosed)
    }

    constructor (graceMs: nat)
      ensures State() == FRESH && this.graceMs == graceMs
    {
      this.graceMs := graceMs;
      now, heard, writes, offlineTimer := 0, [], [], None;
      isCloudOfflineConfirmed, isAuthRejected, hasStarted, isClosed := false, false, false, false;
    }

    ghost method HearCall(call: SignalsSpec.Call)
      modifies this`heard
      ensures State() == Hear(old(State()), call)
    {
      heard := heard + [Heard(call, now)];
    }

    method PutWrite(signal: Signal, active: bool, severity: Severity, summary: string)
      modifies this`writes
      ensures State() == Put(old(State()), signal, active, severity, summary)
    {
      writes := writes + [Write(signal, active, severity, summary, now)];
    }

    method PutAuth(active: bool, failure: SignInFailure)
      modifies this`writes
      ensures State() == WriteAuth(old(State()), active, failure)
    {
      PutWrite(AuthFailed, active, Error,
               if failure == LoginFormUnreadable then AUTH_LOGIN_FORM_SUMMARY else AUTH_REJECTED_SUMMARY);
    }

    method PutCloud()
      modifies this`writes
      ensures State() == WriteCloud(old(State()))
    {
      PutWrite(CloudOffline, isCloudOfflineConfirmed && !isAuthRejected, Error, CLOUD_OFFLINE_SUMMARY);
    }

    method ArmGrace()
      modifies this`offlineTimer
      ensures State() == ArmOfflineGrace(graceMs, old(State()))
    {
      if offlineTimer.Some? || isCloudOfflineConfirmed {
        return;
      }
      offlineTimer := Some(now + graceMs);
    }

    method ClearOfflineTimer()
      modifies this`offlineTimer
      ensures State() == old(State()).(offlineTimer := None)
    {
      if offlineTimer.Some? {
        offlineTimer := None;
      }
    }

    method Begin()
      modifies this
      ensures State() == Step(graceMs, old(State()), Call(Start))
    {
      hide ArmOfflineGrace;
      if isClosed {
        return;
      }
      HearCall(Start);
      if hasStarted {
        return;
      }
      hasStarted := true;
      if !isAuthRejected {
        ArmGrace();
      }
    }

    method NoteReached()
      modifies this
      ensures State() == Step(graceMs, old(State()), Call(Reached))
    {
      hide WriteAuth, WriteCloud;
      if isClosed {
        return;
      }
      HearCall(Reached);
      isAuthRejected := false;
      isCloudOfflineConfirmed := false;
      ClearOfflineTimer();
      PutAuth(false, CredentialsRejected);
      PutCloud();
    }

    method NoteUnreachable()
      modifies this
      ensures State() == Step(graceMs, old(State()), Call(Unreachable))
    {
      hide ArmOfflineGrace;
      if isClosed {
        return;
      }
      HearCall(Unreachable);
      if isAuthRejected {
        return;
      }
      ArmGrace();
    }

    method NoteSignInStopped(failure: SignInFailure)
      modifies this
      ensures State() == Step(graceMs, old(State()), Call(SignInStopped(failure)))
    {
      hide WriteAuth, WriteCloud;
      if isClosed {
        return;
      }
      HearCall(SignInStopped(failure));
      isAuthRejected := true;
      isCloudOfflineConfirmed := false;
      ClearOfflineTimer();
      PutAuth(true, failure);
      PutCloud();
    }

    method NoteSomeDevices(alarmActive: Option<bool>, smokeActive: Option<bool>)
      modifies this
      ensures State() == Step(graceMs, old(State()), Call(Devices(alarmActive, smokeActive)))
    {
      hide Put;
      if isClosed {
        return;
      }
      HearCall(Devices(alarmActive, smokeActive));
      if alarmActive.Some? {
        PutWrite(AlarmActive, alarmActive.value, Critical, ALARM_ACTIVE_SUMMARY);
      }
      if smokeActive.Some? {
        PutWrite(SmokeActive, smokeActive.value, Critical, SMOKE_ACTIVE_SUMMARY);
      }
    }

    method CloseTracker()
      modifies this`isClosed, this`offlineTimer
      ensures State() == Step(graceMs, old(State()), Close)
    {
      if isClosed {
        return;
      }
      isClosed := true;
      ClearOfflineTimer();
    }

    method OnOfflineTimer()
      requires TimerDue(State())
      modifies this`offlineTimer, this`isCloudOfflineConfirmed, this`writes
      ensures State() == Step(graceMs, old(State()), TimerFires)
    {
      hide WriteCloud;
      offlineTimer := None;
      if isClosed {
        return;
      }
      isCloudOfflineConfirmed := true;
      PutCloud();
    }

    method Elapsed(ms: nat)
      modifies this`now
      ensures State() == Step(graceMs, old(State()), Elapse(ms))
    {
      now := now + ms;
    }

    method Handle(e: Event)
      modifies this
      ensures State() == Step(graceMs, old(State()), e)
    {
      hide Take, Fire;
      match e
      case Call(Start) => Begin();
      case Call(Reached) => NoteReached();
      case Call(Unreachable) => NoteUnreachable();
      case Call(SignInStopped(failure)) => NoteSignInStopped(failure);
      case Call(Devices(alarmActive, smokeActive)) => NoteSomeDevices(alarmActive, smokeActive);
      case Close => CloseTracker();
      case TimerFires => if offlineTimer.Some? && now >= offlineTimer.value { OnOfflineTimer(); }
      case Elapse(ms) => Elapsed(ms);
    }
  }

  /** A new tracker handed any events at all ends where the machine's run of them does. */
  method Replay(graceMs: nat, events: seq<Event>) returns (tracker: AlarmComSignals)
    ensures fresh(tracker) && tracker.State() == Run(graceMs, FRESH, events)
  {
    hide Step;
    tracker := new AlarmComSignals(graceMs);
    for n := 0 to |events|
      invariant fresh(tracker) && tracker.graceMs == graceMs
      invariant tracker.State() == Run(graceMs, FRESH, events[..n])
    {
      assert events[..n + 1][..n] == events[..n];
      tracker.Handle(events[n]);
    }
    assert events[..|events|] == events;
  }
}
