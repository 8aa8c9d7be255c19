/** The `SessionManager` object, proved to take its fields where `SessionSpec` says. */
module SessionManagers {
  import opened Options
  import opened Settings
  import opened SessionSpec

  class SessionManager {
    const lifetimeMs: nat

    var now: int
    var nextSession: nat
    var nextFlight: nat
    var flights: map<nat, Stage>
    var nextProbe: nat
    var probes: map<nat, nat>
    ghost var logins: seq<Login>
    ghost var signs: seq<Sign>

    var session: Option<nat>
    var verifiedAt: int
    var lastLoginAttempt: int
    var hasPermanentFailure: bool
    var pendingLogin: Option<nat>
    var keepAliveFailures: nat

    ghost function State(): Manager
      reads this
    {
      Manager(now, nextSession, nextFlight, flights, nextProbe, probes, logins, signs,
              session, verifiedAt, lastLoginAttempt, hasPermanentFailure, pendingLogin, keepAliveFailures)
    }

    constructor (lifetimeMs: nat, now: int)
      ensures State() == SessionSpec.Fresh(now) && this.lifetimeMs == lifetimeMs
    {
      this.lifetimeMs := lifetimeMs;
      this.now, nextSession, nextFlight, flights, nextProbe, probes := now, 0, 0, map[], 0, map[];
      logins, signs := [], [];
      session, verifiedAt, lastLoginAttempt := None, 0, 0;
      hasPermanentFailure, pendingLogin, keepAliveFailures := false, None, 0;
    }

    /** `getSession` up to its first suspension, and which of its three ways it took. */
    method GetASession() returns (answer: Answer)
      modifies this`nextFlight, this`flights, this`pendingLogin
      ensures State() == Step(lifetimeMs, old(State()), Get)
      ensures answer == AnswerOf(lifetimeMs, old(State()))
    {
      if session.Some? && now - verifiedAt < lifetimeMs {
        return Reuse(session.value);
      }
      if pendingLogin.Some? {
        return Join(pendingLogin.value);
      }
      var stage := AwaitLoginFloor();
      flights := flights[nextFlight := stage];
      pendingLogin := Some(nextFlight);
      nextFlight := nextFlight + 1;
      return Start;
    }

    method AwaitLoginFloor() returns (stage: Stage)
      ensures stage == FirstStage(lifetimeMs, State())
    {
      if lastLoginAttempt == 0 {
        return Ready;
      }
      var remainingMs := lifetimeMs - (now - lastLoginAttempt);
      if remainingMs <= 0 {
        return Ready;
      }
      if hasPermanentFailure {
        return Settled;
      }
      if remainingMs > MAX_LOGIN_FLOOR_WAIT_MS {
        return Settled;
      }
      return Waiting(now + remainingMs);
    }

    /** `#login` goes on from its floor to `authenticate`. */
    method OnFloorPassed(flight: nat)
      requires Enabled(State(), Wake(flight))
      modifies this`flights
      ensures State() == Step(lifetimeMs, old(State()), Wake(flight))
    {
      flights := flights[flight := Authenticating(now)];
    }

    method OnWaitAborted(flight: nat)
      requires Enabled(State(), AbortWait(flight))
      modifies this`flights
      ensures State() == Step(lifetimeMs, old(State()), AbortWait(flight))
    {
      flights := flights[flight := Settled];
    }

    /** `invalidate`, and what the other paths do to drop a session. */
    method DropSession()
      modifies this`session, this`verifiedAt, this`keepAliveFailures
      ensures State() == Discard(old(State()))
    {
      session := None;
      verifiedAt := 0;
      keepAliveFailures := 0;
    }

    method Hold()
      modifies this`session, this`nextSession, this`signs, this`verifiedAt, this`keepAliveFailures
      ensures State() == old(State()).(session := Some(old(nextSession)), nextSession := old(nextSession) + 1,
          signs := old(signs) + [Good(old(nextSession), now)], verifiedAt := now, keepAliveFailures := 0)
    {
      signs := signs + [Good(nextSession, now)];
      session, nextSession := Some(nextSession), nextSession + 1;
      verifiedAt := now;
      keepAliveFailures := 0;
    }

    method OnLoginSucceeded()
      modifies this
      ensures State() == Succeed(old(State()))
    {
      Hold();
      lastLoginAttempt := now;
      hasPermanentFailure := false;
    }

    method OnLoginFailed(isRejected: bool)
      modifies this`session, this`verifiedAt, this`keepAliveFailures, this`lastLoginAttempt, this`hasPermanentFailure
      ensures State() == Fail(lifetimeMs, old(State()), isRejected)
    {
      DropSession();
      lastLoginAttempt := now - (lifetimeMs - FAILED_LOGIN_FLOOR_MS);
      if isRejected {
        lastLoginAttempt := now;
        hasPermanentFailure := true;
      }
    }

    method NoteLogin(flight: nat, outcome: Outcome)
      requires Enabled(State(), Authenticated(flight, outcome))
      modifies this`flights, this`logins
      ensures State() == old(State()).(flights := old(flights)[flight := Settled],
          logins := old(logins) + [Login(old(flights)[flight].start, now, outcome)])
    {
      logins := logins + [Login(flights[flight].start, now, outcome)];
      flights := flights[flight := Settled];
    }

    /** `#login` once `authenticate` has settled. */
    method OnAuthenticated(flight: nat, outcome: Outcome)
      requires Enabled(State(), Authenticated(flight, outcome))
      modifies this
      ensures State() == Step(lifetimeMs, old(State()), Authenticated(flight, outcome))
    {
      hide Succeed, Fail;
      NoteLogin(flight, outcome);
      match outcome
      case Granted => OnLoginSucceeded();
      case GrantedButCallbackThrew =>
        OnLoginSucceeded();
        OnLoginFailed(false);
      case Rejected => OnLoginFailed(true);
      case Transient => OnLoginFailed(false);
    }

    /** The `finally` of `getSession`. */
    method OnSettled(flight: nat)
      requires Enabled(State(), Clear(flight))
      modifies this`flights, this`pendingLogin
      ensures State() == Step(lifetimeMs, old(State()), Clear(flight))
    {
      flights := flights - {flight};
      pendingLogin := None;
    }

    /** `touch` up to its keep-alive request. */
    method StartTouch() returns (isSent: bool)
      modifies this`probes, this`nextProbe
      ensures State() == Step(lifetimeMs, old(State()), Touch)
      ensures isSent <==> session.Some?
    {
      if session.None? {
        return false;
      }
      probes := probes[nextProbe := session.value];
      nextProbe := nextProbe + 1;
      return true;
    }

    /** The keep-alive failed to reach Alarm.com while its session was still the one held. */
    method CountFailure()
      modifies this`session, this`verifiedAt, this`keepAliveFailures
      ensures State() == if old(keepAliveFailures) + 1 >= KEEPALIVE_FAILURE_LIMIT then Discard(old(State()))
                         else old(State()).(keepAliveFailures := old(keepAliveFailures) + 1)
    {
      keepAliveFailures := keepAliveFailures + 1;
      if keepAliveFailures >= KEEPALIVE_FAILURE_LIMIT {
        DropSession();
      }
    }

    method NoteSign(sign: Sign)
      modifies this`signs
      ensures State() == old(State()).(signs := old(signs) + [sign])
    {
      signs := signs + [sign];
    }

    /** `touch` from its reply on. */
    method FinishTouch(probed: nat, reply: Reply) returns (isAlive: bool)
      modifies this`session, this`verifiedAt, this`keepAliveFailures, this`signs
      ensures State() == Heed(old(State()), probed, reply)
      ensures isAlive <==> reply == Alive
    {
      hide Discard;
      match reply
      case Dead =>
        if session == Some(probed) {
          DropSession();
        }
        return false;
      case Alive =>
        NoteSign(Good(probed, now));
        if session == Some(probed) {
          verifiedAt := now;
          keepAliveFailures := 0;
        }
        return true;
      case TransportError =>
        NoteSign(Bad(probed, now));
        if session != Some(probed) {
          return false;
        }
        CountFailure();
        return false;
    }

    method OnAnswered(probe: nat, reply: Reply) returns (isAlive: bool)
      requires probe in probes
      modifies this`probes, this`session, this`verifiedAt, this`keepAliveFailures, this`signs
      ensures State() == Step(lifetimeMs, old(State()), Answered(probe, reply))
      ensures isAlive <==> reply == Alive
    {
      hide Heed;
      var probed := probes[probe];
      probes := probes - {probe};
      isAlive := FinishTouch(probed, reply);
    }

    method InvalidateSession()
      modifies this`session, this`verifiedAt, this`keepAliveFailures
      ensures State() == Step(lifetimeMs, old(State()), Invalidate)
    {
      DropSession();
    }

    method Elapsed(ms: nat)
      modifies this`now
      ensures State() == Step(lifetimeMs, old(State()), Elapse(ms))
    {
      now := now + ms;
    }

    method Handle(e: Event)
      modifies this
      ensures State() == Step(lifetimeMs, old(State()), e)
    {
      hide Apply;
      match e
      case Get => var _ := GetASession();
      case Wake(f) =>
        if f in flights && (flights[f].Ready? || (flights[f].Waiting? && now >= flights[f].wakeAt)) { OnFloorPassed(f); }
      case AbortWait(f) => if f in flights && flights[f].Waiting? { OnWaitAborted(f); }
      case Authenticated(f, outcome) => if f in flights && flights[f].Authenticating? { OnAuthenticated(f, outcome); }
      case Clear(f) => if f in flights && flights[f].Settled? { OnSettled(f); }
      case Touch => var _ := StartTouch();
      case Answered(p, reply) =>
        if p in probes {
          var _ := OnAnswered(p, reply);
        }
      case Invalidate => InvalidateSession();
      case Elapse(ms) => Elapsed(ms);
    }
  }

  /** A new manager handed any events at all ends where the machine's run of them does. */
  method Replay(lifetimeMs: nat, now: int, events: seq<Event>) returns (manager: SessionManager)
    ensures fresh(manager) && manager.State() == Run(lifetimeMs, SessionSpec.Fresh(now), events)
  {
    hide Step;
    manager := new SessionManager(lifetimeMs, now);
    for n := 0 to |events|
      invariant fresh(manager) && manager.lifetimeMs == lifetimeMs
      invariant manager.State() == Run(lifetimeMs, SessionSpec.Fresh(now), events[..n])
    {
      assert events[..n + 1][..n] == events[..n];
      manager.Handle(events[n]);
    }
    assert events[..|events|] == events;
  }
}
