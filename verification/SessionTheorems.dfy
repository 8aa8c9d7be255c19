/** Logins never overlap and are paced; keep-alives never touch a session they did not probe. */
module SessionTheorems {
  import opened Options
  import opened Settings
  import opened SlidingWindow
  import opened SessionSpec

  /** How long after a login that ended this way the next one may start. */
  function Floor(lifetimeMs: nat, outcome: Outcome): int {
    if outcome == Granted || outcome == Rejected then lifetimeMs else FAILED_LOGIN_FLOOR_MS
  }

  // ---- One login at a time, each after the floor of the one before. ----

  /** There is a flight exactly while `#pendingLogin` is held. */
  predicate SingleFlight(s: Manager) {
    && (forall f <- s.flights :: s.pendingLogin == Some(f))
    && (s.pendingLogin.Some? ==> s.pendingLogin.value in s.flights && s.pendingLogin.value < s.nextFlight)
  }

  predicate MayStart(lifetimeMs: nat, logins: seq<Login>, at: int) {
    logins != [] ==> at >= logins[|logins| - 1].end + Floor(lifetimeMs, logins[|logins| - 1].outcome)
  }

  predicate StageOk(lifetimeMs: nat, s: Manager, stage: Stage) {
    match stage
    case Ready => MayStart(lifetimeMs, s.logins, s.now)
    case Waiting(at) => MayStart(lifetimeMs, s.logins, at)
    case Authenticating(start) => start <= s.now && MayStart(lifetimeMs, s.logins, start)
    case Settled => true
  }

  predicate IsPaced(lifetimeMs: nat, logins: seq<Login>) {
    && (forall i :: 0 <= i < |logins| ==> logins[i].start <= logins[i].end)
    && (forall i :: 0 < i < |logins| ==>
          logins[i].start >= logins[i - 1].end + Floor(lifetimeMs, logins[i - 1].outcome))
  }

  /** `#lastLoginAttempt` is dated so that one interval later is when the next login may start. */
  predicate StampOk(lifetimeMs: nat, s: Manager) {
    && s.now > lifetimeMs
    && if s.logins == [] then s.lastLoginAttempt == 0
       else
         var last := s.logins[|s.logins| - 1];
         && last.end <= s.now
         && s.lastLoginAttempt > 0
         && s.lastLoginAttempt + lifetimeMs == last.end + Floor(lifetimeMs, last.outcome)
  }

  predicate PaceInv(lifetimeMs: nat, s: Manager) {
    && SingleFlight(s) && StampOk(lifetimeMs, s) && IsPaced(lifetimeMs, s.logins)
    && forall f <- s.flights :: StageOk(lifetimeMs, s, s.flights[f])
  }

  lemma StampMeansFloor(lifetimeMs: nat, s: Manager)
    requires StampOk(lifetimeMs, s)
    ensures StageOk(lifetimeMs, s, FirstStage(lifetimeMs, s))
  {
  }

  lemma GetKeepsPace(lifetimeMs: nat, s: Manager)
    requires PaceInv(lifetimeMs, s)
    ensures PaceInv(lifetimeMs, GetSession(lifetimeMs, s))
  {
    hide IsPaced, FirstStage, StageOk;
    StampMeansFloor(lifetimeMs, s);
    var t := GetSession(lifetimeMs, s);
    StagesCarryOver(lifetimeMs, s, t);
  }

  /** A stage is judged by the clock and by the logins made. */
  lemma StagesCarryOver(lifetimeMs: nat, s: Manager, t: Manager)
    requires t.logins == s.logins && t.now >= s.now
    ensures forall stage :: StageOk(lifetimeMs, s, stage) ==> StageOk(lifetimeMs, t, stage)
  {
  }

  lemma WakeKeepsPace(lifetimeMs: nat, s: Manager, flight: nat)
    requires PaceInv(lifetimeMs, s) && Enabled(s, Wake(flight))
    ensures PaceInv(lifetimeMs, Apply(lifetimeMs, s, Wake(flight)))
  {
    hide IsPaced;
  }

  lemma EndedLoginKeepsStamp(lifetimeMs: nat, s: Manager, start: int, outcome: Outcome)
    requires s.now > lifetimeMs
    ensures StampOk(lifetimeMs, EndLogin(lifetimeMs, s.(logins := s.logins + [Login(start, s.now, outcome)]), outcome))
  {
  }

  lemma OneMoreIsPaced(lifetimeMs: nat, logins: seq<Login>, login: Login)
    requires IsPaced(lifetimeMs, logins) && MayStart(lifetimeMs, logins, login.start) && login.start <= login.end
    ensures IsPaced(lifetimeMs, logins + [login])
  {
  }

  lemma EndingTouches(lifetimeMs: nat, s: Manager, outcome: Outcome)
    ensures var t := EndLogin(lifetimeMs, s, outcome);
            && t.logins == s.logins && t.flights == s.flights && t.now == s.now
            && t.pendingLogin == s.pendingLogin && t.nextFlight == s.nextFlight
  {
  }

  lemma AuthenticatedKeepsPace(lifetimeMs: nat, s: Manager, flight: nat, outcome: Outcome)
    requires PaceInv(lifetimeMs, s) && flight in s.flights && s.flights[flight].Authenticating?
    ensures PaceInv(lifetimeMs, Authenticate(lifetimeMs, s, flight, outcome))
  {
    hide IsPaced, StampOk, EndLogin, MayStart;
    var start := s.flights[flight].start;
    assert StageOk(lifetimeMs, s, s.flights[flight]);
    var settled := s.(flights := s.flights[flight := Settled]);
    var ended := settled.(logins := s.logins + [Login(start, s.now, outcome)]);
    ClockOk(lifetimeMs, s);
    EndedLoginKeepsStamp(lifetimeMs, settled, start, outcome);
    EndingTouches(lifetimeMs, ended, outcome);
    OneMoreIsPaced(lifetimeMs, s.logins, Login(start, s.now, outcome));
  }

  lemma ClockOk(lifetimeMs: nat, s: Manager)
    requires StampOk(lifetimeMs, s)
    ensures s.now > lifetimeMs
  {
  }

  lemma SettlingKeepsPace(lifetimeMs: nat, s: Manager, flight: nat)
    requires PaceInv(lifetimeMs, s) && flight in s.flights
    ensures PaceInv(lifetimeMs, s.(flights := s.flights[flight := Settled]))
    ensures PaceInv(lifetimeMs, s.(flights := s.flights - {flight}, pendingLogin := None))
  {
    hide IsPaced;
  }

  /** Nothing else about a manager has a say in when it signs in. */
  lemma OthersKeepPace(lifetimeMs: nat, s: Manager, t: Manager)
    requires PaceInv(lifetimeMs, s) && t.now >= s.now && t.logins == s.logins
    requires t.lastLoginAttempt == s.lastLoginAttempt
    requires t.flights == s.flights && t.pendingLogin == s.pendingLogin && t.nextFlight == s.nextFlight
    ensures PaceInv(lifetimeMs, t)
  {
    hide IsPaced, StageOk;
    StagesCarryOver(lifetimeMs, s, t);
  }

  lemma StepKeepsPace(lifetimeMs: nat, s: Manager, e: Event)
    requires PaceInv(lifetimeMs, s)
    ensures PaceInv(lifetimeMs, Step(lifetimeMs, s, e))
  {
    hide PaceInv, GetSession, Authenticate;
    if Enabled(s, e) {
      match e
      case Get => GetKeepsPace(lifetimeMs, s);
      case Wake(f) => WakeKeepsPace(lifetimeMs, s, f);
      case AbortWait(f) => SettlingKeepsPace(lifetimeMs, s, f);
      case Authenticated(f, outcome) => AuthenticatedKeepsPace(lifetimeMs, s, f, outcome);
      case Clear(f) => SettlingKeepsPace(lifetimeMs, s, f);
      case Touch => OthersKeepPace(lifetimeMs, s, Step(lifetimeMs, s, e));
      case Answered(p, reply) => OthersKeepPace(lifetimeMs, s, Step(lifetimeMs, s, e));
      case Invalidate => OthersKeepPace(lifetimeMs, s, Step(lifetimeMs, s, e));
      case Elapse(ms) => OthersKeepPace(lifetimeMs, s, Step(lifetimeMs, s, e));
    }
  }

  lemma {:induction false} RunKeepsPace(lifetimeMs: nat, s: Manager, events: seq<Event>)
    requires PaceInv(lifetimeMs, s)
    ensures PaceInv(lifetimeMs, Run(lifetimeMs, s, events))
  {
    hide PaceInv, Step;
    if events != [] {
      RunKeepsPace(lifetimeMs, s, events[..|events| - 1]);
      StepKeepsPace(lifetimeMs, Run(lifetimeMs, s, events[..|events| - 1]), events[|events| - 1]);
    }
  }

  /** At no moment are two logins under way, nor even two waiting to be. */
  lemma LoginsNeverOverlap(lifetimeMs: nat, now: int, events: seq<Event>, f: nat, g: nat)
    requires now > lifetimeMs
    requires f in Run(lifetimeMs, Fresh(now), events).flights && g in Run(lifetimeMs, Fresh(now), events).flights
    ensures f == g
  {
    RunKeepsPace(lifetimeMs, Fresh(now), events);
  }

  lemma {:induction false} LaterLoginsKeepTheFloor(lifetimeMs: nat, logins: seq<Login>, i: nat, j: nat)
    requires IsPaced(lifetimeMs, logins) && i < j < |logins|
    ensures logins[j].start >= logins[i].end + Floor(lifetimeMs, logins[i].outcome)
    decreases j - i
  {
    if i + 1 < j {
      LaterLoginsKeepTheFloor(lifetimeMs, logins, i, j - 1);
    }
  }

  /** Every login starts at least the floor after the end of every earlier one. */
  lemma LoginsKeepTheFloor(lifetimeMs: nat, now: int, events: seq<Event>, i: nat, j: nat)
    requires now > lifetimeMs
    requires i < j < |Run(lifetimeMs, Fresh(now), events).logins|
    ensures var logins := Run(lifetimeMs, Fresh(now), events).logins;
            logins[i].end + Floor(lifetimeMs, logins[i].outcome) <= logins[j].start <= logins[j].end
  {
    RunKeepsPace(lifetimeMs, Fresh(now), events);
    LaterLoginsKeepTheFloor(lifetimeMs, Run(lifetimeMs, Fresh(now), events).logins, i, j);
  }

  lemma {:induction false} StartsAreApart(lifetimeMs: nat, logins: seq<Login>, i: nat, j: nat)
    requires lifetimeMs >= FAILED_LOGIN_FLOOR_MS && IsPaced(lifetimeMs, logins) && i <= j < |logins|
    ensures logins[j].start - logins[i].start >= FAILED_LOGIN_FLOOR_MS * (j - i)
    decreases j - i
  {
    if i < j {
      StartsAreApart(lifetimeMs, logins, i, j - 1);
    }
  }

  /** However the logins end, a window of time holds only so many starts. */
  lemma LoginsInAnyWindowAreBounded(lifetimeMs: nat, now: int, events: seq<Event>, i: nat, j: nat, windowMs: nat)
    requires now > lifetimeMs >= FAILED_LOGIN_FLOOR_MS
    requires i <= j < |Run(lifetimeMs, Fresh(now), events).logins|
    requires var logins := Run(lifetimeMs, Fresh(now), events).logins; logins[j].start - logins[i].start < windowMs
    ensures j - i <= windowMs / FAILED_LOGIN_FLOOR_MS
  {
    RunKeepsPace(lifetimeMs, Fresh(now), events);
    StartsAreApart(lifetimeMs, Run(lifetimeMs, Fresh(now), events).logins, i, j);
  }

  // ---- What a caller who needs a login is told. ----

  /** Whether the last word Alarm.com had on the credentials was that they are wrong. */
  predicate CredentialsRefused(logins: seq<Login>) {
    if logins == [] then false else
    match logins[|logins| - 1].outcome
    case Rejected => true
    case Transient => CredentialsRefused(logins[..|logins| - 1])
    case _ => false
  }

  predicate RefusalOk(s: Manager) {
    s.hasPermanentFailure <==> CredentialsRefused(s.logins)
  }

  lemma GettingKeepsRefusal(lifetimeMs: nat, s: Manager)
    requires RefusalOk(s)
    ensures RefusalOk(GetSession(lifetimeMs, s))
  {
    hide CredentialsRefused, FirstStage;
  }

  lemma HeedingKeepsRefusal(s: Manager, probed: nat, reply: Reply)
    requires RefusalOk(s)
    ensures RefusalOk(Heed(s, probed, reply))
  {
    hide CredentialsRefused;
  }

  lemma OneMoreLogin(logins: seq<Login>, login: Login)
    ensures CredentialsRefused(logins + [login])
       <==> login.outcome == Rejected || (login.outcome == Transient && CredentialsRefused(logins))
  {
    var longer := logins + [login];
    assert longer[..|longer| - 1] == logins;
  }

  lemma AuthenticatingKeepsRefusal(lifetimeMs: nat, s: Manager, flight: nat, outcome: Outcome)
    requires RefusalOk(s) && flight in s.flights && s.flights[flight].Authenticating?
    ensures RefusalOk(Authenticate(lifetimeMs, s, flight, outcome))
  {
    hide CredentialsRefused;
    OneMoreLogin(s.logins, Login(s.flights[flight].start, s.now, outcome));
  }

  lemma StepKeepsRefusal(lifetimeMs: nat, s: Manager, e: Event)
    requires RefusalOk(s)
    ensures RefusalOk(Step(lifetimeMs, s, e))
  {
    hide CredentialsRefused, GetSession, Heed, Authenticate;
    if Enabled(s, e) {
      match e
      case Get => GettingKeepsRefusal(lifetimeMs, s);
      case Answered(p, reply) => HeedingKeepsRefusal(s.(probes := s.probes - {p}), s.probes[p], reply);
      case Authenticated(f, outcome) => AuthenticatingKeepsRefusal(lifetimeMs, s, f, outcome);
      case _ =>
    }
  }

  lemma {:induction false} RunKeepsRefusal(lifetimeMs: nat, s: Manager, events: seq<Event>)
    requires RefusalOk(s)
    ensures RefusalOk(Run(lifetimeMs, s, events))
  {
    hide RefusalOk, Step;
    if events != [] {
      RunKeepsRefusal(lifetimeMs, s, events[..|events| - 1]);
      StepKeepsRefusal(lifetimeMs, Run(lifetimeMs, s, events[..|events| - 1]), events[|events| - 1]);
    }
  }

  /** When the next login may start, by the logins made. */
  function DueAt(lifetimeMs: nat, logins: seq<Login>): int
    requires logins != []
  {
    logins[|logins| - 1].end + Floor(lifetimeMs, logins[|logins| - 1].outcome)
  }

  /**
   * A login that is due goes ahead. One that is not is refused while the credentials stand refused
   * or the wait is longer than a caller may be held, and is otherwise waited for to the millisecond.
   */
  lemma FloorIsWhatTheLoginsSay(lifetimeMs: nat, now: int, events: seq<Event>)
    requires now > lifetimeMs
    ensures var s := Run(lifetimeMs, Fresh(now), events);
            FirstStage(lifetimeMs, s)
            == if s.logins == [] || s.now >= DueAt(lifetimeMs, s.logins) then Ready
               else if CredentialsRefused(s.logins) || DueAt(lifetimeMs, s.logins) - s.now > 5_000 then Settled
               else Waiting(DueAt(lifetimeMs, s.logins))
  {
    hide IsPaced, StageOk, SingleFlight, CredentialsRefused;
    FreshIsOk(lifetimeMs, now);
    RunKeepsPace(lifetimeMs, Fresh(now), events);
    RunKeepsRefusal(lifetimeMs, Fresh(now), events);
  }

  lemma FreshIsOk(lifetimeMs: nat, now: int)
    requires now > lifetimeMs
    ensures PaceInv(lifetimeMs, Fresh(now)) && RefusalOk(Fresh(now))
  {
  }

  // ---- A callback that throws turns a login that worked into one that is paced as failed. ----

  predicate WasGranted(outcome: Outcome) {
    outcome == Granted || outcome == GrantedButCallbackThrew
  }

  const RELOGIN: seq<Event> := [
    Get, Wake(0), Authenticated(0, GrantedButCallbackThrew), Clear(0), Elapse(FAILED_LOGIN_FLOOR_MS),
    Get, Wake(1), Authenticated(1, Granted)]

  function AfterThrow(lifetimeMs: nat, now: int): Manager {
    Manager(now + FAILED_LOGIN_FLOOR_MS, 1, 1, map[], 0, map[], [Login(now, now, GrantedButCallbackThrew)],
            [Good(0, now)], None, 0, now - (lifetimeMs - FAILED_LOGIN_FLOOR_MS), false, None, 0)
  }

  lemma FirstLogin(lifetimeMs: nat, now: int)
    ensures var s := Step(lifetimeMs, Step(lifetimeMs, Step(lifetimeMs, Fresh(now), Get), Wake(0)),
                          Authenticated(0, GrantedButCallbackThrew));
            Step(lifetimeMs, Step(lifetimeMs, s, Clear(0)), Elapse(FAILED_LOGIN_FLOOR_MS)) == AfterThrow(lifetimeMs, now)
  {
    var s := Step(lifetimeMs, Step(lifetimeMs, Fresh(now), Get), Wake(0));
    assert s.flights == map[0 := Authenticating(now)];
    assert Step(lifetimeMs, s, Authenticated(0, GrantedButCallbackThrew)).flights == map[0 := Settled];
    assert map[0 := Settled] - {0} == map[];
  }

  lemma SecondLogin(lifetimeMs: nat, now: int)
    requires now > lifetimeMs > FAILED_LOGIN_FLOOR_MS
    ensures var s := Step(lifetimeMs, Step(lifetimeMs, AfterThrow(lifetimeMs, now), Get), Wake(1));
            var second := now + FAILED_LOGIN_FLOOR_MS;
            Step(lifetimeMs, s, Authenticated(1, Granted)).logins
            == [Login(now, now, GrantedButCallbackThrew), Login(second, second, Granted)]
  {
  }

  lemma LastStep(lifetimeMs: nat, now: int, events: seq<Event>, k: nat)
    requires 0 < k <= |events|
    ensures Run(lifetimeMs, Fresh(now), events[..k])
         == Step(lifetimeMs, Run(lifetimeMs, Fresh(now), events[..k - 1]), events[k - 1])
  {
    assert events[..k][..k - 1] == events[..k - 1];
  }

  lemma RunNothing(lifetimeMs: nat, now: int)
    ensures Run(lifetimeMs, Fresh(now), []) == Fresh(now)
  {
  }

  lemma ReloginsEarly(lifetimeMs: nat, now: int)
    requires now > lifetimeMs > FAILED_LOGIN_FLOOR_MS
    ensures var second := now + FAILED_LOGIN_FLOOR_MS;
            Run(lifetimeMs, Fresh(now), RELOGIN).logins
            == [Login(now, now, GrantedButCallbackThrew), Login(second, second, Granted)]
  {
    hide Step, Run;
    FirstLogin(lifetimeMs, now);
    SecondLogin(lifetimeMs, now);
    var all := RELOGIN;
    LastStep(lifetimeMs, now, all, 1);
    LastStep(lifetimeMs, now, all, 2);
    LastStep(lifetimeMs, now, all, 3);
    LastStep(lifetimeMs, now, all, 4);
    LastStep(lifetimeMs, now, all, 5);
    LastStep(lifetimeMs, now, all, 6);
    LastStep(lifetimeMs, now, all, 7);
    LastStep(lifetimeMs, now, all, 8);
    RunNothing(lifetimeMs, now);
    assert all[..0] == [] && all[..8] == all;
  }

  // ---- Login by login. ----

  lemma {:induction false} RunSplits(lifetimeMs: nat, s: Manager, first: seq<Event>, rest: seq<Event>)
    ensures Run(lifetimeMs, s, first + rest) == Run(lifetimeMs, Run(lifetimeMs, s, first), rest)
    decreases |rest|
  {
    hide Step;
    if rest == [] {
      assert first + rest == first;
    } else {
      var all := first + rest;
      assert all[..|all| - 1] == first + rest[..|rest| - 1];
      RunSplits(lifetimeMs, s, first, rest[..|rest| - 1]);
    }
  }

  lemma {:induction false} LoginsOnlyGrow(lifetimeMs: nat, s: Manager, events: seq<Event>)
    ensures s.logins <= Run(lifetimeMs, s, events).logins
  {
    if events != [] {
      LoginsOnlyGrow(lifetimeMs, s, events[..|events| - 1]);
    }
  }

  /** A session is held only on the strength of the last login. */
  predicate HeldByLastLogin(s: Manager) {
    s.session.Some? ==> s.logins != [] && s.logins[|s.logins| - 1].outcome == Granted
  }

  lemma {:induction false} RunKeepsHeld(lifetimeMs: nat, s: Manager, events: seq<Event>)
    requires HeldByLastLogin(s)
    ensures HeldByLastLogin(Run(lifetimeMs, s, events))
  {
    hide Step, HeldByLastLogin;
    if events != [] {
      RunKeepsHeld(lifetimeMs, s, events[..|events| - 1]);
      StepKeepsHeld(lifetimeMs, Run(lifetimeMs, s, events[..|events| - 1]), events[|events| - 1]);
    }
  }

  lemma StepKeepsHeld(lifetimeMs: nat, s: Manager, e: Event)
    requires HeldByLastLogin(s)
    ensures HeldByLastLogin(Step(lifetimeMs, s, e))
  {
  }

  /** After `events`, the run goes on with `more` to a next login that starts inside the last one's interval. */
  predicate NextStartsInside(lifetimeMs: nat, now: int, events: seq<Event>, more: seq<Event>)
    requires Run(lifetimeMs, Fresh(now), events).logins != []
  {
    var logins, longer := Run(lifetimeMs, Fresh(now), events).logins, Run(lifetimeMs, Fresh(now), events + more).logins;
    |longer| > |logins| && longer[|logins|].start < logins[|logins| - 1].end + lifetimeMs
  }

  /** The shortest way to the next login: let the floor pass, ask, sign in. */
  function SoonestLogin(s: Manager): seq<Event>
    requires s.logins != []
  {
    var due := s.logins[|s.logins| - 1].end + FAILED_LOGIN_FLOOR_MS;
    [Elapse(if due <= s.now then 0 else due - s.now), Get, Wake(s.nextFlight), Authenticated(s.nextFlight, Granted)]
  }

  lemma SigningInAtOnce(lifetimeMs: nat, s: Manager)
    requires PaceInv(lifetimeMs, s) && RefusalOk(s) && HeldByLastLogin(s) && s.flights == map[]
    requires s.logins != [] && s.logins[|s.logins| - 1].outcome == GrantedButCallbackThrew
    ensures var due := s.logins[|s.logins| - 1].end + FAILED_LOGIN_FLOOR_MS;
            var at := if due <= s.now then s.now else due;
            Run(lifetimeMs, s, SoonestLogin(s)).logins == s.logins + [Login(at, at, Granted)]
  {
    hide IsPaced, StageOk;
    var all := SoonestLogin(s);
    assert all == [all[0]] + [all[1]] + [all[2]] + [all[3]];
    RunSplits(lifetimeMs, s, [all[0]] + [all[1]] + [all[2]], [all[3]]);
    RunSplits(lifetimeMs, s, [all[0]] + [all[1]], [all[2]]);
    RunSplits(lifetimeMs, s, [all[0]], [all[1]]);
    var later := Step(lifetimeMs, s, all[0]);
    RunOne(lifetimeMs, s, all[0]);
    RunOne(lifetimeMs, later, Get);
    assert RemainingMs(lifetimeMs, later) <= 0;
    var asked := Step(lifetimeMs, later, Get);
    assert asked.flights == map[s.nextFlight := Ready];
    RunOne(lifetimeMs, asked, Wake(s.nextFlight));
    var waking := Step(lifetimeMs, asked, Wake(s.nextFlight));
    RunOne(lifetimeMs, waking, Authenticated(s.nextFlight, Granted));
    hide Run;
  }

  lemma RunOne(lifetimeMs: nat, s: Manager, e: Event)
    ensures Run(lifetimeMs, s, [e]) == Step(lifetimeMs, s, e)
  {
    assert [e][..0] == [];
  }

  /**
   * From any reachable state whose last login was granted, with none under way and its interval still
   * running: the next login can start inside that interval if and only if the callback of that very
   * login threw and the interval is longer than the floor of a failed one.
   */
  lemma NextLoginMayComeEarlyExactlyWhen(lifetimeMs: nat, now: int, events: seq<Event>)
    requires now > lifetimeMs
    requires var s := Run(lifetimeMs, Fresh(now), events);
             && s.logins != [] && WasGranted(s.logins[|s.logins| - 1].outcome)
             && s.flights == map[] && s.now < s.logins[|s.logins| - 1].end + lifetimeMs
    ensures (exists more :: NextStartsInside(lifetimeMs, now, events, more))
       <==> && Run(lifetimeMs, Fresh(now), events).logins[|Run(lifetimeMs, Fresh(now), events).logins| - 1].outcome
               == GrantedButCallbackThrew
            && lifetimeMs > FAILED_LOGIN_FLOOR_MS
  {
    hide PaceInv, RefusalOk, HeldByLastLogin, Run, IsPaced;
    var s := Run(lifetimeMs, Fresh(now), events);
    var last := s.logins[|s.logins| - 1];
    forall more | NextStartsInside(lifetimeMs, now, events, more)
      ensures last.outcome == GrantedButCallbackThrew && lifetimeMs > FAILED_LOGIN_FLOOR_MS
    {
      RunSplits(lifetimeMs, Fresh(now), events, more);
      LoginsOnlyGrow(lifetimeMs, s, more);
      LoginsKeepTheFloor(lifetimeMs, now, events + more, |s.logins| - 1, |s.logins|);
    }
    if last.outcome == GrantedButCallbackThrew && lifetimeMs > FAILED_LOGIN_FLOOR_MS {
      FreshIsOk(lifetimeMs, now);
      NothingHeldYet(now);
      RunKeepsPace(lifetimeMs, Fresh(now), events);
      RunKeepsRefusal(lifetimeMs, Fresh(now), events);
      RunKeepsHeld(lifetimeMs, Fresh(now), events);
      SigningInAtOnce(lifetimeMs, s);
      RunSplits(lifetimeMs, Fresh(now), events, SoonestLogin(s));
      assert NextStartsInside(lifetimeMs, now, events, SoonestLogin(s));
    }
  }

  lemma NothingHeldYet(now: int)
    ensures HeldByLastLogin(Fresh(now))
  {
  }
}
