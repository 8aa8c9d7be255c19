/** A keep-alive speaks for the session it probed and for no other. */
module SessionKeepAlive {
  import opened Options
  import opened Settings
  import opened SessionSpec

  /** When a session last proved itself, by its own login or by a keep-alive of its own. */
  function LastGood(signs: seq<Sign>, session: nat): Option<int> {
    if signs == [] then None else
    var last := signs[|signs| - 1];
    if last.Good? && last.session == session then Some(last.at) else LastGood(signs[..|signs| - 1], session)
  }

  /** How many keep-alives of a session have failed since it last proved itself. */
  function Streak(signs: seq<Sign>, session: nat): nat {
    if signs == [] then 0 else
    var last := signs[|signs| - 1];
    if last.session != session then Streak(signs[..|signs| - 1], session)
    else if last.Good? then 0 else 1 + Streak(signs[..|signs| - 1], session)
  }

  /** The fields of the session held are those its own signs give it. */
  predicate HeldIsTrue(s: Manager) {
    match s.session
    case None => s.verifiedAt == 0 && s.keepAliveFailures == 0
    case Some(id) =>
      && id < s.nextSession
      && LastGood(s.signs, id) == Some(s.verifiedAt)
      && Streak(s.signs, id) == s.keepAliveFailures < KEEPALIVE_FAILURE_LIMIT
  }

  predicate Inv(s: Manager) {
    HeldIsTrue(s) && forall p <- s.probes :: s.probes[p] < s.nextSession
  }

  lemma OneMoreSign(signs: seq<Sign>, sign: Sign, session: nat)
    ensures LastGood(signs + [sign], session)
         == if sign.Good? && sign.session == session then Some(sign.at) else LastGood(signs, session)
    ensures Streak(signs + [sign], session)
         == if sign.session != session then Streak(signs, session) else if sign.Good? then 0 else 1 + Streak(signs, session)
  {
    var longer := signs + [sign];
    assert longer[..|longer| - 1] == signs;
  }

  lemma HeedingKeepsHeld(s: Manager, probed: nat, reply: Reply)
    requires HeldIsTrue(s)
    ensures HeldIsTrue(Heed(s, probed, reply))
  {
    hide LastGood, Streak;
    if s.session.Some? {
      OneMoreSign(s.signs, Good(probed, s.now), s.session.value);
      OneMoreSign(s.signs, Bad(probed, s.now), s.session.value);
    }
  }

  lemma EndingKeepsInv(lifetimeMs: nat, s: Manager, outcome: Outcome)
    requires Inv(s)
    ensures Inv(EndLogin(lifetimeMs, s, outcome))
  {
    hide LastGood, Streak;
    OneMoreSign(s.signs, Good(s.nextSession, s.now), s.nextSession);
  }

  lemma StepKeepsInv(lifetimeMs: nat, s: Manager, e: Event)
    requires Inv(s)
    ensures Inv(Step(lifetimeMs, s, e))
  {
    hide LastGood, Streak, EndLogin, Heed;
    if Enabled(s, e) {
      match e
      case Authenticated(f, outcome) =>
        EndingKeepsInv(lifetimeMs,
          s.(flights := s.flights[f := Settled], logins := s.logins + [Login(s.flights[f].start, s.now, outcome)]),
          outcome);
      case Answered(p, reply) =>
        HeedingKeepsHeld(s.(probes := s.probes - {p}), s.probes[p], reply);
        HeedingLeavesProbes(s.(probes := s.probes - {p}), s.probes[p], reply);
      case _ =>
    }
  }

  lemma HeedingLeavesProbes(s: Manager, probed: nat, reply: Reply)
    ensures Heed(s, probed, reply).probes == s.probes && Heed(s, probed, reply).nextSession == s.nextSession
  {
  }

  lemma {:induction false} RunKeepsInv(lifetimeMs: nat, s: Manager, events: seq<Event>)
    requires Inv(s)
    ensures Inv(Run(lifetimeMs, s, events))
  {
    hide Inv, Step;
    if events != [] {
      RunKeepsInv(lifetimeMs, s, events[..|events| - 1]);
      StepKeepsInv(lifetimeMs, Run(lifetimeMs, s, events[..|events| - 1]), events[|events| - 1]);
    }
  }

  /** A session handed out again proved itself less than the interval ago. */
  lemma ReuseIsFresh(lifetimeMs: nat, now: int, events: seq<Event>, session: nat)
    requires AnswerOf(lifetimeMs, Run(lifetimeMs, Fresh(now), events)) == Reuse(session)
    ensures var s := Run(lifetimeMs, Fresh(now), events);
            var last := LastGood(s.signs, session);
            last.Some? && s.now - last.value < lifetimeMs
  {
    RunKeepsInv(lifetimeMs, Fresh(now), events);
  }

  /** Whatever a keep-alive reports, a session it did not probe keeps its standing to the letter. */
  lemma ReplyToAnotherChangesNothing(lifetimeMs: nat, s: Manager, probe: nat, reply: Reply)
    requires probe in s.probes && s.session != Some(s.probes[probe])
    ensures var t := Step(lifetimeMs, s, Answered(probe, reply));
            && t.session == s.session && t.verifiedAt == s.verifiedAt && t.keepAliveFailures == s.keepAliveFailures
            && t.lastLoginAttempt == s.lastLoginAttempt && t.flights == s.flights && t.pendingLogin == s.pendingLogin
  {
  }

  /** The session probed is dropped at once if it is dead, and on its third failure in a row. */
  lemma DroppedExactlyWhen(lifetimeMs: nat, now: int, events: seq<Event>, probe: nat, reply: Reply)
    requires var s := Run(lifetimeMs, Fresh(now), events); probe in s.probes && s.session == Some(s.probes[probe])
    ensures var s := Run(lifetimeMs, Fresh(now), events);
            var t := Step(lifetimeMs, s, Answered(probe, reply));
            && (t.session == None <==>
                  reply == Dead || (reply == TransportError && Streak(t.signs, s.probes[probe]) == KEEPALIVE_FAILURE_LIMIT))
            && (t.session.Some? ==> t.session == s.session)
            && (reply == Alive ==> t.verifiedAt == s.now)
  {
    RunKeepsInv(lifetimeMs, Fresh(now), events);
    var s := Run(lifetimeMs, Fresh(now), events);
    OneMoreSign(s.signs, Bad(s.probes[probe], s.now), s.probes[probe]);
  }

  /** A session is held that its own signs show to have been good less than the interval ago. */
  predicate HoldsAGoodOne(lifetimeMs: nat, s: Manager) {
    && s.session.Some?
    && var last := LastGood(s.signs, s.session.value);
       last.Some? && s.now - last.value < lifetimeMs
  }

  /**
   * Over every run: a session so good is handed out again, and asking for it changes nothing; a
   * login under way is joined, and that changes nothing either; and a new login starts if and only
   * if there is neither.
   */
  lemma ReusedExactlyWhenGood(lifetimeMs: nat, now: int, events: seq<Event>)
    ensures var s := Run(lifetimeMs, Fresh(now), events);
            var answer, t := AnswerOf(lifetimeMs, s), Step(lifetimeMs, s, Get);
            if HoldsAGoodOne(lifetimeMs, s) then
              answer == Reuse(s.session.value) && t == s
            else if s.pendingLogin.Some? then
              answer == Join(s.pendingLogin.value) && t == s
            else
              && answer == Start && t.pendingLogin == Some(s.nextFlight) && t.nextFlight == s.nextFlight + 1
              && t.flights == s.flights[s.nextFlight := FirstStage(lifetimeMs, s)]
              && t.session == s.session && t.signs == s.signs && t.logins == s.logins
  {
    RunKeepsInv(lifetimeMs, Fresh(now), events);
    hide Run, FirstStage;
  }

  /** What becomes of the session held, by what its probes have answered. */
  function SessionAfter(s: Manager, e: Event): Option<nat> {
    match e
    case Authenticated(f, outcome) =>
      if !Enabled(s, e) then s.session else if outcome == Granted then Some(s.nextSession) else None
    case Answered(p, reply) =>
      if p !in s.probes || s.session != Some(s.probes[p]) then s.session
      else if reply == Dead || (reply == TransportError && Streak(s.signs, s.probes[p]) >= 2) then None
      else s.session
    case Invalidate => None
    case _ => s.session
  }

  /** What the session of an event proves, or fails to. */
  function SignsOf(s: Manager, e: Event): seq<Sign> {
    match e
    case Authenticated(_, outcome) =>
      if Enabled(s, e) && (outcome == Granted || outcome == GrantedButCallbackThrew)
      then [Good(s.nextSession, s.now)] else []
    case Answered(p, reply) =>
      if p !in s.probes || reply == Dead then []
      else if reply == Alive then [Good(s.probes[p], s.now)]
      else [Bad(s.probes[p], s.now)]
    case _ => []
  }

  predicate MovesSo(s: Manager, e: Event, t: Manager) {
    && t.session == SessionAfter(s, e)
    && t.signs == s.signs + SignsOf(s, e)
    && t.probes == (if e.Touch? && s.session.Some? then s.probes[s.nextProbe := s.session.value]
                    else if e.Answered? then s.probes - {e.probe}
                    else s.probes)
    && (t.session.Some? && t.session != s.session ==> t.session.value == s.nextSession < t.nextSession)
  }

  lemma AnsweringMovesSo(lifetimeMs: nat, s: Manager, probe: nat, reply: Reply)
    requires Inv(s)
    ensures MovesSo(s, Answered(probe, reply), Step(lifetimeMs, s, Answered(probe, reply)))
  {
    hide LastGood, Streak;
  }

  lemma AuthenticatingMovesSo(lifetimeMs: nat, s: Manager, flight: nat, outcome: Outcome)
    ensures MovesSo(s, Authenticated(flight, outcome), Step(lifetimeMs, s, Authenticated(flight, outcome)))
  {
  }

  lemma OthersMoveSo(lifetimeMs: nat, s: Manager, e: Event)
    requires !e.Answered? && !e.Authenticated?
    ensures MovesSo(s, e, Step(lifetimeMs, s, e))
  {
    hide FirstStage, AnswerOf;
  }

  /**
   * Over every run, the session held is changed by nothing but a login that ends, an invalidation,
   * and the answers to its own probes: a dead one, or a third failure in a row. A probe always goes
   * to the session held when it is sent.
   */
  lemma SessionMovesExactlySo(lifetimeMs: nat, now: int, events: seq<Event>, e: Event)
    ensures var s := Run(lifetimeMs, Fresh(now), events);
            MovesSo(s, e, Step(lifetimeMs, s, e))
  {
    RunKeepsInv(lifetimeMs, Fresh(now), events);
    var s := Run(lifetimeMs, Fresh(now), events);
    hide Run, Inv, MovesSo, Step;
    match e
    case Answered(probe, reply) => AnsweringMovesSo(lifetimeMs, s, probe, reply);
    case Authenticated(flight, outcome) => AuthenticatingMovesSo(lifetimeMs, s, flight, outcome);
    case _ => OthersMoveSo(lifetimeMs, s, e);
  }
}
