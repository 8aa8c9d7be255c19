/** The breaker never sticks, and each outage is announced once. */
module BreakerTheorems {
  import opened Options
  import opened SlidingWindow
  import opened BreakerSpec

  // ---- Which calls are out, and what the half-open counter says of them. ----

  predicate CallsApart(s: Breaker) {
    && (forall c <- s.plain :: c < s.nextCall && c !in s.probes && c !in s.stale)
    && (forall c <- s.probes :: c < s.nextCall && c !in s.stale)
    && (forall c <- s.stale :: c < s.nextCall)
  }

  /** `own` is 1 between a probe of this spell settling and its slot being handed back. */
  predicate CountOk(config: Config, s: Breaker, own: nat) {
    && s.halfOpenRequests <= Max(1, config.halfOpenProbes)
    && if s.mode == HalfOpen
       then s.halfOpenRequests <= |s.probes| + own <= s.halfOpenRequests + s.strays
       else s.halfOpenRequests == 0 && s.probes == {}
  }

  predicate ListenerOk(s: Breaker) {
    && (s.hasReportedOpen <==> s.mode != Closed)
    && s.announcements == Outages(s.transitions)
  }

  predicate TimersOk(config: Config, s: Breaker) {
    && (s.mode == Open ==> s.lastFailure.Some?)
    && (s.successes == 0 || (s.mode == HalfOpen && s.successes < config.successesToClose))
  }

  predicate Inv(config: Config, s: Breaker) {
    CallsApart(s) && CountOk(config, s, 0) && ListenerOk(s) && TimersOk(config, s)
  }

  /** How often a closed breaker opened. */
  function Outages(transitions: seq<Edge>): nat {
    if transitions == [] then 0 else
    var last := |transitions| - 1;
    Outages(transitions[..last]) + (if transitions[last] == Edge(Closed, Open) then 1 else 0)
  }

  /** The edges the breaker takes: it opens from closed or half open, and probes only once open. */
  predicate MayGo(s: Breaker, next: Mode) {
    && (next == s.mode ==> s.mode == Closed)
    && (next == HalfOpen ==> s.mode == Open)
    && (next == Open ==> s.lastFailure.Some?)
  }

  lemma ListenerStaysOk(s: Breaker, next: Mode)
    requires ListenerOk(s) && MayGo(s, next)
    ensures ListenerOk(Transition(s, next))
  {
    if s.mode != next {
      var longer := s.transitions + [Edge(s.mode, next)];
      assert longer[..|longer| - 1] == s.transitions;
    }
  }

  lemma TransitionKeepsRest(config: Config, s: Breaker, next: Mode)
    requires CallsApart(s) && MayGo(s, next) && (s.mode == Closed ==> s.probes == {})
    requires s.halfOpenRequests == 0 && s.successes == 0
    ensures CallsApart(Transition(s, next)) && CountOk(config, Transition(s, next), 0)
    ensures TimersOk(config, Transition(s, next))
    ensures Transition(s, next).mode == next
  {
  }

  lemma TransitionKeepsInv(config: Config, s: Breaker, next: Mode)
    requires CallsApart(s) && ListenerOk(s) && MayGo(s, next) && (s.mode == Closed ==> s.probes == {})
    requires s.halfOpenRequests == 0 && s.successes == 0
    ensures Inv(config, Transition(s, next)) && Transition(s, next).mode == next
  {
    hide ListenerOk, CallsApart, CountOk, TimersOk, MayGo, Transition;
    ListenerStaysOk(s, next);
    TransitionKeepsRest(config, s, next);
  }

  lemma ResetKeepsInv(config: Config, s: Breaker)
    requires CallsApart(s) && ListenerOk(s) && (s.mode == Closed ==> s.probes == {})
    ensures Inv(config, Reset(s)) && Reset(s).mode == Closed
  {
    hide Transition, Inv, Outages, CountOk, TimersOk;
    TransitionKeepsInv(config,
      s.(successes := 0, lastFailure := None, halfOpenRequests := 0, failures := [], clearedAt := s.now, failureLog := []),
      Closed);
  }

  lemma AskingKeepsInv(config: Config, s: Breaker)
    requires Inv(config, s)
    ensures Inv(config, AfterAsking(config, s))
    ensures AfterAsking(config, s).nextCall == s.nextCall
    ensures CanRequest(config, s) ==>
              var asked := AfterAsking(config, s);
              asked.mode == HalfOpen ==> asked.halfOpenRequests + 1 <= Max(1, config.halfOpenProbes)
  {
    hide Outages, TimersOk;
    if s.mode == Open && IsCooldownElapsed(config, s) {
      TransitionKeepsInv(config, s.(halfOpenRequests := 0, successes := 0), HalfOpen);
    }
  }

  lemma AdmittingKeepsInv(config: Config, s: Breaker)
    requires Inv(config, s)
    requires s.mode == HalfOpen ==> s.halfOpenRequests + 1 <= Max(1, config.halfOpenProbes)
    ensures Inv(config, Admitted(s))
  {
    hide Outages;
  }

  lemma BeginKeepsInv(config: Config, s: Breaker)
    requires Inv(config, s)
    ensures Inv(config, BeginCall(config, s))
  {
    hide Inv, Admitted, AfterAsking;
    AskingKeepsInv(config, s);
    if CanRequest(config, s) {
      AdmittingKeepsInv(config, AfterAsking(config, s));
    }
  }

  lemma RecordingKeepsInv(config: Config, s: Breaker, own: nat, isOk: bool)
    requires CallsApart(s) && CountOk(config, s, own) && ListenerOk(s) && TimersOk(config, s)
    requires own == 0 || s.mode == HalfOpen
    ensures var t := if isOk then RecordSuccess(config, s) else RecordFailure(config, s);
            && CallsApart(t) && CountOk(config, t, if t.mode == HalfOpen then own else 0) && ListenerOk(t) && TimersOk(config, t)
            && (t.mode == HalfOpen ==> s.mode == HalfOpen && t.halfOpenRequests == s.halfOpenRequests)
  {
    hide Outages, Transition, Reset, Recent;
    if isOk {
      if s.mode == HalfOpen && s.successes + 1 >= config.successesToClose {
        ResetKeepsInv(config, s.(successes := s.successes + 1));
      }
    } else {
      var noted := NoteFailure(config, s);
      match s.mode
      case HalfOpen => TransitionKeepsInv(config, noted.(halfOpenRequests := 0, successes := 0), Open);
      case Closed => 
        if |PruneFailures(config, noted).failures| >= config.failureThreshold {
          TransitionKeepsInv(config, PruneFailures(config, noted), Open);
        }
      case Open =>
    }
  }

  lemma SettlingKeepsRest(config: Config, s: Breaker, call: nat)
    requires Inv(config, s)
    ensures CallsApart(Settled(s, call))
    ensures CountOk(config, Settled(s, call), if call in s.probes then 1 else 0)
    ensures ListenerOk(Settled(s, call)) && TimersOk(config, Settled(s, call))
    ensures call in s.probes ==> s.mode == HalfOpen
  {
  }

  /** Handing back a slot is right for a probe of this spell, and counts a stray for an older one. */
  lemma ReleaseKeepsInv(config: Config, s: Breaker, own: nat, isProbe: bool, isStray: bool)
    requires CallsApart(s) && CountOk(config, s, own) && ListenerOk(s) && TimersOk(config, s)
    requires own == (if s.mode == HalfOpen && isProbe && !isStray then 1 else 0)
    ensures Inv(config, Release(s, isProbe, isStray))
  {
  }

  lemma FinishKeepsInv(config: Config, s: Breaker, call: nat, isOk: bool)
    requires Inv(config, s) && Enabled(s, Finish(call, isOk))
    ensures Inv(config, FinishCall(config, s, call, isOk))
  {
    hide CallsApart, CountOk, ListenerOk, TimersOk, RecordSuccess, RecordFailure, Settled, Release;
    var own := if call in s.probes then 1 else 0;
    NotBoth(s, call);
    SettlingKeepsRest(config, s, call);
    var settled := Settled(s, call);
    ModeOfSettled(s, call);
    RecordingKeepsInv(config, settled, own, isOk);
    var recorded := if isOk then RecordSuccess(config, settled) else RecordFailure(config, settled);
    ReleaseKeepsInv(config, recorded, if recorded.mode == HalfOpen then own else 0,
                    call in s.probes + s.stale, call in s.stale);
    WitnessingKeepsInv(config, Release(recorded, call in s.probes + s.stale, call in s.stale), isOk);
  }

  lemma WitnessingKeepsInv(config: Config, s: Breaker, isOk: bool)
    requires Inv(config, s)
    ensures Inv(config, Witnessed(s, isOk))
  {
  }

  lemma NotBoth(s: Breaker, call: nat)
    requires CallsApart(s)
    ensures call in s.probes ==> call !in s.stale
  {
  }

  lemma ModeOfSettled(s: Breaker, call: nat)
    ensures Settled(s, call).mode == s.mode
  {
  }

  lemma StepKeepsInv(config: Config, s: Breaker, e: Event)
    requires Inv(config, s)
    ensures Inv(config, Step(config, s, e))
  {
    hide BeginCall, AfterAsking, FinishCall, Reset, Outages;
    if Enabled(s, e) {
      match e
      case Ask => AskingKeepsInv(config, s);
      case Begin => BeginKeepsInv(config, s);
      case Finish(call, isOk) => FinishKeepsInv(config, s, call, isOk);
      case ResetNow => ResetKeepsInv(config, s);
      case Status =>
      case Elapse(ms) =>
    }
  }

  lemma {:induction false} RunKeepsInv(config: Config, s: Breaker, events: seq<Event>)
    requires Inv(config, s)
    ensures Inv(config, Run(config, s, events))
  {
    hide Inv, Step;
    if events != [] {
      RunKeepsInv(config, s, events[..|events| - 1]);
      StepKeepsInv(config, Run(config, s, events[..|events| - 1]), events[|events| - 1]);
    }
  }

  /** The breaker's success counter is the observer's. */
  predicate SpellOk(s: Breaker) {
    s.successes == s.spellSuccesses
  }

  lemma StepKeepsSpell(config: Config, s: Breaker, e: Event)
    requires TimersOk(config, s) && SpellOk(s)
    ensures SpellOk(Step(config, s, e))
  {
  }

  lemma {:induction false} RunKeepsSpell(config: Config, events: seq<Event>)
    ensures SpellOk(Run(config, FRESH, events))
  {
    hide Step, SpellOk, CallsApart, CountOk, ListenerOk, TimersOk;
    if events == [] {
      FreshIsOk(config);
    } else {
      FreshIsOk(config);
      RunKeepsInv(config, FRESH, events[..|events| - 1]);
      RunKeepsSpell(config, events[..|events| - 1]);
      StepKeepsSpell(config, Run(config, FRESH, events[..|events| - 1]), events[|events| - 1]);
    }
  }

  lemma FreshIsOk(config: Config)
    ensures Inv(config, FRESH) && SpellOk(FRESH)
  {
  }

  // ---- What follows for every run. ----

  /** A refusal always has a reason that passes: a cooldown still running, or probes still out. */
  lemma EveryRefusalPasses(config: Config, events: seq<Event>)
    ensures var s := Run(config, FRESH, events);
            !CanRequest(config, s) ==>
              || (s.mode == Open && s.lastFailure.Some? && s.now < s.lastFailure.value + config.resetTimeoutMs)
              || (s.mode == HalfOpen && |s.probes| >= config.halfOpenProbes)
  {
    RunKeepsInv(config, FRESH, events);
  }

  /** With nothing out and the cooldown over it lets a call through, unless it was given no probes. */
  lemma NeverSticksExactlyWhen(config: Config, events: seq<Event>)
    requires var s := Run(config, FRESH, events);
             s.plain == {} && s.probes == {} && s.stale == {}
             && (s.lastFailure.Some? ==> s.now - s.lastFailure.value >= config.resetTimeoutMs)
    ensures CanRequest(config, Run(config, FRESH, events))
       <==> Run(config, FRESH, events).mode != HalfOpen || config.halfOpenProbes >= 1
  {
    RunKeepsInv(config, FRESH, events);
  }

  /** With no probes configured the one that finds the cooldown over still goes out. */
  lemma HalfOpenCounterIsBounded(config: Config, events: seq<Event>)
    ensures var s := Run(config, FRESH, events);
            s.halfOpenRequests <= Max(1, config.halfOpenProbes) && s.halfOpenRequests <= |s.probes|
  {
    RunKeepsInv(config, FRESH, events);
  }

  /**
   * The counter bounds the probes really out only up to the probes of an earlier spell that came
   * back during this one, each of which hands back a slot that was never its own.
   */
  lemma ProbesOutAreBounded(config: Config, events: seq<Event>)
    requires Run(config, FRESH, events).mode == HalfOpen
    ensures var s := Run(config, FRESH, events);
            && |s.probes| <= Max(1, config.halfOpenProbes) + s.strays
            && (s.strays == 0 ==> |s.probes| == s.halfOpenRequests)
  {
    RunKeepsInv(config, FRESH, events);
  }

  /** Each outage is announced exactly once, however often its probes flap. */
  lemma EachOutageIsAnnouncedOnce(config: Config, events: seq<Event>)
    ensures var s := Run(config, FRESH, events);
            && s.announcements == Outages(s.transitions)
            && (s.hasReportedOpen <==> s.mode != Closed)
  {
    RunKeepsInv(config, FRESH, events);
  }

  /**
   * A half-open breaker reopens on any failure that settles and closes exactly on the success that
   * completes the number asked for within this one spell.
   */
  lemma ClosesExactlyWhen(config: Config, events: seq<Event>, call: nat, isOk: bool)
    requires Run(config, FRESH, events).mode == HalfOpen && Enabled(Run(config, FRESH, events), Finish(call, isOk))
    ensures var s := Run(config, FRESH, events);
            var t := Step(config, s, Finish(call, isOk));
            && (t.mode == Closed <==> isOk && s.spellSuccesses + 1 >= config.successesToClose)
            && (t.mode == Open <==> !isOk)
            && (t.mode == HalfOpen ==> t.spellSuccesses == s.spellSuccesses + 1)
  {
    RunKeepsSpell(config, events);
    hide Run, NoteFailure;
  }

  // ---- When the counter and the probes out part company. ----

  /** The counter says how many probes of the spell are out. */
  predicate Agrees(s: Breaker) {
    s.mode == HalfOpen ==> |s.probes| == s.halfOpenRequests
  }

  /** A probe of an earlier spell succeeds while this one has slots taken, and does not end it. */
  predicate FreesAnothersSlot(config: Config, s: Breaker, e: Event) {
    && e.Finish? && e.isOk && e.call in s.stale
    && s.mode == HalfOpen && s.halfOpenRequests > 0 && s.successes + 1 < config.successesToClose
  }

  lemma SameProbes(s: Breaker, t: Breaker)
    requires t.mode == s.mode && t.probes == s.probes && t.halfOpenRequests == s.halfOpenRequests
    ensures Agrees(t) <==> Agrees(s)
  {
  }

  lemma AskingAgrees(config: Config, s: Breaker)
    requires Agrees(s)
    ensures Agrees(AfterAsking(config, s))
  {
  }

  lemma BeginningAgrees(config: Config, s: Breaker)
    requires Inv(config, s) && Agrees(s)
    ensures Agrees(BeginCall(config, s))
  {
    hide AfterAsking, CountOk, ListenerOk, TimersOk;
    AskingAgrees(config, s);
    AskingKeepsInv(config, s);
    FreshCallIsNew(AfterAsking(config, s));
  }

  lemma FreshCallIsNew(s: Breaker)
    requires CallsApart(s)
    ensures s.nextCall !in s.probes
  {
  }

  lemma ResettingAgrees(s: Breaker)
    ensures Agrees(Reset(s))
  {
  }

  lemma OtherFinishesAreNotHalfOpen(config: Config, s: Breaker, call: nat, isOk: bool)
    requires s.mode != HalfOpen || !isOk || s.successes + 1 >= config.successesToClose
    ensures FinishCall(config, s, call, isOk).mode != HalfOpen
  {
  }

  lemma SettlingTakesOneAway(s: Breaker, call: nat)
    ensures |s.probes - {call}| == |s.probes| - (if call in s.probes then 1 else 0)
  {
    if call !in s.probes {
      assert s.probes - {call} == s.probes;
    }
  }

  lemma FinishingAgreesExactlyWhen(config: Config, s: Breaker, call: nat, isOk: bool)
    requires Inv(config, s) && Agrees(s) && Enabled(s, Finish(call, isOk))
    ensures Agrees(FinishCall(config, s, call, isOk)) <==> !FreesAnothersSlot(config, s, Finish(call, isOk))
  {
    hide ListenerOk, TimersOk, CallsApart, Reset, PruneFailures, RecordFailure;
    if s.mode != HalfOpen || !isOk || s.successes + 1 >= config.successesToClose {
      OtherFinishesAreNotHalfOpen(config, s, call, isOk);
    } else {
      NotBoth(s, call);
      SettlingTakesOneAway(s, call);
    }
  }

  lemma PartsCompanyExactlyWhen(config: Config, s: Breaker, e: Event)
    requires Inv(config, s) && Agrees(s)
    ensures Agrees(Step(config, s, e)) <==> !FreesAnothersSlot(config, s, e)
  {
    hide Inv, Agrees, BeginCall, FinishCall, AfterAsking, Reset;
    if Enabled(s, e) {
      match e
      case Ask => AskingAgrees(config, s);
      case Begin => BeginningAgrees(config, s);
      case Finish(call, isOk) => FinishingAgreesExactlyWhen(config, s, call, isOk);
      case ResetNow => ResettingAgrees(s);
      case Status => SameProbes(s, PruneFailures(config, s));
      case Elapse(ms) => SameProbes(s, s.(now := s.now + ms));
    }
  }

  /** No event of the run frees a slot that another probe holds. */
  predicate NeverFreesAnothers(config: Config, events: seq<Event>) {
    events == [] ||
    var before := events[..|events| - 1];
    NeverFreesAnothers(config, before) && !FreesAnothersSlot(config, Run(config, FRESH, before), events[|events| - 1])
  }

  /** After every event of the run the counter is the number of probes out. */
  predicate AlwaysAgrees(config: Config, events: seq<Event>) {
    Agrees(Run(config, FRESH, events)) && (events != [] ==> AlwaysAgrees(config, events[..|events| - 1]))
  }

  /** Over whole runs: the counter is the number of probes out if and only if no such success comes in. */
  lemma {:induction false} AgreesExactlyWhen(config: Config, events: seq<Event>)
    ensures AlwaysAgrees(config, events) <==> NeverFreesAnothers(config, events)
  {
    hide Inv, Agrees, FreesAnothersSlot, Step;
    if events == [] {
      FreshAgrees(config);
    } else {
      var before := events[..|events| - 1];
      AgreesExactlyWhen(config, before);
      FreshAgrees(config);
      RunKeepsInv(config, FRESH, before);
      AlwaysMeansNow(config, before);
      if AlwaysAgrees(config, before) {
        PartsCompanyExactlyWhen(config, Run(config, FRESH, before), events[|events| - 1]);
      }
    }
  }

  lemma FreshAgrees(config: Config)
    ensures Inv(config, FRESH) && Agrees(FRESH)
  {
  }

  lemma AlwaysMeansNow(config: Config, events: seq<Event>)
    ensures AlwaysAgrees(config, events) ==> Agrees(Run(config, FRESH, events))
  {
  }

  /** In such a run no more probes are out than are allowed. */
  lemma ProbesKeepTheLimit(config: Config, events: seq<Event>)
    requires NeverFreesAnothers(config, events) && Run(config, FRESH, events).mode == HalfOpen
    ensures |Run(config, FRESH, events).probes| <= Max(1, config.halfOpenProbes)
  {
    AgreesExactlyWhen(config, events);
    AlwaysMeansNow(config, events);
    HalfOpenCounterIsBounded(config, events);
    hide Run;
  }

  lemma BeginningGoesOver(config: Config, s: Breaker)
    requires Inv(config, s) && |s.probes| <= Max(1, config.halfOpenProbes)
    ensures |BeginCall(config, s).probes| > Max(1, config.halfOpenProbes)
       <==> s.mode == HalfOpen && s.halfOpenRequests < config.halfOpenProbes == |s.probes|
  {
    hide ListenerOk, TimersOk;
    FreshCallIsNew(s);
  }

  lemma FinishingAddsNoProbe(config: Config, s: Breaker, call: nat, isOk: bool)
    ensures FinishCall(config, s, call, isOk).probes <= s.probes
    ensures |FinishCall(config, s, call, isOk).probes| <= |s.probes|
  {
    hide Recent, Coalesce;
    FewerAreNoMore(FinishCall(config, s, call, isOk).probes, s.probes);
  }

  lemma FewerAreNoMore(a: set<nat>, b: set<nat>)
    ensures a <= b ==> |a| <= |b|
  {
    if a <= b {
      assert b == a + (b - a);
    }
  }

  /** The step that goes over the limit is the call admitted on a slot so freed while the probes out fill it. */
  lemma GoesOverTheLimitExactlyWhen(config: Config, s: Breaker, e: Event)
    requires Inv(config, s) && |s.probes| <= Max(1, config.halfOpenProbes)
    ensures |Step(config, s, e).probes| > Max(1, config.halfOpenProbes)
       <==> e == Begin && s.mode == HalfOpen && s.halfOpenRequests < config.halfOpenProbes == |s.probes|
  {
    hide Inv, CallsApart, CountOk, ListenerOk, TimersOk, Recent, Coalesce, BeginCall, FinishCall;
    if Enabled(s, e) {
      match e
      case Begin => BeginningGoesOver(config, s);
      case Finish(call, isOk) => FinishingAddsNoProbe(config, s, call, isOk);
      case _ =>
    }
  }

  // ---- A breaker given no probes. ----

  /** Half open, with no probes to give, and nothing out whose success could close it. */
  predicate IsStuck(config: Config, s: Breaker) {
    config.halfOpenProbes == 0 && s.mode == HalfOpen && s.plain == {} && s.probes == {} && s.stale == {}
  }

  /** Once there it refuses every call for ever, however much time passes, until it is reset from outside. */
  lemma {:induction false} StuckForGood(config: Config, s: Breaker, events: seq<Event>)
    requires IsStuck(config, s) && forall i :: 0 <= i < |events| ==> events[i] != ResetNow
    ensures IsStuck(config, Run(config, s, events)) && !CanRequest(config, Run(config, s, events))
  {
    hide Recent;
    if events != [] {
      StuckForGood(config, s, events[..|events| - 1]);
    }
  }

  /** Two successes are asked for and only one probe ever goes out. */
  const NO_PROBES: Config := Config(1, 10, 2, 0, 100, 5)

  const GETTING_STUCK: seq<Event> := [Begin, Finish(0, false), Elapse(10), Begin, Finish(1, true)]

  lemma OneShortOfClosing()
    ensures IsStuck(NO_PROBES, Run(NO_PROBES, FRESH, GETTING_STUCK))
    ensures Run(NO_PROBES, FRESH, GETTING_STUCK).successes == 1
  {
    FirstFailureOpens();
    OnlyProbeSucceeds();
    hide Step, Run, IsStuck;
    var all := GETTING_STUCK;
    LastStep(NO_PROBES, all, 1);
    LastStep(NO_PROBES, all, 2);
    LastStep(NO_PROBES, all, 3);
    LastStep(NO_PROBES, all, 4);
    LastStep(NO_PROBES, all, 5);
    RunNothing(NO_PROBES);
    assert all[..0] == [] && all[..5] == all;
  }

  const OPENED: Breaker := Breaker(
    0, 1, {}, {}, {}, 0, 0, 0, [0], [Edge(Closed, Open)], true, 1, Open, 0, Some(0), 0, [0])

  lemma FirstFailureOpens()
    ensures Step(NO_PROBES, Step(NO_PROBES, FRESH, Begin), Finish(0, false)) == OPENED
  {
    var begun := Step(NO_PROBES, FRESH, Begin);
    assert begun.plain == {0};
    assert [0][1..] == [] && Recent([], 0, 100) == [] && Recent([0], 0, 100) == [0];
    assert {0} - {0} == {};
  }

  lemma OnlyProbeSucceeds()
    ensures var s := Step(NO_PROBES, Step(NO_PROBES, Step(NO_PROBES, OPENED, Elapse(10)), Begin), Finish(1, true));
            IsStuck(NO_PROBES, s) && s.successes == 1
  {
  }

  lemma LastStep(config: Config, events: seq<Event>, k: nat)
    requires 0 < k <= |events|
    ensures Run(config, FRESH, events[..k]) == Step(config, Run(config, FRESH, events[..k - 1]), events[k - 1])
  {
    assert events[..k][..k - 1] == events[..k - 1];
  }

  lemma RunNothing(config: Config)
    ensures Run(config, FRESH, []) == FRESH
  {
  }
}
