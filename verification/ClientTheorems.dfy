/** What a request may put on the network, and how long it may keep its caller waiting. */
module ClientTheorems {
  import opened Options
  import opened Backoff
  import opened ClientSpec

  // ---- Counting acts. ----

  function Sends(acts: seq<Act>): nat {
    if acts == [] then 0 else (if acts[0].Sent? then 1 else 0) + Sends(acts[1..])
  }

  function Invalidations(acts: seq<Act>): nat {
    if acts == [] then 0 else (if acts[0].Invalidated? then 1 else 0) + Invalidations(acts[1..])
  }

  function Waits(acts: seq<Act>): nat {
    if acts == [] then 0 else (if acts[0].Waited? || acts[0].WaitAborted? then 1 else 0) + Waits(acts[1..])
  }

  function TotalWaitMs(acts: seq<Act>): nat {
    if acts == [] then 0
    else (if acts[0].Waited? || acts[0].WaitAborted? then acts[0].ms else 0) + TotalWaitMs(acts[1..])
  }

  lemma {:induction false} CountsAdd(a: seq<Act>, b: seq<Act>)
    ensures Sends(a + b) == Sends(a) + Sends(b)
    ensures Invalidations(a + b) == Invalidations(a) + Invalidations(b)
    ensures Waits(a + b) == Waits(a) + Waits(b)
    ensures TotalWaitMs(a + b) == TotalWaitMs(a) + TotalWaitMs(b)
  {
    if a == [] {
      assert a + b == b;
    } else {
      assert (a + b)[1..] == a[1..] + b;
      CountsAdd(a[1..], b);
    }
  }

  // ---- What holds along a course. ----

  /** The failure an act ends an attempt in. */
  function FailureOf(act: Act): Option<Failure> {
    match act
    case NoSession(f) => Some(f)
    case NotPaced(f) => Some(f)
    case Refused => Some(CircuitOpen)
    case Sent(answer) => answer
    case _ => None
  }

  /** A send comes straight after the session, the pacing slot and the breaker, in that order. */
  predicate SendIsGuarded(acts: seq<Act>, i: nat)
    requires i < |acts|
  {
    acts[i].Sent? ==> i >= 3 && acts[i - 3] == GotSession && acts[i - 2] == Paced && acts[i - 1] == Admitted
  }

  /** A session is thrown away only on the heels of a lapse. */
  predicate InvalidationIsDue(replay: Replay, acts: seq<Act>, i: nat)
    requires i < |acts|
  {
    acts[i].Invalidated? ==>
      i >= 1 && FailureOf(acts[i - 1]).Some? && IsReplayable(replay, FailureOf(acts[i - 1]).value)
  }

  /** A wait follows a failure worth retrying, under the ceiling and no shorter than was asked for. */
  predicate WaitIsDue(config: Config, acts: seq<Act>, i: nat)
    requires i < |acts|
  {
    acts[i].Waited? || acts[i].WaitAborted? ==>
      && i >= 1 && FailureOf(acts[i - 1]).Some?
      && IsWorthRetrying(FailureOf(acts[i - 1]).value)
      && acts[i].ms <= config.maxDelayMs
      && var asked := RequestedDelayMs(FailureOf(acts[i - 1]).value); asked.Some? ==> asked.value <= acts[i].ms
  }

  predicate IsOrderly(config: Config, replay: Replay, acts: seq<Act>) {
    forall i: nat :: i < |acts| ==>
      SendIsGuarded(acts, i) && InvalidationIsDue(replay, acts, i) && WaitIsDue(config, acts, i)
  }

  /** Joining two courses looks back only inside each of them, or at the act between. */
  lemma JoinIsOrderly(config: Config, replay: Replay, a: seq<Act>, link: Act, b: seq<Act>)
    requires IsOrderly(config, replay, a) && IsOrderly(config, replay, b)
    requires IsOrderly(config, replay, a + [link])
    ensures IsOrderly(config, replay, a + [link] + b)
  {
    var all, head := a + [link] + b, a + [link];
    forall i: nat | i < |all|
      ensures SendIsGuarded(all, i) && InvalidationIsDue(replay, all, i) && WaitIsDue(config, all, i)
    {
      if i < |head| {
        assert SendIsGuarded(head, i) && InvalidationIsDue(replay, head, i) && WaitIsDue(config, head, i);
        assert all[i] == head[i];
      } else {
        var k := i - |head|;
        assert SendIsGuarded(b, k) && InvalidationIsDue(replay, b, k) && WaitIsDue(config, b, k);
        assert all[i] == b[k];
      }
    }
  }

  /** What one guarded attempt amounts to. */
  predicate AttemptOk(config: Config, replay: Replay, course: Course) {
    && IsOrderly(config, replay, course.acts)
    && course.acts != []
    && FailureOf(course.acts[|course.acts| - 1]) == course.failure
    && (course.failure.None? ==> course.acts[|course.acts| - 1] == Sent(None))
  }

  lemma GuardedIsOk(config: Config, replay: Replay, a: Attempt)
    ensures AttemptOk(config, replay, Guarded(a))
  {
  }

  lemma CountsOfOne(act: Act)
    ensures Sends([act]) == (if act.Sent? then 1 else 0)
    ensures Invalidations([act]) == (if act.Invalidated? then 1 else 0)
    ensures Waits([act]) == (if act.Waited? || act.WaitAborted? then 1 else 0)
    ensures TotalWaitMs([act]) == if act.Waited? || act.WaitAborted? then act.ms else 0
  {
    assert [act][1..] == [];
  }

  /** The counts of an attempt of up to four acts, none of them an invalidation or a wait. */
  lemma CountsOfFew(acts: seq<Act>)
    requires 1 <= |acts| <= 4
    requires forall i :: 0 <= i < |acts| ==> !acts[i].Invalidated? && !acts[i].Waited? && !acts[i].WaitAborted?
    requires forall i :: 0 <= i < |acts| - 1 ==> !acts[i].Sent?
    ensures Sends(acts) == (if acts[|acts| - 1].Sent? then 1 else 0)
    ensures Invalidations(acts) == 0 && Waits(acts) == 0 && TotalWaitMs(acts) == 0
    decreases |acts|
  {
    hide Sends, Invalidations, Waits, TotalWaitMs;
    var front, last := acts[..|acts| - 1], acts[|acts| - 1];
    CountsOfOne(last);
    if front == [] {
      assert acts == [last];
    } else {
      CountsOfFew(front);
      CountsAdd(front, [last]);
      assert acts == front + [last];
    }
  }

  lemma GuardedCounts(a: Attempt)
    ensures Sends(Guarded(a).acts) == (if ReachesNetwork(a) then 1 else 0) && Invalidations(Guarded(a).acts) == 0
    ensures Waits(Guarded(a).acts) == 0 && TotalWaitMs(Guarded(a).acts) == 0
  {
    hide Sends, Invalidations, Waits, TotalWaitMs;
    CountsOfFew(Guarded(a).acts);
  }

  predicate ReachesNetwork(a: Attempt) {
    a.login.None? && a.pacing == Granted && !a.isCircuitOpen
  }

  // ---- Recovery from a lapsed session. ----

  lemma InvalidatingIsOrderly(config: Config, replay: Replay, course: Course)
    requires AttemptOk(config, replay, course)
    requires course.failure.Some? && IsReplayable(replay, course.failure.value)
    ensures IsOrderly(config, replay, course.acts + [Invalidated])
  {
    LinkIsOrderly(config, replay, course.acts, Invalidated);
  }

  lemma LinkIsOrderly(config: Config, replay: Replay, acts: seq<Act>, link: Act)
    requires IsOrderly(config, replay, acts)
    requires SendIsGuarded(acts + [link], |acts|) && InvalidationIsDue(replay, acts + [link], |acts|)
    requires WaitIsDue(config, acts + [link], |acts|)
    ensures IsOrderly(config, replay, acts + [link])
  {
    var all := acts + [link];
    forall i: nat | i < |acts|
      ensures SendIsGuarded(all, i) && InvalidationIsDue(replay, all, i) && WaitIsDue(config, all, i)
    {
      assert SendIsGuarded(acts, i) && InvalidationIsDue(replay, acts, i) && WaitIsDue(config, acts, i);
    }
  }

  lemma RecoveredIsOk(config: Config, replay: Replay, world: Scenario, from: nat)
    ensures AttemptOk(config, replay, Recovered(world, from, replay))
  {
    hide IsOrderly, IsReplayable, Guarded;
    var first, second := Guarded(world.attemptAt(from)), Guarded(world.attemptAt(from + 1));
    GuardedIsOk(config, replay, world.attemptAt(from));
    GuardedIsOk(config, replay, world.attemptAt(from + 1));
    if first.failure.Some? && IsReplayable(replay, first.failure.value) {
      InvalidatingIsOrderly(config, replay, first);
      JoinIsOrderly(config, replay, first.acts, Invalidated, second.acts);
    }
  }

  lemma RecoveredCounts(world: Scenario, from: nat, replay: Replay)
    ensures var course := Recovered(world, from, replay);
            && Sends(course.acts) <= 2 && Invalidations(course.acts) <= 1
            && Waits(course.acts) == 0 && TotalWaitMs(course.acts) == 0
  {
    hide Guarded, IsReplayable;
    var first, second := Guarded(world.attemptAt(from)), Guarded(world.attemptAt(from + 1));
    GuardedCounts(world.attemptAt(from));
    GuardedCounts(world.attemptAt(from + 1));
    CountsAdd(first.acts, [Invalidated]);
    CountsAdd(first.acts + [Invalidated], second.acts);
    CountsOfOne(Invalidated);
  }

  // ---- Retrying a read. ----

  lemma DelayIsDue(failure: Failure, attempt: nat, config: Config, random: Draw)
    requires attempt >= 1
    ensures var delay := ResolveDelayMs(failure, attempt, config, random);
            var asked := RequestedDelayMs(failure);
            && (delay.None? <==> asked.Some? && asked.value > config.maxDelayMs)
            && (delay.Some? ==>
                  && delay.value <= config.maxDelayMs
                  && delay.value >= ComputeBackoffMs(attempt, config.baseDelayMs, config.maxDelayMs, random)
                  && (asked.Some? ==> delay.value >= asked.value))
  {
    BackoffStaysInBand(attempt, config.baseDelayMs, config.maxDelayMs, random);
  }

  /** How a course of retries ends: as its last act did, or in the abort of its last wait. */
  predicate EndsAsItsLastAct(course: Course) {
    && course.acts != []
    && var last := course.acts[|course.acts| - 1];
       if last.WaitAborted? then course.failure == Some(Aborted)
       else course.failure == FailureOf(last) && (course.failure.None? ==> last == Sent(None))
  }

  lemma WaitingIsOrderly(config: Config, course: Course, attempt: nat, random: Draw, isAborted: bool)
    requires AttemptOk(config, OnLapse, course) && attempt >= 1
    requires course.failure.Some? && IsWorthRetrying(course.failure.value)
    requires ResolveDelayMs(course.failure.value, attempt, config, random).Some?
    ensures var ms := ResolveDelayMs(course.failure.value, attempt, config, random).value;
            IsOrderly(config, OnLapse, course.acts + [if isAborted then WaitAborted(ms) else Waited(ms)])
  {
    hide IsOrderly, IsWorthRetrying, RequestedDelayMs, ResolveDelayMs;
    DelayIsDue(course.failure.value, attempt, config, random);
    var ms := ResolveDelayMs(course.failure.value, attempt, config, random).value;
    LinkIsOrderly(config, OnLapse, course.acts, if isAborted then WaitAborted(ms) else Waited(ms));
  }

  lemma {:induction false} RetriedIsOk(config: Config, world: Scenario, from: nat, attempt: nat)
    requires attempt >= 1
    ensures IsOrderly(config, OnLapse, Retried(config, world, from, attempt).acts)
    ensures EndsAsItsLastAct(Retried(config, world, from, attempt))
    decreases config.maxAttempts - attempt
  {
    hide IsOrderly, IsWorthRetrying, ResolveDelayMs, Recovered, FailureOf;
    var tried := Recovered(world, from, OnLapse);
    RecoveredIsOk(config, OnLapse, world, from);
    FailureNeverOfAWait();
    if tried.failure.Some? && IsWorthRetrying(tried.failure.value) && attempt < config.maxAttempts {
      var delay := ResolveDelayMs(tried.failure.value, attempt, config, world.drawAt(attempt));
      if delay.Some? {
        WaitingIsOrderly(config, tried, attempt, world.drawAt(attempt), world.isWaitAborted(attempt));
        if !world.isWaitAborted(attempt) {
          RetriedIsOk(config, world, from + tried.used, attempt + 1);
          JoinIsOrderly(config, OnLapse, tried.acts, Waited(delay.value),
                        Retried(config, world, from + tried.used, attempt + 1).acts);
        }
      }
    }
  }

  lemma FailureNeverOfAWait()
    ensures forall ms :: FailureOf(WaitAborted(ms)) == None && WaitAborted(ms) != Sent(None)
  {
  }

  /** `left` attempts remain, this one included. */
  predicate CountsFit(config: Config, acts: seq<Act>, left: nat)
    requires left >= 1
  {
    && Sends(acts) <= 2 * left && Invalidations(acts) <= left
    && Waits(acts) <= left - 1 && TotalWaitMs(acts) <= (left - 1) * config.maxDelayMs
  }

  lemma {:induction false} RetriedCounts(config: Config, world: Scenario, from: nat, attempt: nat)
    requires 1 <= attempt
    ensures CountsFit(config, Retried(config, world, from, attempt).acts, Max(1, config.maxAttempts - attempt + 1))
    decreases config.maxAttempts - attempt
  {
    hide IsWorthRetrying, ResolveDelayMs, Recovered, Sends, Invalidations, Waits, TotalWaitMs;
    var tried := Recovered(world, from, OnLapse);
    RecoveredCounts(world, from, OnLapse);
    if tried.failure.Some? && IsWorthRetrying(tried.failure.value) && attempt < config.maxAttempts {
      var delay := ResolveDelayMs(tried.failure.value, attempt, config, world.drawAt(attempt));
      if delay.Some? {
        DelayIsDue(tried.failure.value, attempt, config, world.drawAt(attempt));
        var left := config.maxAttempts - attempt;
        var link := if world.isWaitAborted(attempt) then WaitAborted(delay.value) else Waited(delay.value);
        CountsOfOne(link);
        CountsAdd(tried.acts, [link]);
        OneMoreDelay(left, config.maxDelayMs);
        if !world.isWaitAborted(attempt) {
          var rest := Retried(config, world, from + tried.used, attempt + 1);
          RetriedCounts(config, world, from + tried.used, attempt + 1);
          CountsAdd(tried.acts + [link], rest.acts);
        }
      }
    }
  }

  lemma OneMoreDelay(left: nat, maxDelayMs: nat)
    requires left >= 1
    ensures left * maxDelayMs == (left - 1) * maxDelayMs + maxDelayMs
    ensures left * maxDelayMs >= maxDelayMs
  {
  }

  // ---- The promises. ----

  /** A read: bounded sends, sign-outs and waits, whatever the world does. */
  lemma ReadsAreBounded(config: Config, world: Scenario)
    ensures var acts := ReadRequest(config, world).acts;
            && Sends(acts) <= 2 * Max(1, config.maxAttempts)
            && Invalidations(acts) <= Max(1, config.maxAttempts)
            && Waits(acts) <= Max(1, config.maxAttempts) - 1
            && TotalWaitMs(acts) <= (Max(1, config.maxAttempts) - 1) * config.maxDelayMs
  {
    RetriedCounts(config, world, 0, 1);
  }

  lemma ReadsAreOrderly(config: Config, world: Scenario)
    ensures IsOrderly(config, OnLapse, ReadRequest(config, world).acts)
    ensures EndsAsItsLastAct(ReadRequest(config, world))
  {
    RetriedIsOk(config, world, 0, 1);
  }

  /** The four ways to give up: a failure that is final, a wait too long, a wait aborted, or none left. */
  predicate GaveUpDuly(config: Config, course: Course, left: nat) {
    && course.failure.Some? && course.acts != []
    && (|| course.acts[|course.acts| - 1].WaitAborted?
        || !IsWorthRetrying(course.failure.value)
        || (var asked := RequestedDelayMs(course.failure.value); asked.Some? && asked.value > config.maxDelayMs)
        || Waits(course.acts) + 1 == left)
  }

  lemma ExtendingKeepsTheReason(config: Config, first: Course, ms: nat, rest: Course, left: nat)
    requires GaveUpDuly(config, rest, left) && Waits(first.acts) == 0
    ensures GaveUpDuly(config,
              Course(first.acts + [Waited(ms)] + rest.acts, first.used + rest.used, rest.failure), left + 1)
  {
    hide IsWorthRetrying, RequestedDelayMs, Waits;
    CountsOfOne(Waited(ms));
    CountsAdd(first.acts, [Waited(ms)]);
    CountsAdd(first.acts + [Waited(ms)], rest.acts);
  }

  lemma {:induction false} GivesUpOnlyWhen(config: Config, world: Scenario, from: nat, attempt: nat)
    requires attempt >= 1 && Retried(config, world, from, attempt).failure.Some?
    ensures GaveUpDuly(config, Retried(config, world, from, attempt), Max(1, config.maxAttempts - attempt + 1))
    decreases config.maxAttempts - attempt
  {
    hide IsWorthRetrying, ResolveDelayMs, Recovered, Waits, RequestedDelayMs, GaveUpDuly;
    var tried := Recovered(world, from, OnLapse);
    RecoveredCounts(world, from, OnLapse);
    var left := Max(1, config.maxAttempts - attempt + 1);
    if IsWorthRetrying(tried.failure.value) && attempt < config.maxAttempts {
      DelayIsDue(tried.failure.value, attempt, config, world.drawAt(attempt));
      var delay := ResolveDelayMs(tried.failure.value, attempt, config, world.drawAt(attempt));
      if delay.None? {
        StoppingIsDue(config, world, from, left);
      } else if world.isWaitAborted(attempt) {
        AbortingIsDue(config, Course(tried.acts + [WaitAborted(delay.value)], tried.used, Some(Aborted)), left);
      } else {
        GivesUpOnlyWhen(config, world, from + tried.used, attempt + 1);
        ExtendingKeepsTheReason(config, tried, delay.value, Retried(config, world, from + tried.used, attempt + 1), left - 1);
      }
    } else {
      StoppingIsDue(config, world, from, left);
    }
  }

  lemma StoppingIsDue(config: Config, world: Scenario, from: nat, left: nat)
    requires var failure := Recovered(world, from, OnLapse).failure;
             && failure.Some?
             && (|| !IsWorthRetrying(failure.value) || left == 1
                 || (var asked := RequestedDelayMs(failure.value); asked.Some? && asked.value > config.maxDelayMs))
    ensures GaveUpDuly(config, Recovered(world, from, OnLapse), left)
  {
    hide IsWorthRetrying, RequestedDelayMs, Waits, Recovered, FailureOf, IsOrderly;
    RecoveredIsOk(config, OnLapse, world, from);
    RecoveredCounts(world, from, OnLapse);
  }

  lemma AbortingIsDue(config: Config, course: Course, left: nat)
    requires course.failure.Some? && course.acts != [] && course.acts[|course.acts| - 1].WaitAborted?
    ensures GaveUpDuly(config, course, left)
  {
  }

  /** Why a read failed. */
  lemma ReadsGiveUpOnlyWhen(config: Config, world: Scenario)
    requires ReadRequest(config, world).failure.Some?
    ensures GaveUpDuly(config, ReadRequest(config, world), Max(1, config.maxAttempts))
  {
    GivesUpOnlyWhen(config, world, 0, 1);
  }

  /** A command goes out twice exactly when both attempts reach the network and the first met a 401. */
  lemma CommandGoesOutTwiceExactlyWhen(world: Scenario)
    ensures var acts := Command(world).acts;
            && Sends(acts) <= 2 && Waits(acts) == 0
            && (Sends(acts) == 2 <==>
                  && ReachesNetwork(world.attemptAt(0)) && world.attemptAt(0).answer == Some(SessionExpired)
                  && ReachesNetwork(world.attemptAt(1)))
  {
    hide IsReplayable;
    RecoveredCounts(world, 0, OnRejection);
    var a, b := world.attemptAt(0), world.attemptAt(1);
    GuardedCounts(a);
    GuardedCounts(b);
    CountsAdd(Guarded(a).acts, [Invalidated]);
    CountsAdd(Guarded(a).acts + [Invalidated], Guarded(b).acts);
    CountsOfOne(Invalidated);
    if Guarded(a).failure.Some? {
      ReplayOfAWrite(Guarded(a).failure.value);
    }
  }

  lemma ReplayOfAWrite(failure: Failure)
    ensures IsReplayable(OnRejection, failure) <==> failure == SessionExpired
  {
  }

  /** In a command's course every send is guarded and nothing but a 401 costs the session. */
  lemma CommandsAreOrderly(config: Config, world: Scenario)
    ensures IsOrderly(config, OnRejection, Command(world).acts)
    ensures EndsAsItsLastAct(Command(world))
  {
    RecoveredIsOk(config, OnRejection, world, 0);
  }
}
