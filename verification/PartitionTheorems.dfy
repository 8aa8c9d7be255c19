/** The last request wins, and only the request that owns the tile speaks for it. */
module PartitionTheorems {
  import opened Options
  import opened Settings
  import opened PartitionSpec

  predicate Increasing(s: seq<nat>) {
    forall i, j :: 0 <= i < j < |s| ==> s[i] < s[j]
  }

  predicate Below(s: seq<nat>, bound: nat) {
    forall i :: 0 <= i < |s| ==> s[i] < bound
  }

  /** The slot, the queue and the sequence number agree about what is out at Alarm.com. */
  predicate SlotOk(s: Partition) {
    && (s.inFlight.None? ==> s.outstanding == [] && s.queued.None?)
    && (s.inFlight.Some? ==>
          && |s.outstanding| == 1
          && var a := s.outstanding[0];
             && a.token == s.inFlight.value
             && a.token <= s.commandSequence
             && (a.token == s.commandSequence <==> s.queued.None?))
  }

  /** Commands are attempted and applied in request order, and nothing accepted is lost behind the last. */
  predicate OrderOk(s: Partition) {
    && Increasing(s.attempted) && Below(s.attempted, |s.accepted|)
    && Increasing(s.applied) && Below(s.applied, |s.accepted|)
    && (s.accepted != [] ==> s.attempted != [])
    && (s.queued.None? && s.accepted != [] ==> s.attempted[|s.attempted| - 1] == |s.accepted| - 1)
    && (s.queued.Some? ==>
          && s.queued.value.ordinal == |s.accepted| - 1
          && s.queued.value.request == s.accepted[|s.accepted| - 1]
          && Below(s.attempted, |s.accepted| - 1))
    && (forall i :: 0 <= i < |s.outstanding| ==>
          && s.attempted != [] && s.outstanding[i].ordinal == s.attempted[|s.attempted| - 1]
          && s.outstanding[i].ordinal < |s.accepted|
          && s.outstanding[i].request == s.accepted[s.outstanding[i].ordinal]
          && Below(s.applied, s.outstanding[i].ordinal))
    && (s.attempted != [] ==> Below(s.applied, s.attempted[|s.attempted| - 1] + 1))
  }

  predicate TileOk(s: Partition) {
    && (s.targetState.Some? ==>
          s.accepted != [] && s.targetState.value == s.accepted[|s.accepted| - 1].target)
    && (forall i :: 0 <= i < |s.reports| ==> s.reports[i].ordinal == s.reports[i].acceptedThen - 1)
  }

  predicate Inv(s: Partition) {
    SlotOk(s) && OrderOk(s) && TileOk(s)
  }

  /**
   * The one step that breaks the serialiser: a late outcome whose reporting throws while a
   * command is held. The slot is released twice, the second time under the command just started.
   */
  predicate FreesRunningCommand(s: Partition, e: Event) {
    && Enabled(s, e) && e.Completes? && e.reportThrows && s.outstanding[e.i].isLate
    && s.queued.Some? && !e.startThrows
  }

  lemma FreshHoldsInv()
    ensures Inv(FRESH)
  {
  }

  lemma AppendIncreasing(s: seq<nat>, x: nat)
    requires Increasing(s) && Below(s, x)
    ensures Increasing(s + [x]) && Below(s + [x], x + 1)
  {
  }

  /** The newest accepted request has not been attempted and nothing else is out or held. */
  predicate IsReadyToSend(s: Partition) {
    && s.accepted != [] && s.outstanding == [] && s.inFlight.None? && s.queued.None?
    && Increasing(s.attempted) && Below(s.attempted, |s.accepted| - 1)
    && Increasing(s.applied) && Below(s.applied, |s.accepted| - 1)
    && TileOk(s)
  }

  lemma SendingKeepsInv(s: Partition, startThrows: bool)
    requires IsReadyToSend(s)
    ensures Inv(SendCommand(s, s.accepted[|s.accepted| - 1], |s.accepted| - 1, startThrows))
  {
    AppendIncreasing(s.attempted, |s.accepted| - 1);
    hide Increasing;
  }

  lemma HoldingKeepsInv(s: Partition, request: Request, platform: Platform)
    requires Inv(s) && s.inFlight.Some?
    ensures Inv(SendCommand(s.(targetState := Some(request.target), targetSetAt := s.now,
                               accepted := s.accepted + [request]), request, |s.accepted|, false))
  {
    hide Increasing;
    var after := SendCommand(s.(targetState := Some(request.target), targetSetAt := s.now,
                                accepted := s.accepted + [request]), request, |s.accepted|, false);
    assert after.accepted[..|s.accepted|] == s.accepted;
  }

  /** An idle partition whose newest request has been attempted has nothing applied beyond it. */
  lemma IdleIsReadyForNext(s: Partition, request: Request)
    requires Inv(s) && s.inFlight.None?
    ensures IsReadyToSend(s.(targetState := Some(request.target), targetSetAt := s.now,
                             accepted := s.accepted + [request]))
  {
    hide Increasing;
  }

  lemma SetTargetKeepsInv(s: Partition, value: int, platform: Platform, startThrows: bool)
    requires Inv(s)
    ensures Inv(HandleTargetState(s, value, platform, startThrows))
  {
    if Accepts(s, value, platform) {
      var request := Request(ToAction(value).value, value,
                             BuildCommandOptions(s.attributes.value, value, platform.isSensorBypassAllowed));
      if s.inFlight.Some? {
        HoldingKeepsInv(s, request, platform);
      } else {
        IdleIsReadyForNext(s, request);
        SendingKeepsInv(s.(targetState := Some(value), targetSetAt := s.now, accepted := s.accepted + [request]),
                        startThrows);
      }
      hide Inv, Accepts;
    }
  }

  /** The command out has completed; its settling is about to release the slot. */
  predicate IsSettling(s: Partition) {
    s.outstanding == [] && s.accepted != [] && OrderOk(s) && TileOk(s)
  }

  lemma ReleaseKeepsInv(s: Partition, startThrows: bool)
    requires IsSettling(s)
    ensures Inv(ReleaseAndDrain(s, startThrows))
    ensures s.queued.None? || startThrows ==>
              ReleaseAndDrain(s, startThrows).inFlight.None? && ReleaseAndDrain(s, startThrows).queued.None?
    ensures s.queued.Some? && !startThrows ==> ReleaseAndDrain(s, startThrows).outstanding != []
  {
    hide Increasing;
    if s.queued.Some? {
      var drained := s.(inFlight := None, queued := None);
      assert IsReadyToSend(drained);
      SendingKeepsInv(drained, startThrows);
    }
  }

  lemma CompletingSettles(s: Partition, i: nat, isOk: bool, reportThrows: bool)
    requires Inv(s) && i < |s.outstanding|
    ensures IsSettling(RecordOutcome(Complete(s, i, isOk), s.outstanding[i], isOk, reportThrows))
    ensures RecordOutcome(Complete(s, i, isOk), s.outstanding[i], isOk, reportThrows).queued == s.queued
  {
    var a := s.outstanding[0];
    if isOk {
      AppendIncreasing(s.applied, a.ordinal);
    }
    hide Increasing;
  }

  lemma CompletesKeepsInv(s: Partition, e: Event)
    requires Inv(s) && Enabled(s, e) && e.Completes? && !FreesRunningCommand(s, e)
    ensures Inv(Apply(s, e))
  {
    hide Inv, RecordOutcome, ReleaseAndDrain, Complete;
    CompletingSettles(s, e.i, e.isOk, e.reportThrows);
    var settling := RecordOutcome(Complete(s, e.i, e.isOk), s.outstanding[e.i], e.isOk, e.reportThrows);
    ReleaseKeepsInv(settling, e.startThrows);
    if e.reportThrows && s.outstanding[e.i].isLate {
      ReleasingIdleIsHarmless(ReleaseAndDrain(settling, e.startThrows), e.startThrows);
    }
  }

  lemma ReleasingIdleIsHarmless(s: Partition, startThrows: bool)
    requires s.inFlight.None? && s.queued.None?
    ensures ReleaseAndDrain(s, startThrows) == s
  {
  }

  lemma PassingDeadlineKeepsInv(s: Partition, i: nat)
    requires Inv(s) && Enabled(s, DeadlinePasses(i))
    ensures Inv(Apply(s, DeadlinePasses(i)))
  {
    hide Increasing, Below;
  }

  lemma ReadingKeepsInv(s: Partition, attributes: Attributes, displayed: Option<int>)
    requires Inv(s)
    ensures Inv(Reconcile(s.(attributes := Some(attributes)), displayed))
  {
    hide Increasing, Below;
  }

  lemma ElapsingKeepsInv(s: Partition, ms: nat)
    requires Inv(s)
    ensures Inv(s.(now := s.now + ms))
  {
    hide Increasing, Below;
  }

  lemma StepKeepsInv(s: Partition, e: Event)
    requires Inv(s) && !FreesRunningCommand(s, e)
    ensures Inv(Step(s, e))
  {
    hide Inv, HandleTargetState, Settle, Reconcile;
    if Enabled(s, e) {
      match e
      case SetTarget(value, platform, startThrows) => SetTargetKeepsInv(s, value, platform, startThrows);
      case Completes(_, _, _, _) => CompletesKeepsInv(s, e);
      case DeadlinePasses(i) => PassingDeadlineKeepsInv(s, i);
      case Reads(attributes, displayed) => ReadingKeepsInv(s, attributes, displayed);
      case Elapse(ms) => ElapsingKeepsInv(s, ms);
    }
  }

  /** The serialiser's invariant survives a step if and only if the step is not that one. */
  lemma OnlyDoubleReleaseBreaksIt(s: Partition, e: Event)
    requires Inv(s)
    ensures Inv(Step(s, e)) <==> !FreesRunningCommand(s, e)
  {
    if FreesRunningCommand(s, e) {
      CompletingSettles(s, e.i, e.isOk, e.reportThrows);
      var settling := RecordOutcome(Complete(s, e.i, e.isOk), s.outstanding[e.i], e.isOk, e.reportThrows);
      ReleaseKeepsInv(settling, e.startThrows);
      hide RecordOutcome, Complete;
    } else {
      StepKeepsInv(s, e);
    }
  }

  /** No event of the run releases the slot under a running command. */
  predicate NeverFreesRunning(events: seq<Event>) {
    events == [] ||
    var before := events[..|events| - 1];
    NeverFreesRunning(before) && !FreesRunningCommand(Run(FRESH, before), events[|events| - 1])
  }

  lemma {:induction false} RunKeepsInv(events: seq<Event>)
    requires NeverFreesRunning(events)
    ensures Inv(Run(FRESH, events))
  {
    if events == [] {
      FreshHoldsInv();
    } else {
      hide Inv;
      RunKeepsInv(events[..|events| - 1]);
      StepKeepsInv(Run(FRESH, events[..|events| - 1]), events[|events| - 1]);
    }
  }

  /** The target a panel is left in when it applies commands in the order they complete. */
  function PanelTarget(s: Partition): Option<int>
    requires Inv(s)
  {
    if s.applied == [] then None else Some(s.accepted[s.applied[|s.applied| - 1]].target)
  }

  lemma LastIsGreatest(s: seq<nat>, bound: nat)
    requires Increasing(s) && Below(s, bound) && bound >= 1 && bound - 1 in s
    ensures s[|s| - 1] == bound - 1
  {
  }

  lemma IdleMeansLastWon(s: Partition)
    requires Inv(s)
    ensures |s.outstanding| <= 1 && Increasing(s.attempted) && Increasing(s.applied)
    ensures s.outstanding == [] && s.accepted != [] ==>
              && s.queued.None?
              && s.attempted != [] && s.attempted[|s.attempted| - 1] == |s.accepted| - 1
              && (|s.accepted| - 1 in s.applied ==> PanelTarget(s) == Some(s.accepted[|s.accepted| - 1].target))
  {
    if s.accepted != [] && |s.accepted| - 1 in s.applied {
      LastIsGreatest(s.applied, |s.accepted|);
    }
    hide Increasing, Below;
  }

  /**
   * At most one command is out at a time; commands are attempted, and applied, in request order;
   * once nothing is out nothing is held and the last one attempted is the last one asked for, so
   * if the panel took it the panel ends there.
   */
  lemma LastRequestWins(events: seq<Event>)
    requires NeverFreesRunning(events)
    ensures var s := Run(FRESH, events);
            && Inv(s) && |s.outstanding| <= 1
            && Increasing(s.attempted) && Increasing(s.applied)
            && (s.outstanding == [] && s.accepted != [] ==>
                  && s.queued.None?
                  && s.attempted != [] && s.attempted[|s.attempted| - 1] == |s.accepted| - 1
                  && (|s.accepted| - 1 in s.applied ==>
                        PanelTarget(s) == Some(s.accepted[|s.accepted| - 1].target)))
  {
    hide Inv;
    RunKeepsInv(events);
    hide Run;
    IdleMeansLastWon(Run(FRESH, events));
  }

  /**
   * What that step costs: the next request accepted before the running command completes puts a
   * second one out beside it, whatever both of them ask.
   */
  lemma FreedSlotLetsTwoOut(s: Partition, e: Event, value: int, platform: Platform)
    requires Inv(s) && FreesRunningCommand(s, e)
    requires Accepts(Step(s, e), value, platform)
    ensures |Step(s, e).outstanding| == 1 && Step(s, e).inFlight.None?
    ensures |Step(Step(s, e), SetTarget(value, platform, false)).outstanding| == 2
  {
    hide RecordOutcome, Complete, Accepts, OrderOk, TileOk;
    CompletingSettles(s, e.i, e.isOk, e.reportThrows);
    var settling := RecordOutcome(Complete(s, e.i, e.isOk), s.outstanding[e.i], e.isOk, e.reportThrows);
    assert settling.outstanding == [] by { SettlingHasNothingOut(settling); }
    assert Step(s, e).inFlight.None? && |Step(s, e).outstanding| == 1;
  }

  lemma SettlingHasNothingOut(s: Partition)
    requires IsSettling(s)
    ensures s.outstanding == []
  {
  }

  // ---- The counterexample -------------------------------------------------

  lemma RunAppend(s: Partition, events: seq<Event>, e: Event)
    ensures Run(s, events + [e]) == Step(Run(s, events), e)
  {
    assert (events + [e])[..|events|] == events;
  }

  function Owner(): Event {
    Reads(Attributes(true, {}), Some(3))
  }

  function Ask(target: int): Event {
    SetTarget(target, Platform(true, false, 0), false)
  }

  /** Away goes out and outlives the HAP deadline, then Disarm is held behind it. */
  const BEFORE: seq<Event> := [Owner(), Ask(1), Elapse(9_000), DeadlinePasses(0), Ask(3)]

  /** The late outcome's reporting throws, and Away is asked for again. */
  const DOUBLE_RELEASE: seq<Event> := BEFORE + [Completes(0, true, true, false)] + [Ask(1)]

  lemma DisarmIsHeldBehindLateAway()
    ensures var s := Run(FRESH, BEFORE);
            && |s.outstanding| == 1 && s.outstanding[0].isLate && s.queued.Some? && s.inFlight.Some?
            && s.attributes == Some(Attributes(true, {}))
  {
    var asked := Step(Step(FRESH, Owner()), Ask(1));
    assert |asked.outstanding| == 1 && asked.inFlight.Some? && asked.outstanding[0].startedAt == 0;
    var late := Step(Step(asked, Elapse(9_000)), DeadlinePasses(0));
    assert |late.outstanding| == 1 && late.outstanding[0].isLate && late.inFlight.Some?;
    var held := Step(late, Ask(3));
    assert |held.outstanding| == 1 && held.queued.Some?;
    assert held == Run(FRESH, BEFORE) by {
      hide Step;
      assert Run(FRESH, []) == FRESH;
      RunAppend(FRESH, [], Owner());
      assert [] + [Owner()] == [Owner()];
      RunAppend(FRESH, [Owner()], Ask(1));
      assert [Owner()] + [Ask(1)] == BEFORE[..2];
      RunAppend(FRESH, BEFORE[..2], Elapse(9_000));
      assert BEFORE[..2] + [Elapse(9_000)] == BEFORE[..3];
      RunAppend(FRESH, BEFORE[..3], DeadlinePasses(0));
      assert BEFORE[..3] + [DeadlinePasses(0)] == BEFORE[..4];
      RunAppend(FRESH, BEFORE[..4], Ask(3));
      assert BEFORE[..4] + [Ask(3)] == BEFORE;
    }
  }

  /** Without the proviso the guarantee is false: this run ends with two commands out at once. */
  lemma DoubleReleaseLetsTwoCommandsOut()
    ensures |Run(FRESH, DOUBLE_RELEASE).outstanding| == 2
  {
    DisarmIsHeldBehindLateAway();
    RunAppend(FRESH, BEFORE, Completes(0, true, true, false));
    RunAppend(FRESH, BEFORE + [Completes(0, true, true, false)], Ask(1));
    hide Run;
    var freed := Step(Run(FRESH, BEFORE), Completes(0, true, true, false));
    assert freed.inFlight.None? && |freed.outstanding| == 1;
  }

  // ---- Tile ownership -----------------------------------------------------

  /**
   * An outcome that has been superseded, which is exactly one that completes with a command
   * held behind it, says nothing and leaves the pending target alone; only the held command's
   * own failure to start may.
   */
  lemma SupersededOutcomeIsSilent(s: Partition, e: Event)
    requires Inv(s) && Enabled(s, e) && e.Completes?
    ensures var a := s.outstanding[e.i]; var t := Step(s, e);
            && (s.queued.Some? <==> a.token != s.commandSequence)
            && (s.queued.Some? && !e.startThrows ==> t.targetState == s.targetState && t.reports == s.reports)
            && (s.queued.Some? && e.startThrows ==>
                  t.reports == s.reports + [Report(s.queued.value.ordinal, false, |s.accepted|)])
            && (s.queued.None? && !e.reportThrows ==>
                  t.reports == s.reports + [Report(a.ordinal, e.isOk, |s.accepted|)])
  {
  }

  /** What may end a pending target. */
  predicate MayClearTarget(s: Partition, e: Event) {
    || (e.Reads? && (s.targetState == e.displayed || IsExpired(s)))
    || (e.Completes? && Enabled(s, e) && !e.isOk && s.queued.None?)
    || (e.Completes? && Enabled(s, e) && s.queued.Some? && e.startThrows)
    || (e.SetTarget? && e.startThrows)
  }

  /**
   * A pending target is always what was last asked for. It changes only when something else is
   * accepted, and ends only when the panel confirms it, the settle window runs out, or the
   * command that owns it fails.
   */
  lemma PendingTargetIsTheLastRequest(events: seq<Event>, e: Event)
    requires NeverFreesRunning(events)
    ensures var s := Run(FRESH, events); var t := Step(s, e);
            && (s.targetState.Some? ==>
                  s.accepted != [] && s.targetState.value == s.accepted[|s.accepted| - 1].target)
            && (s.targetState.Some? && t.targetState != s.targetState ==>
                  || MayClearTarget(s, e)
                  || (e.SetTarget? && Accepts(s, e.value, e.platform) && t.targetState == Some(e.value)))
  {
    RunKeepsInv(events);
    hide OrderOk;
  }

  /** Every outcome ever reported was, when reported, that of the newest request. */
  lemma ReportsSpeakForTheNewest(events: seq<Event>, i: nat)
    requires NeverFreesRunning(events) && i < |Run(FRESH, events).reports|
    ensures var r := Run(FRESH, events).reports[i];
            r.ordinal == r.acceptedThen - 1
  {
    RunKeepsInv(events);
  }

  // ---- Gates --------------------------------------------------------------

  /** The refusal and the command builder agree: an arm over open contacts either bypasses them or is refused. */
  lemma ArmOverOpenContactsBypassesOrIsRefused(s: Partition, value: int, platform: Platform, startThrows: bool)
    requires platform.openContacts > 0
    ensures var t := HandleTargetState(s, value, platform, startThrows);
            || t == s
            || (|t.accepted| == |s.accepted| + 1
                && var request := t.accepted[|s.accepted|];
                   request.action == Disarm || request.options.forceBypass)
  {
  }

  /** The panel command says which target was asked for: verb and night modifier together lose nothing. */
  lemma CommandDeterminesTarget(s: Partition, x: int, y: int, platform: Platform)
    requires Accepts(s, x, platform) && Accepts(s, y, platform)
    requires ToAction(x) == ToAction(y)
    requires BuildCommandOptions(s.attributes.value, x, platform.isSensorBypassAllowed).nightArming
             == BuildCommandOptions(s.attributes.value, y, platform.isSensorBypassAllowed).nightArming
    ensures x == y
  {
  }
}
