/** What passes the gates of a partition, and what becomes of the target it leaves pending. */
module PartitionGates {
  import opened Options
  import opened Settings
  import opened PartitionSpec
  import opened PartitionTheorems

  /** What HomeKit's four targets ask of the panel, and the mode each needs its bypass in. */
  const ACTIONS: seq<Action> := [ArmStay, ArmAway, ArmStay, Disarm]
  const MODES: seq<ArmingMode> := [ArmedStay, ArmedAway, ArmedNight, Disarmed]

  /** The panel offers a bypass for this very target, and the user allowed bypasses. */
  predicate MayBypass(attributes: Attributes, value: int, platform: Platform)
    requires 0 <= value <= 3
  {
    platform.isSensorBypassAllowed && MODES[value] in attributes.bypassModes
  }

  /** Arming from HomeKit is allowed, the account may arm, and no contact stands open that nothing bypasses. */
  predicate MayPass(attributes: Option<Attributes>, value: int, platform: Platform) {
    && 0 <= value <= 3
    && platform.isHomeKitArmingAllowed
    && attributes.Some? && attributes.value.hasPermissionToChangeState
    && (value == 3 || platform.openContacts == 0 || MayBypass(attributes.value, value, platform))
  }

  /**
   * A request is accepted exactly when it may pass, and then asks for exactly the verb and the
   * modifiers of its target: a bypass goes with it if and only if the panel offers one for that
   * mode and the user allowed it. Refused, it changes nothing, and nothing else is ever accepted.
   */
  lemma AcceptedExactlyWhen(s: Partition, e: Event)
    ensures var t := Step(s, e);
            if e.SetTarget? && MayPass(s.attributes, e.value, e.platform) then
              t.accepted == s.accepted + [Request(ACTIONS[e.value], e.value,
                                                  Modifiers(e.value == 2,
                                                            MayBypass(s.attributes.value, e.value, e.platform)))]
            else
              t.accepted == s.accepted && (e.SetTarget? ==> t == s)
  {
    if e.SetTarget? && 0 <= e.value <= 3 {
      assert MODES[e.value] == ArmingModeFor(e.value) && ToAction(e.value) == Some(ACTIONS[e.value]);
    }
  }

  /**
   * Over every run: each request accepted was asked for at some moment of the run, when arming
   * was allowed and the account had permission. It carries a bypass exactly when the user allowed
   * one and the panel's reading offered it for that mode, and an arm carries one whenever a
   * contact stood open.
   */
  lemma {:induction false} EveryRequestPassed(events: seq<Event>, i: nat) returns (k: nat)
    requires i < |Run(FRESH, events).accepted|
    ensures k < |events| && events[k].SetTarget?
    ensures var before := Run(FRESH, events[..k]);
            var platform := events[k].platform;
            var r := Run(FRESH, events).accepted[i];
            && |before.accepted| == i && before.attributes.Some?
            && platform.isHomeKitArmingAllowed && before.attributes.value.hasPermissionToChangeState
            && 0 <= r.target <= 3 && r.target == events[k].value
            && (r.options.nightArming <==> r.target == 2)
            && (r.options.forceBypass <==>
                  platform.isSensorBypassAllowed && MODES[r.target] in before.attributes.value.bypassModes)
            && (r.action == Disarm <==> r.target == 3) && (r.action == ArmAway <==> r.target == 1)
            && (r.action != Disarm && platform.openContacts > 0 ==> r.options.forceBypass)
  {
    var most := events[..|events| - 1];
    var s := Run(FRESH, most);
    AcceptedExactlyWhen(s, events[|events| - 1]);
    hide Step;
    if i < |s.accepted| {
      k := EveryRequestPassed(most, i);
      assert most[..k] == events[..k];
    } else {
      k := |events| - 1;
    }
  }

  // ---- The pending target -------------------------------------------------

  /** The target an event leaves pending, in a partition where `owner` may still speak for the tile. */
  function TargetAfter(s: Partition, e: Event): Option<int> {
    match e
    case SetTarget(value, platform, startThrows) =>
      if !MayPass(s.attributes, value, platform) then s.targetState
      else if startThrows && s.outstanding == [] then None
      else Some(value)
    case Completes(i, isOk, _, startThrows) =>
      if |s.outstanding| <= i then s.targetState
      else if s.queued.None? then (if isOk then s.targetState else None)
      else if startThrows then None
      else s.targetState
    case Reads(_, displayed) =>
      if s.targetState.Some? && (displayed == s.targetState || s.now - s.targetSetAt >= 90_000) then None
      else s.targetState
    case DeadlinePasses(_) => s.targetState
    case Elapse(_) => s.targetState
  }

  lemma CompletingLeavesTarget(s: Partition, e: Event)
    requires Inv(s) && e.Completes? && Enabled(s, e)
    ensures Step(s, e).targetState == TargetAfter(s, e) && Step(s, e).targetSetAt == s.targetSetAt
  {
    hide OrderOk, TileOk;
  }

  lemma AskingLeavesTarget(s: Partition, e: Event)
    requires Inv(s) && e.SetTarget?
    ensures Step(s, e).targetState == TargetAfter(s, e)
    ensures Step(s, e).targetSetAt == if MayPass(s.attributes, e.value, e.platform) then s.now else s.targetSetAt
  {
    hide OrderOk, TileOk;
    if 0 <= e.value <= 3 {
      assert MODES[e.value] == ArmingModeFor(e.value) && ToAction(e.value) == Some(ACTIONS[e.value]);
    }
  }

  /**
   * Over every run, what each event does to the pending target, exactly: an accepted request sets
   * it and dates it, an unaccepted one does not touch it, a reading clears it when the panel shows
   * it or ninety seconds have gone by and otherwise never, and an outcome clears it exactly when
   * the command that owns the tile fails.
   */
  lemma TargetMovesExactlySo(events: seq<Event>, e: Event)
    requires NeverFreesRunning(events)
    ensures var s := Run(FRESH, events); var t := Step(s, e);
            && t.targetState == TargetAfter(s, e)
            && t.targetSetAt == (if e.SetTarget? && MayPass(s.attributes, e.value, e.platform) then s.now
                                 else s.targetSetAt)
            && t.attributes == (if e.Reads? then Some(e.attributes) else s.attributes)
  {
    RunKeepsInv(events);
    var s := Run(FRESH, events);
    if e.SetTarget? {
      AskingLeavesTarget(s, e);
    } else if e.Completes? && Enabled(s, e) {
      CompletingLeavesTarget(s, e);
    }
    hide Inv;
  }
}
