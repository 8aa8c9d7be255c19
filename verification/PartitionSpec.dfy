/**
 * The partition's command serialiser as a state machine: one command out at Alarm.com, one
 * held behind it, and a sequence number that says who may speak for the tile.
 */
module PartitionSpec {
  import opened Options
  import opened Settings

  datatype Action = ArmStay | ArmAway | Disarm

  datatype ArmingMode = ArmedStay | ArmedAway | ArmedNight | Disarmed

  /** The modifiers that may accompany a command. */
  datatype Modifiers = Modifiers(nightArming: bool, forceBypass: bool)

  datatype Request = Request(action: Action, target: int, options: Modifiers)

  /** What a reading of the partition says about commanding it. */
  datatype Attributes = Attributes(hasPermissionToChangeState: bool, bypassModes: set<ArmingMode>)

  /** The platform's settings and the contacts standing open. */
  datatype Platform = Platform(isHomeKitArmingAllowed: bool, isSensorBypassAllowed: bool, openContacts: nat)

  /** A command out at Alarm.com. `ordinal` is its place among the accepted requests. */
  datatype Attempt = Attempt(request: Request, ordinal: nat, token: nat, startedAt: int, isLate: bool)

  datatype Held = Held(request: Request, ordinal: nat)

  /** An outcome told to the user, and how many requests had been accepted by then. */
  datatype Report = Report(ordinal: nat, isOk: bool, acceptedThen: nat)

  datatype Partition = Partition(
    // The environment and what was observed of it.
    now: int,
    accepted: seq<Request>,
    attempted: seq<nat>,
    outstanding: seq<Attempt>,
    applied: seq<nat>,
    reports: seq<Report>,
    // The fields of the class.
    attributes: Option<Attributes>,
    targetState: Option<int>,
    targetSetAt: int,
    commandSequence: nat,
    inFlight: Option<nat>,
    queued: Option<Held>)

  const FRESH: Partition := Partition(0, [], [], [], [], [], None, None, 0, 0, None, None)

  datatype Event =
    | SetTarget(value: int, platform: Platform, startThrows: bool)
    | DeadlinePasses(i: nat)
    | Completes(i: nat, isOk: bool, reportThrows: bool, startThrows: bool)
    | Reads(attributes: Attributes, displayed: Option<int>)
    | Elapse(ms: nat)

  // ---- What a request becomes ---------------------------------------------

  /** `toPartitionAction`: night arming is a stay command carrying a modifier. */
  function ToAction(target: int): Option<Action> {
    match target
    case 0 => Some(ArmStay)
    case 1 => Some(ArmAway)
    case 2 => Some(ArmStay)
    case 3 => Some(Disarm)
    case _ => None
  }

  function ArmingModeFor(target: int): ArmingMode {
    match target
    case 1 => ArmedAway
    case 2 => ArmedNight
    case 3 => Disarmed
    case _ => ArmedStay
  }

  predicate WillBypassOpenSensors(attributes: Attributes, target: int, isBypassAllowed: bool) {
    isBypassAllowed && ArmingModeFor(target) in attributes.bypassModes
  }

  function BuildCommandOptions(attributes: Attributes, target: int, isBypassAllowed: bool): Modifiers {
    Modifiers(target == 2, WillBypassOpenSensors(attributes, target, isBypassAllowed))
  }

  predicate CanCommand(s: Partition, platform: Platform) {
    s.attributes.Some? && platform.isHomeKitArmingAllowed && s.attributes.value.hasPermissionToChangeState
  }

  predicate RefusesOverOpenSensors(attributes: Attributes, target: int, platform: Platform) {
    !WillBypassOpenSensors(attributes, target, platform.isSensorBypassAllowed) && platform.openContacts > 0
  }

  /** The gates of `#handleTargetState`, in order. */
  predicate Accepts(s: Partition, value: int, platform: Platform) {
    && CanCommand(s, platform)
    && ToAction(value).Some?
    && (ToAction(value).value != Disarm ==> !RefusesOverOpenSensors(s.attributes.value, value, platform))
  }

  // ---- Sending, settling, draining ----------------------------------------

  function RecordOutcome(s: Partition, a: Attempt, isOk: bool, throws: bool): Partition {
    if a.token != s.commandSequence then s else
    var reconciled := if isOk then s else s.(targetState := None);
    if throws then reconciled
    else reconciled.(reports := reconciled.reports + [Report(a.ordinal, isOk, |s.accepted|)])
  }

  function SendCommand(s: Partition, request: Request, ordinal: nat, startThrows: bool): Partition {
    if s.inFlight.Some? then
      s.(queued := Some(Held(request, ordinal)), commandSequence := s.commandSequence + 1)
    else
      var token := s.commandSequence + 1;
      var a := Attempt(request, ordinal, token, s.now, false);
      var claimed := s.(commandSequence := token, attempted := s.attempted + [ordinal]);
      if startThrows then RecordOutcome(claimed, a, false, false)
      else claimed.(outstanding := claimed.outstanding + [a], inFlight := Some(token))
  }

  function ReleaseAndDrain(s: Partition, startThrows: bool): Partition {
    var free := s.(inFlight := None);
    if s.queued.None? then free
    else SendCommand(free.(queued := None), s.queued.value.request, s.queued.value.ordinal, startThrows)
  }

  /** `#settle` releases in a `finally`; the late path releases again when reporting threw. */
  function Settle(s: Partition, a: Attempt, isOk: bool, reportThrows: bool, startThrows: bool): Partition {
    var released := ReleaseAndDrain(RecordOutcome(s, a, isOk, reportThrows), startThrows);
    if reportThrows && a.isLate then ReleaseAndDrain(released, startThrows) else released
  }

  function HandleTargetState(s: Partition, value: int, platform: Platform, startThrows: bool): Partition {
    if !Accepts(s, value, platform) then s else
    var request := Request(ToAction(value).value, value,
                           BuildCommandOptions(s.attributes.value, value, platform.isSensorBypassAllowed));
    SendCommand(s.(targetState := Some(value), targetSetAt := s.now, accepted := s.accepted + [request]),
                request, |s.accepted|, startThrows)
  }

  predicate IsExpired(s: Partition) {
    s.now - s.targetSetAt >= PARTITION_TARGET_SETTLE_MS
  }

  /** What `update` does to the pending target. */
  function Reconcile(s: Partition, displayed: Option<int>): Partition {
    if s.targetState.Some? && (s.targetState == displayed || IsExpired(s)) then s.(targetState := None) else s
  }

  function Without(outstanding: seq<Attempt>, i: nat): seq<Attempt>
    requires i < |outstanding|
  {
    outstanding[..i] + outstanding[i + 1..]
  }

  /** A command's outcome reaches the plugin; the panel applies the ones that succeed. */
  function Complete(s: Partition, i: nat, isOk: bool): Partition
    requires i < |s.outstanding|
  {
    s.(outstanding := Without(s.outstanding, i),
       applied := if isOk then s.applied + [s.outstanding[i].ordinal] else s.applied)
  }

  predicate Enabled(s: Partition, e: Event) {
    match e
    case DeadlinePasses(i) =>
      i < |s.outstanding| && !s.outstanding[i].isLate
      && s.now - s.outstanding[i].startedAt >= PARTITION_COMMAND_DEADLINE_MS
    case Completes(i, _, _, _) => i < |s.outstanding|
    case _ => true
  }

  function Apply(s: Partition, e: Event): Partition
    requires Enabled(s, e)
  {
    match e
    case SetTarget(value, platform, startThrows) => HandleTargetState(s, value, platform, startThrows)
    case DeadlinePasses(i) => s.(outstanding := s.outstanding[i := s.outstanding[i].(isLate := true)])
    case Completes(i, isOk, reportThrows, startThrows) =>
      Settle(Complete(s, i, isOk), s.outstanding[i], isOk, reportThrows, startThrows)
    case Reads(attributes, displayed) => Reconcile(s.(attributes := Some(attributes)), displayed)
    case Elapse(ms) => s.(now := s.now + ms)
  }

  function Step(s: Partition, e: Event): Partition {
    if Enabled(s, e) then Apply(s, e) else s
  }

  function Run(s: Partition, events: seq<Event>): Partition {
    if events == [] then s else Step(Run(s, events[..|events| - 1]), events[|events| - 1])
  }
}
