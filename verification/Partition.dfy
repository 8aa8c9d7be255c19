/** The `PartitionAccessory` command path, proved to take its fields where `PartitionSpec` says. */
module Partitions {
  import opened Options
  import opened Settings
  import opened PartitionSpec

  class PartitionAccessory {
    // The environment: the clock and the commands out at Alarm.com.
    var now: int
    var outstanding: seq<Attempt>
    // What was asked, sent, applied by the panel and said to the user.
    var accepted: seq<Request>
    ghost var attempted: seq<nat>
    ghost var applied: seq<nat>
    ghost var reports: seq<Report>

    var attributes: Option<Attributes>
    var targetState: Option<int>
    var targetSetAt: int
    var commandSequence: nat
    var inFlight: Option<nat>
    var queued: Option<Held>

    ghost function State(): Partition
      reads this
    {
      Partition(now, accepted, attempted, outstanding, applied, reports,
                attributes, targetState, targetSetAt, commandSequence, inFlight, queued)
    }

    constructor ()
      ensures State() == FRESH
    {
      now, targetSetAt, commandSequence := 0, 0, 0;
      outstanding, accepted, attempted, applied, reports := [], [], [], [], [];
      attributes, targetState, inFlight, queued := None, None, None, None;
    }

    /** Marks the slot free and sends the newest target that was held for it. */
    method ReleaseSlot(startThrows: bool)
      modifies this
      ensures State() == ReleaseAndDrain(old(State()), startThrows)
    {
      inFlight := None;
      var next := queued;
      if next.None? {
        return;
      }
      queued := None;
      Send(next.value.request, next.value.ordinal, startThrows);
    }

    method Send(request: Request, ordinal: nat, startThrows: bool)
      modifies this
      ensures State() == SendCommand(old(State()), request, ordinal, startThrows)
    {
      hide RecordOutcome;
      if inFlight.Some? {
        queued := Some(Held(request, ordinal));
        commandSequence := commandSequence + 1;
        return;
      }
      commandSequence := commandSequence + 1;
      var attempt := Attempt(request, ordinal, commandSequence, now, false);
      attempted := attempted + [ordinal];
      if startThrows {
        Record(attempt, false, false);
        return;
      }
      outstanding := outstanding + [attempt];
      inFlight := Some(attempt.token);
    }

    /** A command the user has replaced must not speak for the one that replaced it. */
    method Record(attempt: Attempt, isOk: bool, throws: bool)
      modifies this`targetState, this`reports
      ensures State() == RecordOutcome(old(State()), attempt, isOk, throws)
    {
      if attempt.token != commandSequence {
        return;
      }
      if !isOk {
        targetState := None;
      }
      if !throws {
        reports := reports + [Report(attempt.ordinal, isOk, |accepted|)];
      }
    }

    /** `#settle`, and on the late path the handler that releases again when reporting threw. */
    method SettleOutcome(attempt: Attempt, isOk: bool, reportThrows: bool, startThrows: bool)
      modifies this
      ensures State() == Settle(old(State()), attempt, isOk, reportThrows, startThrows)
    {
      hide RecordOutcome, ReleaseAndDrain;
      Record(attempt, isOk, reportThrows);
      ReleaseSlot(startThrows);
      if reportThrows && attempt.isLate {
        ReleaseSlot(startThrows);
      }
    }

    method SetTargetState(value: int, platform: Platform, startThrows: bool) returns (isAccepted: bool)
      modifies this
      ensures isAccepted <==>
                && old(attributes).Some? && old(attributes).value.hasPermissionToChangeState
                && platform.isHomeKitArmingAllowed && 0 <= value <= 3
                && (value == 3 || platform.openContacts == 0
                    || (platform.isSensorBypassAllowed
                        && [ArmedStay, ArmedAway, ArmedNight, Disarmed][value] in old(attributes).value.bypassModes))
      ensures State() == Apply(old(State()), SetTarget(value, platform, startThrows))
    {
      hide SendCommand;
      isAccepted := false;
      if attributes.None? || !platform.isHomeKitArmingAllowed || !attributes.value.hasPermissionToChangeState {
        return;
      }
      var action := ToAction(value);
      if action.None? {
        return;
      }
      if action.value != Disarm && RefusesOverOpenSensors(attributes.value, value, platform) {
        return;
      }
      isAccepted := true;
      var options := BuildCommandOptions(attributes.value, value, platform.isSensorBypassAllowed);
      var request := Request(action.value, value, options);
      var ordinal := |accepted|;
      targetState := Some(value);
      targetSetAt := now;
      accepted := accepted + [request];
      Send(request, ordinal, startThrows);
    }

    method ReachDeadline(i: nat)
      requires Enabled(State(), DeadlinePasses(i))
      modifies this`outstanding
      ensures State() == Apply(old(State()), DeadlinePasses(i))
    {
      outstanding := outstanding[i := outstanding[i].(isLate := true)];
    }

    method OnOutcome(i: nat, isOk: bool, reportThrows: bool, startThrows: bool)
      requires Enabled(State(), Completes(i, isOk, reportThrows, startThrows))
      modifies this
      ensures State() == Apply(old(State()), Completes(i, isOk, reportThrows, startThrows))
    {
      hide Settle;
      var attempt := outstanding[i];
      outstanding := outstanding[..i] + outstanding[i + 1..];
      if isOk {
        applied := applied + [attempt.ordinal];
      }
      SettleOutcome(attempt, isOk, reportThrows, startThrows);
    }

    /** The part of `update` that decides what becomes of a pending target. */
    method Update(reading: Attributes, displayed: Option<int>)
      modifies this`attributes, this`targetState
      ensures State() == Apply(old(State()), Reads(reading, displayed))
    {
      attributes := Some(reading);
      if targetState.None? {
        return;
      }
      if displayed.Some? && targetState == displayed {
        targetState := None;
        return;
      }
      if now - targetSetAt >= PARTITION_TARGET_SETTLE_MS {
        targetState := None;
      }
    }

    method Elapsed(ms: nat)
      modifies this`now
      ensures State() == Apply(old(State()), Elapse(ms))
    {
      now := now + ms;
    }

    method Handle(e: Event)
      modifies this
      ensures State() == Step(old(State()), e)
    {
      hide Apply;
      match e
      case SetTarget(value, platform, startThrows) => var _ := SetTargetState(value, platform, startThrows);
      case DeadlinePasses(i) =>
        if i < |outstanding| && !outstanding[i].isLate && now - outstanding[i].startedAt >= PARTITION_COMMAND_DEADLINE_MS {
          ReachDeadline(i);
        }
      case Completes(i, isOk, reportThrows, startThrows) =>
        if i < |outstanding| { OnOutcome(i, isOk, reportThrows, startThrows); }
      case Reads(reading, displayed) => Update(reading, displayed);
      case Elapse(ms) => Elapsed(ms);
    }
  }

  /** A new partition handed any events at all ends where the machine's run of them does. */
  method Replay(events: seq<Event>) returns (partition: PartitionAccessory)
    ensures fresh(partition) && partition.State() == Run(FRESH, events)
  {
    hide Step;
    partition := new PartitionAccessory();
    for n := 0 to |events|
      invariant fresh(partition) && partition.State() == Run(FRESH, events[..n])
    {
      assert events[..n + 1][..n] == events[..n];
      partition.Handle(events[n]);
    }
    assert events[..|events|] == events;
  }
}
