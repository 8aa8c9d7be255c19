/** Discovery never loses a device to silence, and exactly when it strands an accessory HomeKit never hears of. */
module DiscoveryTheorems {
  import opened Options
  import opened DiscoverySpec

  /** The devices HomeKit shows. */
  function Shown(s: Home): set<DeviceId> {
    set u | u in s.cached && u in s.registered && s.cached[u].Some? :: s.cached[u].value
  }

  /** An accessory under a device's identifier is that device's, or has yet to be given a context. */
  predicate IsKeyed(cached: map<Uuid, Option<DeviceId>>) {
    forall u <- cached :: u.Of? && cached[u].Some? ==> cached[u].value == u.id
  }

  predicate IsCached(s: Home, id: DeviceId) {
    Of(id) in s.cached && s.cached[Of(id)] == Some(id)
  }

  /** What holds however a discovery ends: every handler is of its kind, not ignored, and remembered. */
  predicate Base(config: Config, s: Home) {
    && IsKeyed(s.cached) && s.registered <= s.cached.Keys
    && (forall id <- s.partitions :: id.PartitionId? && id !in config.ignored && IsCached(s, id))
    && (forall id <- s.sensors :: id.SensorId? && id !in config.ignored && IsCached(s, id))
  }

  /** Every accessory the plugin remembers is one HomeKit knows. */
  predicate AllKnown(s: Home) {
    s.cached.Keys <= s.registered
  }

  predicate Inv(config: Config, s: Home) {
    Base(config, s) && AllKnown(s)
  }

  // ---- Each step, on the devices shown. ----

  lemma Pruning(config: Config, s: Home, live: set<DeviceId>)
    requires Base(config, s) && s.partitions + s.sensors <= live
    ensures var t := RemoveStaleAccessories(s, live);
            Base(config, t) && (AllKnown(s) ==> AllKnown(t)) && Shown(t) == Shown(s) * live
  {
    var t := RemoveStaleAccessories(s, live);
    forall id | id in Shown(s) * live ensures id in Shown(t) {
      var u :| u in s.cached && u in s.registered && s.cached[u] == Some(id);
      assert u in t.cached && u in t.registered;
    }
  }

  /** Giving an accessory its own context takes no device away, and adds its own if HomeKit knows it. */
  lemma ShownGrows(s: Home, t: Home, id: DeviceId)
    requires s.registered <= s.cached.Keys && IsKeyed(s.cached)
    requires t.cached == s.cached[Of(id) := Some(id)]
    requires t.registered == s.registered || t.registered == s.registered + {Of(id)}
    ensures Shown(s) <= Shown(t) <= Shown(s) + {id}
    ensures Of(id) in t.registered ==> id in Shown(t)
  {
    assert Of(id) in t.cached && t.cached[Of(id)] == Some(id);
    forall x | x in Shown(s) ensures x in Shown(t) {
      var u :| u in s.cached && u in s.registered && s.cached[u] == Some(x);
      if u != Of(id) {
        assert t.cached[u] == Some(x);
      }
    }
    forall x | x in Shown(t) && x != id ensures x in Shown(s) {
      var u :| u in t.cached && u in t.registered && t.cached[u] == Some(x);
      assert u != Of(id);
    }
  }

  /** An exception between caching a new accessory and registering it: the branch taken only when it is new. */
  predicate Strands(s: Home, id: DeviceId, throwAt: ThrowPoint) {
    IsNew(s, id) && throwAt in {Building, Registering}
  }

  /** One partition published: what is kept, what is shown, and the one way to strand its accessory. */
  lemma SyncingPartition(config: Config, s: Home, detail: PartitionDetail)
    requires Base(config, s) && detail.id.PartitionId? && detail.id !in config.ignored
    ensures var t := SyncPartition(s, detail);
            && Base(config, t) && t.sensors == s.sensors
            && Shown(s) <= Shown(t) <= Shown(s) + {detail.id}
            && s.partitions <= t.partitions <= s.partitions + {detail.id}
            && (AllKnown(s) ==> (AllKnown(t) <==> !Strands(s, detail.id, detail.throwAt)))
            && (!Throws(s, detail.id, detail.throwAt) ==>
                  detail.id in t.partitions && (AllKnown(s) ==> detail.id in Shown(t)))
  {
    if detail.throwAt != AtOnce {
      ShownGrows(s, SyncPartition(s, detail), detail.id);
    }
  }

  predicate SensorStrands(config: Config, s: Home, detail: SensorDetail) {
    IsPublished(config, detail) && Strands(s, detail.id, detail.throwAt)
  }

  /** One sensor published, or declined. */
  lemma SyncingSensor(config: Config, s: Home, detail: SensorDetail)
    requires Base(config, s) && detail.id.SensorId? && detail.id !in config.ignored
    ensures var t := SyncSensor(config, s, detail);
            && Base(config, t) && t.partitions == s.partitions
            && Shown(s) <= Shown(t) <= Shown(s) + {detail.id}
            && s.sensors - {detail.id} <= t.sensors <= s.sensors + {detail.id}
            && (AllKnown(s) ==> (AllKnown(t) <==> !SensorStrands(config, s, detail)))
            && (!SensorThrows(config, s, detail) && IsPublished(config, detail) ==>
                  detail.id in t.sensors && (AllKnown(s) ==> detail.id in Shown(t)))
            && (!SensorThrows(config, s, detail) && !IsPublished(config, detail) ==> detail.id !in t.sensors)
  {
    if detail.throwAt != AtOnce && IsPublished(config, detail) {
      ShownGrows(s, SyncSensor(config, s, detail), detail.id);
    }
  }

  // ---- The two loops. ----

  predicate PartitionsFit(config: Config, details: seq<PartitionDetail>) {
    forall d <- details :: d.id.PartitionId? && d.id !in config.ignored
  }

  /** The loop reaches detail `i`, and publishing it strands its accessory. */
  predicate PartitionStrandsAt(s: Home, details: seq<PartitionDetail>, i: int)
    requires 0 <= i < |details|
  {
    && !SyncPartitions(s, details[..i]).threw
    && Strands(SyncPartitions(s, details[..i]).home, details[i].id, details[i].throwAt)
  }

  predicate PartitionsStrand(s: Home, details: seq<PartitionDetail>) {
    exists i :: 0 <= i < |details| && PartitionStrandsAt(s, details, i)
  }

  predicate SensorStrandsAt(config: Config, s: Home, details: seq<SensorDetail>, i: int)
    requires 0 <= i < |details|
  {
    && !SyncSensors(config, s, details[..i]).threw
    && SensorStrands(config, SyncSensors(config, s, details[..i]).home, details[i])
  }

  predicate SensorsStrand(config: Config, s: Home, details: seq<SensorDetail>) {
    exists i :: 0 <= i < |details| && SensorStrandsAt(config, s, details, i)
  }

  lemma OneMorePartitionStrands(s: Home, details: seq<PartitionDetail>)
    requires details != []
    ensures var last := |details| - 1;
            PartitionsStrand(s, details) <==> PartitionsStrand(s, details[..last]) || PartitionStrandsAt(s, details, last)
  {
    hide SyncPartitions, Strands;
    var front := details[..|details| - 1];
    forall i | 0 <= i < |front| ensures PartitionStrandsAt(s, details, i) <==> PartitionStrandsAt(s, front, i) {
      assert details[..i] == front[..i];
    }
  }

  lemma OneMoreSensorStrands(config: Config, s: Home, details: seq<SensorDetail>)
    requires details != []
    ensures var last := |details| - 1;
            SensorsStrand(config, s, details)
            <==> SensorsStrand(config, s, details[..last]) || SensorStrandsAt(config, s, details, last)
  {
    hide SyncSensors, SensorStrands;
    var front := details[..|details| - 1];
    forall i | 0 <= i < |front| ensures SensorStrandsAt(config, s, details, i) <==> SensorStrandsAt(config, s, front, i) {
      assert details[..i] == front[..i];
    }
  }

  lemma {:induction false} SyncingPartitions(config: Config, s: Home, details: seq<PartitionDetail>)
    requires Base(config, s) && PartitionsFit(config, details)
    ensures var t := SyncPartitions(s, details).home;
            && Base(config, t) && t.sensors == s.sensors
            && Shown(s) <= Shown(t) <= Shown(s) + PartitionIds(details)
            && s.partitions <= t.partitions <= s.partitions + PartitionIds(details)
            && (AllKnown(s) ==> (AllKnown(t) <==> !PartitionsStrand(s, details)))
    ensures !SyncPartitions(s, details).threw ==>
              var t := SyncPartitions(s, details).home;
              && !PartitionsStrand(s, details)
              && PartitionIds(details) <= t.partitions
              && (AllKnown(s) ==> PartitionIds(details) <= Shown(t))
  {
    hide Base, AllKnown, Shown, SyncPartition, PartitionsStrand, Strands;
    if details == [] {
      NoPartitionsStrand(s);
    } else {
      var front, last := details[..|details| - 1], details[|details| - 1];
      SyncingPartitions(config, s, front);
      assert last in details;
      var before := SyncPartitions(s, front);
      SyncingPartition(config, before.home, last);
      MorePartitionIds(front, last);
      assert details == front + [last];
      OneMorePartitionStrands(s, details);
      StrandingThrows(before.home, last.id, last.throwAt);
    }
  }

  lemma NoPartitionsStrand(s: Home)
    ensures !PartitionsStrand(s, [])
  {
  }

  lemma StrandingThrows(s: Home, id: DeviceId, throwAt: ThrowPoint)
    ensures Strands(s, id, throwAt) ==> Throws(s, id, throwAt)
  {
  }

  lemma MorePartitionIds(front: seq<PartitionDetail>, last: PartitionDetail)
    ensures PartitionIds(front + [last]) == PartitionIds(front) + {last.id}
  {
    var all := front + [last];
    assert all[|front|] == last;
    forall id | id in PartitionIds(front) ensures id in PartitionIds(all) {
      var i :| 0 <= i < |front| && front[i].id == id;
      assert all[i].id == id;
    }
  }

  lemma MoreSensorIds(front: seq<SensorDetail>, last: SensorDetail)
    ensures SensorIds(front + [last]) == SensorIds(front) + {last.id}
  {
    var all := front + [last];
    assert all[|front|] == last;
    forall id | id in SensorIds(front) ensures id in SensorIds(all) {
      var i :| 0 <= i < |front| && front[i].id == id;
      assert all[i].id == id;
    }
  }

  /** The sensors a reply leaves published, by the last word it has on each. */
  function Published(config: Config, details: seq<SensorDetail>): set<DeviceId> {
    if details == [] then {} else
    var last := details[|details| - 1];
    var before := Published(config, details[..|details| - 1]);
    if IsPublished(config, last) then before + {last.id} else before - {last.id}
  }

  predicate SensorsFit(config: Config, details: seq<SensorDetail>) {
    forall d <- details :: d.id.SensorId? && d.id !in config.ignored
  }

  lemma {:induction false} SyncingSensors(config: Config, s: Home, details: seq<SensorDetail>)
    requires Base(config, s) && SensorsFit(config, details)
    ensures var t := SyncSensors(config, s, details).home;
            && Base(config, t) && t.partitions == s.partitions
            && Shown(s) <= Shown(t) <= Shown(s) + SensorIds(details)
            && t.sensors <= s.sensors + SensorIds(details)
            && (AllKnown(s) ==> (AllKnown(t) <==> !SensorsStrand(config, s, details)))
    ensures !SyncSensors(config, s, details).threw ==>
              var t := SyncSensors(config, s, details).home;
              && !SensorsStrand(config, s, details)
              && Published(config, details) <= SensorIds(details)
              && t.sensors == Published(config, details) + (s.sensors - SensorIds(details))
              && (AllKnown(s) ==> Published(config, details) <= Shown(t))
  {
    hide Base, AllKnown, Shown, SyncSensor, SensorsStrand, Strands, IsPublished, SensorThrows, SensorStrands;
    if details == [] {
      NoSensorsStrand(config, s);
    } else {
      var front, last := details[..|details| - 1], details[|details| - 1];
      SyncingSensors(config, s, front);
      assert last in details;
      var before := SyncSensors(config, s, front);
      SyncingSensor(config, before.home, last);
      MoreSensorIds(front, last);
      assert details == front + [last];
      OneMoreSensorStrands(config, s, details);
      StrandingSensorThrows(config, before.home, last);
    }
  }

  lemma NoSensorsStrand(config: Config, s: Home)
    ensures !SensorsStrand(config, s, [])
  {
  }

  lemma StrandingSensorThrows(config: Config, s: Home, detail: SensorDetail)
    ensures SensorStrands(config, s, detail) ==> SensorThrows(config, s, detail)
  {
  }

  /** By the replies alone: a partition is stranded where it is first seen, neither cached nor read before. */
  lemma {:induction false} NewMeansNeverSeen(s: Home, details: seq<PartitionDetail>, id: DeviceId)
    requires !SyncPartitions(s, details).threw
    ensures IsNew(SyncPartitions(s, details).home, id) <==> IsNew(s, id) && id !in PartitionIds(details)
  {
    if details != [] {
      var front, last := details[..|details| - 1], details[|details| - 1];
      NewMeansNeverSeen(s, front, id);
      MorePartitionIds(front, last);
      assert details == front + [last];
    }
  }

  /** What a loop has shown by some point it shows at its end. */
  lemma {:induction false} ShownStaysShown(config: Config, s: Home, details: seq<PartitionDetail>, i: nat)
    requires Base(config, s) && PartitionsFit(config, details) && i <= |details|
    ensures Shown(SyncPartitions(s, details[..i]).home) <= Shown(SyncPartitions(s, details).home)
  {
    hide Base, Shown, SyncPartition, IsNew, Throws, AllKnown, PartitionsStrand, Strands;
    if i < |details| {
      var front, last := details[..|details| - 1], details[|details| - 1];
      assert front[..i] == details[..i];
      ShownStaysShown(config, s, front, i);
      SyncingPartitions(config, s, front);
      assert last in details;
      SyncingPartition(config, SyncPartitions(s, front).home, last);
    } else {
      assert details[..i] == details;
    }
  }

  // ---- A whole discovery. ----

  lemma PruningByList(config: Config, s: Home, visit: Visit)
    requires Base(config, s)
    ensures var t := PruneByList(config, s, visit);
            && Base(config, t) && (AllKnown(s) ==> AllKnown(t)) && Shown(t) == Shown(s) * Requested(config, visit)
            && t.partitions == s.partitions * Reported(visit) && t.sensors == s.sensors * Reported(visit)
  {
    var reconciled := ReconcileKnownDevices(s, Reported(visit));
    assert Shown(reconciled) == Shown(s);
    Pruning(config, reconciled, Requested(config, visit));
  }

  lemma DetailsFit(config: Config, visit: Visit)
    requires IsPlausible(config, visit)
    ensures visit.partitionsRead.Some? ==>
              && PartitionsFit(config, visit.partitionsRead.value)
              && PartitionIds(visit.partitionsRead.value) <= visit.partitionIds - config.ignored
    ensures visit.sensorsRead.Some? ==>
              && SensorsFit(config, visit.sensorsRead.value)
              && SensorIds(visit.sensorsRead.value) <= visit.sensorIds - config.ignored
  {
  }

  lemma HandlersAreShown(config: Config, s: Home)
    requires Inv(config, s)
    ensures s.partitions + s.sensors <= Shown(s)
  {
    forall id | id in s.partitions + s.sensors ensures id in Shown(s) {
      assert IsCached(s, id) && Of(id) in s.registered;
    }
  }

  lemma HandlersAreOfTheirKind(config: Config, s: Home)
    requires Base(config, s)
    ensures forall id <- s.partitions :: id.PartitionId? && id !in config.ignored
    ensures forall id <- s.sensors :: id.SensorId? && id !in config.ignored
  {
  }

  /** The visit reaches a device whose publishing throws between caching and registering it as new. */
  predicate VisitStrands(config: Config, s: Home, visit: Visit) {
    && visit.partitionsRead.Some?
    && var pruned := PruneByList(config, s, visit);
       var partitions := SyncPartitions(pruned, visit.partitionsRead.value);
       || PartitionsStrand(pruned, visit.partitionsRead.value)
       || (!partitions.threw && visit.sensorsRead.Some? && SensorsStrand(config, partitions.home, visit.sensorsRead.value))
  }

  lemma LiveHandlers(config: Config, s: Home, live: set<DeviceId>)
    requires Base(config, s) && s.partitions + s.sensors <= live
    ensures Base(config, RemoveStaleAccessories(s, live))
    ensures AllKnown(s) ==> AllKnown(RemoveStaleAccessories(s, live))
  {
    Pruning(config, s, live);
  }

  /** However a discovery ends its basics hold, and it leaves every accessory known exactly when it strands none. */
  lemma AllStayKnownExactlyWhen(config: Config, s: Home, visit: Visit)
    requires Base(config, s) && IsPlausible(config, visit)
    ensures Base(config, Discover(config, s, visit))
    ensures AllKnown(s) ==> (AllKnown(Discover(config, s, visit)) <==> !VisitStrands(config, s, visit))
  {
    hide Base, AllKnown, PruneByList, SyncPartitions, SyncSensors, PartitionsStrand, SensorsStrand, RemoveStaleAccessories,
      Shown, PartitionIds, SensorIds, Published, IsPlausible, PartitionsFit, SensorsFit, Unread;
    PruningByList(config, s, visit);
    DetailsFit(config, visit);
    if visit.partitionsRead.Some? {
      var pruned := PruneByList(config, s, visit);
      SyncingPartitions(config, pruned, visit.partitionsRead.value);
      var partitions := SyncPartitions(pruned, visit.partitionsRead.value);
      if !partitions.threw && visit.sensorsRead.Some? {
        SyncingSensors(config, partitions.home, visit.sensorsRead.value);
        var all := SyncSensors(config, partitions.home, visit.sensorsRead.value);
        if !all.threw {
          LiveHandlers(config, all.home, all.home.partitions + all.home.sensors + Unread(config, visit));
        }
      }
    }
  }

  /** A completed discovery, loop by loop. */
  lemma Completing(config: Config, s: Home, visit: Visit)
    requires Base(config, s) && IsPlausible(config, visit) && IsCompleted(config, s, visit)
    ensures var readP, readS := PartitionIds(visit.partitionsRead.value), SensorIds(visit.sensorsRead.value);
            var published := Published(config, visit.sensorsRead.value);
            var pruned, t := PruneByList(config, s, visit), Discover(config, s, visit);
            var live := t.partitions + t.sensors + Unread(config, visit);
            && published <= readS
            && t.partitions == pruned.partitions + readP && t.sensors == published + (pruned.sensors - readS)
            && Shown(t) <= (Shown(pruned) + readP + readS) * live
            && (AllKnown(s) ==> (Shown(pruned) + readP + published) * live <= Shown(t))
  {
    hide Base, AllKnown, PruneByList, SyncPartitions, SyncSensors, PartitionsStrand, SensorsStrand,
      Shown, PartitionIds, SensorIds, Published, IsPlausible, PartitionsFit, SensorsFit, Unread;
    PruningByList(config, s, visit);
    DetailsFit(config, visit);
    var pruned := PruneByList(config, s, visit);
    SyncingPartitions(config, pruned, visit.partitionsRead.value);
    var partitions := SyncPartitions(pruned, visit.partitionsRead.value);
    SyncingSensors(config, partitions.home, visit.sensorsRead.value);
    var all := SyncSensors(config, partitions.home, visit.sensorsRead.value);
    Pruning(config, all.home, all.home.partitions + all.home.sensors + Unread(config, visit));
  }

  /**
   * After a completed discovery HomeKit shows what was read and published, and whatever it showed
   * before that is still listed, not ignored and got no detail: no more and no less.
   */
  lemma CompletedDiscoveryShowsExactly(config: Config, s: Home, visit: Visit)
    requires Inv(config, s) && IsPlausible(config, visit) && IsCompleted(config, s, visit)
    ensures Shown(Discover(config, s, visit))
         == PartitionIds(visit.partitionsRead.value) + Published(config, visit.sensorsRead.value)
          + Shown(s) * Unread(config, visit)
  {
    hide Shown, Base, AllKnown, Discover, PruneByList, Published, PartitionIds, SensorIds, PartitionsFit, SensorsFit,
      SyncPartitions, SyncSensors;
    PruningByList(config, s, visit);
    HandlersAreShown(config, s);
    HandlersAreOfTheirKind(config, s);
    Completing(config, s, visit);
    DetailsFit(config, visit);
  }

  /** After a completed discovery the handlers are those published, and those kept for want of detail. */
  lemma CompletedDiscoveryHandles(config: Config, s: Home, visit: Visit)
    requires Base(config, s) && IsPlausible(config, visit) && IsCompleted(config, s, visit)
    ensures var t := Discover(config, s, visit);
            && t.partitions == PartitionIds(visit.partitionsRead.value) + s.partitions * Unread(config, visit)
            && t.sensors == Published(config, visit.sensorsRead.value) + s.sensors * Unread(config, visit)
  {
    hide Shown, Base, AllKnown, Discover, PruneByList, Published, PartitionIds, SensorIds, PartitionsFit, SensorsFit,
      SyncPartitions, SyncSensors;
    PruningByList(config, s, visit);
    HandlersAreOfTheirKind(config, s);
    Completing(config, s, visit);
    DetailsFit(config, visit);
  }

  /** The last a reply says of a sensor is its `k`th detail. */
  predicate IsLastWord(details: seq<SensorDetail>, k: nat) {
    k < |details| && forall i :: k < i < |details| ==> details[i].id != details[k].id
  }

  lemma {:induction false} PublishedByLastWord(config: Config, details: seq<SensorDetail>, k: nat)
    requires IsLastWord(details, k)
    ensures details[k].id in Published(config, details)
       <==> details[k].isSupported && (details[k].isMonitored != Some(false) || config.includeUnmonitored)
  {
    if k < |details| - 1 {
      assert details[|details| - 1].id != details[k].id;
      PublishedByLastWord(config, details[..|details| - 1], k);
    }
  }

  /**
   * After a completed discovery a sensor is shown, and has a handler, exactly when the last word on
   * it is that its kind is supported and that it is monitored, or nobody says whether it is, or
   * unmonitored sensors are asked for.
   */
  lemma SensorIsShownExactlyWhen(config: Config, s: Home, visit: Visit, k: nat)
    requires Inv(config, s) && IsPlausible(config, visit) && IsCompleted(config, s, visit)
    requires IsLastWord(visit.sensorsRead.value, k)
    ensures var t, detail := Discover(config, s, visit), visit.sensorsRead.value[k];
            && (detail.id in Shown(t) <==>
                  detail.isSupported && (detail.isMonitored != Some(false) || config.includeUnmonitored))
            && (detail.id in t.sensors <==> detail.id in Shown(t))
  {
    var detail := visit.sensorsRead.value[k];
    CompletedDiscoveryShowsExactly(config, s, visit);
    CompletedDiscoveryHandles(config, s, visit);
    PublishedByLastWord(config, visit.sensorsRead.value, k);
    assert detail in visit.sensorsRead.value && detail.id in SensorIds(visit.sensorsRead.value);
    assert detail.id !in PartitionIds(visit.partitionsRead.value) by {
      assert detail.id.SensorId?;
    }
    hide Inv, IsCompleted, Discover, Published, Shown;
  }

  predicate PartitionsThrew(config: Config, s: Home, visit: Visit) {
    visit.partitionsRead.Some? && SyncPartitions(PruneByList(config, s, visit), visit.partitionsRead.value).threw
  }

  /** The ids a visit's reads answered for, as far as the visit came to look at the answers. */
  function ReadIds(config: Config, s: Home, visit: Visit): set<DeviceId> {
    if visit.partitionsRead.None? then {} else
    PartitionIds(visit.partitionsRead.value)
    + (if visit.sensorsRead.Some? && !PartitionsThrew(config, s, visit) then SensorIds(visit.sensorsRead.value) else {})
  }

  /**
   * A discovery cut short, by a read that fails or by an exception from any device it publishes,
   * takes away nothing that is still listed and not ignored and adds only what it read.
   */
  lemma CutShortLosesNothingListed(config: Config, s: Home, visit: Visit)
    requires Base(config, s) && IsPlausible(config, visit) && !IsCompleted(config, s, visit)
    ensures Shown(s) * Requested(config, visit) <= Shown(Discover(config, s, visit))
    ensures Shown(Discover(config, s, visit)) <= Shown(s) * Requested(config, visit) + ReadIds(config, s, visit)
    ensures AllKnown(s) && !PartitionsThrew(config, s, visit) && (visit.partitionsRead.None? || visit.sensorsRead.None?) ==>
              Shown(Discover(config, s, visit)) == Shown(s) * Requested(config, visit) + ReadIds(config, s, visit)
  {
    hide Base, AllKnown, PruneByList, SyncPartitions, SyncSensors, PartitionsStrand, SensorsStrand, RemoveStaleAccessories,
      Shown, PartitionIds, SensorIds, Published, IsPlausible, PartitionsFit, SensorsFit, Unread, Requested;
    PruningByList(config, s, visit);
    DetailsFit(config, visit);
    if visit.partitionsRead.Some? {
      var pruned := PruneByList(config, s, visit);
      SyncingPartitions(config, pruned, visit.partitionsRead.value);
      var partitions := SyncPartitions(pruned, visit.partitionsRead.value);
      if !partitions.threw && visit.sensorsRead.Some? {
        SyncingSensors(config, partitions.home, visit.sensorsRead.value);
      }
    }
  }

  lemma {:induction false} PublishedWereRead(config: Config, details: seq<SensorDetail>)
    ensures Published(config, details) <= SensorIds(details)
  {
    if details != [] {
      var front, last := details[..|details| - 1], details[|details| - 1];
      PublishedWereRead(config, front);
      forall id | id in SensorIds(front) + {last.id} ensures id in SensorIds(details) {
        if id in SensorIds(front) {
          var n :| 0 <= n < |front| && front[n].id == id;
          assert details[n].id == id;
        } else {
          assert details[|details| - 1].id == id;
        }
      }
    }
  }

  /** However a discovery goes, it leaves shown only devices that the account lists and nobody ignores. */
  lemma OnlyListedAndWantedAreShown(config: Config, s: Home, visit: Visit)
    requires Inv(config, s) && IsPlausible(config, visit)
    ensures Shown(Discover(config, s, visit)) <= (visit.partitionIds + visit.sensorIds) - config.ignored
  {
    if IsCompleted(config, s, visit) {
      CompletedDiscoveryShowsExactly(config, s, visit);
      PublishedWereRead(config, visit.sensorsRead.value);
    } else {
      CutShortLosesNothingListed(config, s, visit);
    }
    if visit.partitionsRead.Some? {
      forall id | id in PartitionIds(visit.partitionsRead.value) ensures id in visit.partitionIds - config.ignored {
      }
    }
    if visit.sensorsRead.Some? {
      forall id | id in SensorIds(visit.sensorsRead.value) ensures id in visit.sensorIds - config.ignored {
      }
    }
    hide Inv, IsCompleted, Discover, Published, Shown, PartitionsThrew;
  }

  /** What the partitions' loop published before it was cut short is shown. */
  lemma CutShortKeepsWhatItPublished(config: Config, s: Home, visit: Visit, i: nat)
    requires Inv(config, s) && IsPlausible(config, visit) && !IsCompleted(config, s, visit)
    requires visit.partitionsRead.Some? && i <= |visit.partitionsRead.value|
    requires !SyncPartitions(PruneByList(config, s, visit), visit.partitionsRead.value[..i]).threw
    ensures PartitionIds(visit.partitionsRead.value[..i]) <= Shown(Discover(config, s, visit))
  {
    hide Base, AllKnown, PruneByList, SyncPartitions, SyncSensors, PartitionsStrand, SensorsStrand, RemoveStaleAccessories,
      Shown, PartitionIds, SensorIds, Published, IsPlausible, SensorsFit, Unread, Requested;
    var pruned, details := PruneByList(config, s, visit), visit.partitionsRead.value;
    PruningByList(config, s, visit);
    DetailsFit(config, visit);
    SyncingPartitions(config, pruned, details[..i]);
    ShownStaysShown(config, pruned, details, i);
    SyncingPartitions(config, pruned, details);
    var partitions := SyncPartitions(pruned, details);
    if !partitions.threw && visit.sensorsRead.Some? {
      SyncingSensors(config, partitions.home, visit.sensorsRead.value);
    }
  }

  // ---- Every run of discoveries. ----

  predicate ArePlausible(config: Config, visits: seq<Visit>) {
    forall visit <- visits :: IsPlausible(config, visit)
  }

  /** A home as the plugin finds it at launch: the accessories HomeKit restored, and no handlers. */
  predicate IsRestored(s: Home) {
    s.registered == s.cached.Keys && IsKeyed(s.cached) && s.partitions == {} && s.sensors == {}
  }

  lemma {:induction false} RunKeepsBase(config: Config, s: Home, visits: seq<Visit>)
    requires Base(config, s) && ArePlausible(config, visits)
    ensures Base(config, Run(config, s, visits))
  {
    hide Base, Discover, IsPlausible, AllKnown, VisitStrands;
    if visits != [] {
      assert visits[|visits| - 1] in visits;
      RunKeepsBase(config, s, visits[..|visits| - 1]);
      AllStayKnownExactlyWhen(config, Run(config, s, visits[..|visits| - 1]), visits[|visits| - 1]);
    }
  }

  /** No visit of the run strands an accessory. */
  predicate NothingStrands(config: Config, s: Home, visits: seq<Visit>) {
    visits == [] ||
    var before := visits[..|visits| - 1];
    NothingStrands(config, s, before) && !VisitStrands(config, Run(config, s, before), visits[|visits| - 1])
  }

  /** After every visit of the run each accessory remembered is one HomeKit knows. */
  predicate AlwaysAllKnown(config: Config, s: Home, visits: seq<Visit>) {
    AllKnown(Run(config, s, visits)) && (visits != [] ==> AlwaysAllKnown(config, s, visits[..|visits| - 1]))
  }

  lemma {:induction false} RunsStayKnownExactlyWhen(config: Config, s: Home, visits: seq<Visit>)
    requires IsRestored(s) && ArePlausible(config, visits)
    ensures AlwaysAllKnown(config, s, visits) <==> NothingStrands(config, s, visits)
  {
    hide Base, AllKnown, Discover, IsPlausible, VisitStrands, IsRestored;
    RestoredIsKnown(config, s);
    if visits != [] {
      var before := visits[..|visits| - 1];
      RunsStayKnownExactlyWhen(config, s, before);
      RunKeepsBase(config, s, before);
      assert visits[|visits| - 1] in visits;
      AllStayKnownExactlyWhen(config, Run(config, s, before), visits[|visits| - 1]);
      AlwaysMeansNow(config, s, before);
    }
  }

  lemma RestoredIsKnown(config: Config, s: Home)
    requires IsRestored(s)
    ensures Base(config, s) && AllKnown(s)
  {
  }

  lemma AlwaysMeansNow(config: Config, s: Home, visits: seq<Visit>)
    ensures AlwaysAllKnown(config, s, visits) ==> AllKnown(Run(config, s, visits))
  {
  }

  /** While nothing strands, every handler at every moment has an accessory HomeKit knows. */
  lemma HandlersAreRegistered(config: Config, s: Home, visits: seq<Visit>, id: DeviceId)
    requires IsRestored(s) && ArePlausible(config, visits) && NothingStrands(config, s, visits)
    requires id in Run(config, s, visits).partitions + Run(config, s, visits).sensors
    ensures Of(id) in Run(config, s, visits).registered
  {
    RestoredIsKnown(config, s);
    RunKeepsBase(config, s, visits);
    RunsStayKnownExactlyWhen(config, s, visits);
    AlwaysMeansNow(config, s, visits);
    assert IsCached(Run(config, s, visits), id);
  }

  // ---- What becomes of a stranded accessory. ----

  predicate IsStranded(s: Home, id: DeviceId) {
    IsCached(s, id) && Of(id) !in s.registered
  }

  lemma {:induction false} StrandedThroughPartitions(s: Home, details: seq<PartitionDetail>, id: DeviceId)
    requires IsStranded(s, id)
    ensures IsStranded(SyncPartitions(s, details).home, id)
  {
    if details != [] {
      StrandedThroughPartitions(s, details[..|details| - 1], id);
    }
  }

  lemma {:induction false} StrandedThroughSensors(config: Config, s: Home, details: seq<SensorDetail>, id: DeviceId)
    requires IsStranded(s, id)
    ensures IsStranded(SyncSensors(config, s, details).home, id)
  {
    if details != [] {
      StrandedThroughSensors(config, s, details[..|details| - 1], id);
    }
  }

  /** A partition once stranded is never registered while the account lists it, however well later visits go. */
  lemma StrandedPartitionStaysStranded(config: Config, s: Home, visit: Visit, id: DeviceId)
    requires Base(config, s) && IsPlausible(config, visit) && IsStranded(s, id)
    requires id in visit.partitionIds && id !in config.ignored
    ensures IsStranded(Discover(config, s, visit), id)
  {
    hide SyncPartitions, SyncSensors, Shown, Published, AllKnown, PartitionsFit, SensorsFit, PartitionsStrand, SensorsStrand;
    var pruned := PruneByList(config, s, visit);
    assert IsStranded(pruned, id);
    PruningByList(config, s, visit);
    DetailsFit(config, visit);
    if visit.partitionsRead.Some? {
      StrandedThroughPartitions(pruned, visit.partitionsRead.value, id);
      var partitions := SyncPartitions(pruned, visit.partitionsRead.value);
      if !partitions.threw && visit.sensorsRead.Some? {
        SyncingPartitions(config, pruned, visit.partitionsRead.value);
        StrandedThroughSensors(config, partitions.home, visit.sensorsRead.value, id);
        SyncingSensors(config, partitions.home, visit.sensorsRead.value);
        var all := SyncSensors(config, partitions.home, visit.sensorsRead.value);
        assert id in all.home.partitions + all.home.sensors + Unread(config, visit);
      }
    }
  }

  lemma {:induction false} StrandedForGood(config: Config, s: Home, visits: seq<Visit>, id: DeviceId)
    requires Base(config, s) && ArePlausible(config, visits) && IsStranded(s, id)
    requires id !in config.ignored && forall visit <- visits :: id in visit.partitionIds
    ensures IsStranded(Run(config, s, visits), id)
  {
    hide Base, Discover, IsPlausible, IsStranded;
    if visits != [] {
      assert visits[|visits| - 1] in visits;
      RunKeepsBase(config, s, visits[..|visits| - 1]);
      StrandedForGood(config, s, visits[..|visits| - 1], id);
      StrandedPartitionStaysStranded(config, Run(config, s, visits[..|visits| - 1]), visits[|visits| - 1], id);
    }
  }

  const NOTHING: Home := Home(map[], {}, {}, {})

  /** A new partition whose publishing throws once, and then succeeds. */
  function FailsOnce(id: DeviceId, throwAt: ThrowPoint): seq<Visit> {
    [Visit({id}, {}, Some([PartitionDetail(id, throwAt)]), None), Visit({id}, {}, Some([PartitionDetail(id, Never)]), None)]
  }

  /** Whichever of the two points it throws at, a handler is left that HomeKit never hears of. */
  lemma OneFailureLeavesAHandlerUnknown(config: Config, id: DeviceId, throwAt: ThrowPoint)
    requires id.PartitionId? && id !in config.ignored && throwAt in {Building, Registering}
    ensures ArePlausible(config, FailsOnce(id, throwAt))
    ensures var t := Run(config, NOTHING, FailsOnce(id, throwAt)); t.partitions == {id} && t.registered == {}
  {
    var visits := FailsOnce(id, throwAt);
    var first, second := visits[0], visits[1];
    var s1 := Discover(config, NOTHING, first);
    assert visits[..1] == [first] && [first][..0] == [];
    assert Run(config, NOTHING, [first]) == s1;
    PublishingOne(config, NOTHING, id, throwAt);
    PublishingOne(config, s1, id, Never);
    assert Run(config, NOTHING, visits) == Discover(config, s1, second);
  }

  lemma PublishingOne(config: Config, s: Home, id: DeviceId, throwAt: ThrowPoint)
    requires id.PartitionId? && id !in config.ignored && s.sensors == {}
    requires s == NOTHING || (s.cached == map[Of(id) := Some(id)] && s.registered == {} && s.partitions <= {id})
    ensures Discover(config, s, Visit({id}, {}, Some([PartitionDetail(id, throwAt)]), None))
         == SyncPartition(s, PartitionDetail(id, throwAt))
  {
    var details := [PartitionDetail(id, throwAt)];
    var visit := Visit({id}, {}, Some(details), None);
    assert details[..0] == [];
    assert Reported(visit) == {id} && Requested(config, visit) == {id};
    var pruned := PruneByList(config, s, visit);
    assert pruned.cached == s.cached && pruned.registered == s.registered && pruned.partitions == s.partitions;
    assert pruned == s;
    assert SyncPartitions(s, details).home == SyncPartition(s, details[0]);
  }
}
