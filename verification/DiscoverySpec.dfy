/**
 * Discovery: which HomeKit accessories a run of it leaves behind, whatever of it the network lets
 * through. Accessory identifiers are derived from device ids and are as distinct as those are.
 */
module DiscoverySpec {
  import opened Options

  datatype DeviceId = PartitionId(name: string) | SensorId(name: string)

  /** The identifier of a device's accessory, or one restored from disk that no device has. */
  datatype Uuid = Of(id: DeviceId) | Other(n: nat)

  /** `cached` maps each accessory to the device id in its context, if it has one. */
  datatype Home = Home(
    cached: map<Uuid, Option<DeviceId>>,
    registered: set<Uuid>,
    partitions: set<DeviceId>,
    sensors: set<DeviceId>)

  datatype Config = Config(ignored: set<DeviceId>, includeUnmonitored: bool)

  /**
   * Where publishing one device throws, if it does: on its attributes, before anything is cached;
   * between caching the accessory and storing the handler; while registering the accessory, which
   * only a new one is; or in the handler's first update.
   */
  datatype ThrowPoint = Never | AtOnce | Building | Registering | Updating

  datatype PartitionDetail = PartitionDetail(id: DeviceId, throwAt: ThrowPoint)

  datatype SensorDetail = SensorDetail(id: DeviceId, isSupported: bool, isMonitored: Option<bool>, throwAt: ThrowPoint)

  /** What the account lists, and what its two detail reads answer. `None` is a read that failed. */
  datatype Visit = Visit(
    partitionIds: set<DeviceId>,
    sensorIds: set<DeviceId>,
    partitionsRead: Option<seq<PartitionDetail>>,
    sensorsRead: Option<seq<SensorDetail>>)

  // ---- The steps of a discovery. ----

  function Reported(visit: Visit): set<DeviceId> {
    visit.partitionIds + visit.sensorIds
  }

  function Requested(config: Config, visit: Visit): set<DeviceId> {
    Reported(visit) - config.ignored
  }

  function ReconcileKnownDevices(s: Home, reported: set<DeviceId>): Home {
    s.(partitions := s.partitions * reported, sensors := s.sensors * reported)
  }

  predicate IsLive(context: Option<DeviceId>, live: set<DeviceId>) {
    context.Some? && context.value in live
  }

  function RemoveStaleAccessories(s: Home, live: set<DeviceId>): Home {
    s.(cached := map u | u in s.cached && IsLive(s.cached[u], live) :: s.cached[u],
       registered := s.registered - (set u | u in s.cached && !IsLive(s.cached[u], live)))
  }

  predicate IsNew(s: Home, id: DeviceId) {
    Of(id) !in s.cached
  }

  /** `#resolveAccessory` finds or makes the accessory and writes its context. */
  function Resolve(s: Home, id: DeviceId): Home {
    s.(cached := s.cached[Of(id) := Some(id)])
  }

  function Register(s: Home, id: DeviceId, isNew: bool): Home {
    if isNew then s.(registered := s.registered + {Of(id)}) else s
  }

  /** Whether publishing a device ends in an exception. A known accessory is never registered again. */
  predicate Throws(s: Home, id: DeviceId, throwAt: ThrowPoint) {
    throwAt in {AtOnce, Building, Updating} || (throwAt == Registering && IsNew(s, id))
  }

  function SyncPartition(s: Home, detail: PartitionDetail): Home {
    if detail.throwAt == AtOnce then s else
    var resolved := Resolve(s, detail.id);
    if detail.throwAt == Building then resolved else
    var handled := resolved.(partitions := s.partitions + {detail.id});
    if detail.throwAt == Registering && IsNew(s, detail.id) then handled
    else Register(handled, detail.id, IsNew(s, detail.id))
  }

  predicate IsPublished(config: Config, detail: SensorDetail) {
    detail.isSupported && !(detail.isMonitored == Some(false) && !config.includeUnmonitored)
  }

  function SyncSensor(config: Config, s: Home, detail: SensorDetail): Home {
    if detail.throwAt == AtOnce then s
    else if !IsPublished(config, detail) then s.(sensors := s.sensors - {detail.id})
    else
      var resolved := Resolve(s, detail.id);
      if detail.throwAt == Building then resolved else
      var handled := resolved.(sensors := s.sensors + {detail.id});
      if detail.throwAt == Registering && IsNew(s, detail.id) then handled
      else Register(handled, detail.id, IsNew(s, detail.id))
  }

  predicate SensorThrows(config: Config, s: Home, detail: SensorDetail) {
    detail.throwAt == AtOnce || (IsPublished(config, detail) && Throws(s, detail.id, detail.throwAt))
  }

  /** Where a loop over details leaves the home, and whether an exception ended it. */
  datatype Synced = Synced(home: Home, threw: bool)

  function SyncPartitions(s: Home, details: seq<PartitionDetail>): Synced {
    if details == [] then Synced(s, false) else
    var before, last := SyncPartitions(s, details[..|details| - 1]), details[|details| - 1];
    if before.threw then before
    else Synced(SyncPartition(before.home, last), Throws(before.home, last.id, last.throwAt))
  }

  function SyncSensors(config: Config, s: Home, details: seq<SensorDetail>): Synced {
    if details == [] then Synced(s, false) else
    var before, last := SyncSensors(config, s, details[..|details| - 1]), details[|details| - 1];
    if before.threw then before
    else Synced(SyncSensor(config, before.home, last), SensorThrows(config, before.home, last))
  }

  function PartitionIds(details: seq<PartitionDetail>): set<DeviceId> {
    set i | 0 <= i < |details| :: details[i].id
  }

  function SensorIds(details: seq<SensorDetail>): set<DeviceId> {
    set i | 0 <= i < |details| :: details[i].id
  }

  /** A visit whose replies stay within what was asked, the kinds of device kept apart. */
  predicate IsPlausible(config: Config, visit: Visit) {
    && (forall id <- visit.partitionIds :: id.PartitionId?)
    && (forall id <- visit.sensorIds :: id.SensorId?)
    && (visit.partitionsRead.Some? ==>
          forall d <- visit.partitionsRead.value :: d.id in visit.partitionIds - config.ignored)
    && (visit.sensorsRead.Some? ==>
          forall d <- visit.sensorsRead.value :: d.id in visit.sensorIds - config.ignored)
  }

  /** The prune by the list alone, before any detail is read. */
  function PruneByList(config: Config, s: Home, visit: Visit): Home {
    RemoveStaleAccessories(ReconcileKnownDevices(s, Reported(visit)), Requested(config, visit))
  }

  /** Both reads answered, and neither loop over their details ended in an exception. */
  predicate IsCompleted(config: Config, s: Home, visit: Visit) {
    && visit.partitionsRead.Some? && visit.sensorsRead.Some?
    && var partitions := SyncPartitions(PruneByList(config, s, visit), visit.partitionsRead.value);
       !partitions.threw && !SyncSensors(config, partitions.home, visit.sensorsRead.value).threw
  }

  function Unread(config: Config, visit: Visit): set<DeviceId>
    requires visit.partitionsRead.Some? && visit.sensorsRead.Some?
  {
    Requested(config, visit) - PartitionIds(visit.partitionsRead.value) - SensorIds(visit.sensorsRead.value)
  }

  function PublishDevices(config: Config, s: Home, visit: Visit): Home {
    if visit.partitionsRead.None? then s else
    var partitions := SyncPartitions(s, visit.partitionsRead.value);
    if partitions.threw || visit.sensorsRead.None? then partitions.home else
    var all := SyncSensors(config, partitions.home, visit.sensorsRead.value);
    if all.threw then all.home
    else RemoveStaleAccessories(all.home, all.home.partitions + all.home.sensors + Unread(config, visit))
  }

  function Discover(config: Config, s: Home, visit: Visit): Home {
    PublishDevices(config, PruneByList(config, s, visit), visit)
  }

  function Run(config: Config, s: Home, visits: seq<Visit>): Home {
    if visits == [] then s else Discover(config, Run(config, s, visits[..|visits| - 1]), visits[|visits| - 1])
  }
}
