/** The discovery half of the platform object, proved to leave the home where `DiscoverySpec` says. */
module Platforms {
  import opened Options
  import opened DiscoverySpec

  class AlarmComPlatform {
    const config: Config

    var cachedAccessories: map<Uuid, Option<DeviceId>>
    var registered: set<Uuid>
    var partitions: set<DeviceId>
    var sensors: set<DeviceId>

    ghost function State(): Home
      reads this
    {
      Home(cachedAccessories, registered, partitions, sensors)
    }

    /** `restored` is what HomeKit hands back at launch, accessory by accessory. */
    constructor (config: Config, restored: map<Uuid, Option<DeviceId>>)
      ensures this.config == config && State() == Home(restored, restored.Keys, {}, {})
    {
      this.config := config;
      cachedAccessories, registered := restored, restored.Keys;
      partitions, sensors := {}, {};
    }

    method ForgetUnreported(reported: set<DeviceId>)
      modifies this`partitions, this`sensors
      ensures State() == ReconcileKnownDevices(old(State()), reported)
    {
      var keys := partitions;
      while keys != {}
        invariant keys <= old(partitions)
        invariant partitions == old(partitions) * (reported + keys) && sensors == old(sensors)
        decreases |keys|
      {
        var id :| id in keys;
        if id !in reported {
          partitions := partitions - {id};
        }
        keys := keys - {id};
      }
      keys := sensors;
      while keys != {}
        invariant keys <= old(sensors)
        invariant sensors == old(sensors) * (reported + keys) && partitions == old(partitions) * reported
        decreases |keys|
      {
        var id :| id in keys;
        if id !in reported {
          sensors := sensors - {id};
        }
        keys := keys - {id};
      }
    }

    method RemoveStale(live: set<DeviceId>)
      modifies this`cachedAccessories, this`registered
      ensures State() == RemoveStaleAccessories(old(State()), live)
    {
      ghost var was := cachedAccessories;
      var uuids := cachedAccessories.Keys;
      while uuids != {}
        invariant uuids <= was.Keys
        invariant cachedAccessories == map u | u in was && (u in uuids || IsLive(was[u], live)) :: was[u]
        invariant registered == old(registered) - (set u | u in was && u !in uuids && !IsLive(was[u], live))
        decreases |uuids|
      {
        var uuid :| uuid in uuids;
        var deviceId := cachedAccessories[uuid];
        if !(deviceId.Some? && deviceId.value in live) {
          registered := registered - {uuid};
          cachedAccessories := cachedAccessories - {uuid};
        }
        uuids := uuids - {uuid};
      }
    }

    method ResolveAccessory(id: DeviceId) returns (isNew: bool)
      modifies this`cachedAccessories
      ensures State() == Resolve(old(State()), id)
      ensures isNew <==> Of(id) !in old(cachedAccessories)
    {
      isNew := Of(id) !in cachedAccessories;
      cachedAccessories := cachedAccessories[Of(id) := Some(id)];
    }

    method PublishPartition(detail: PartitionDetail) returns (threw: bool)
      modifies this`cachedAccessories, this`registered, this`partitions
      ensures State() == SyncPartition(old(State()), detail)
      ensures threw <==> Throws(old(State()), detail.id, detail.throwAt)
    {
      if detail.throwAt == AtOnce {
        return true;
      }
      var isNew := ResolveAccessory(detail.id);
      if detail.throwAt == Building {
        return true;
      }
      partitions := partitions + {detail.id};
      if isNew {
        if detail.throwAt == Registering {
          return true;
        }
        registered := registered + {Of(detail.id)};
      }
      return detail.throwAt == Updating;
    }

    method PublishSensor(detail: SensorDetail) returns (threw: bool)
      modifies this`cachedAccessories, this`registered, this`sensors
      ensures State() == SyncSensor(config, old(State()), detail)
      ensures threw <==> SensorThrows(config, old(State()), detail)
    {
      if detail.throwAt == AtOnce {
        return true;
      }
      if !detail.isSupported {
        sensors := sensors - {detail.id};
        return false;
      }
      if detail.isMonitored == Some(false) && !config.includeUnmonitored {
        sensors := sensors - {detail.id};
        return false;
      }
      var isNew := ResolveAccessory(detail.id);
      if detail.throwAt == Building {
        return true;
      }
      sensors := sensors + {detail.id};
      if isNew {
        if detail.throwAt == Registering {
          return true;
        }
        registered := registered + {Of(detail.id)};
      }
      return detail.throwAt == Updating;
    }

    /** The loop over the partitions' details. `threw` is an exception that ends the discovery. */
    method PublishPartitions(details: seq<PartitionDetail>) returns (threw: bool)
      modifies this`cachedAccessories, this`registered, this`partitions
      ensures Synced(State(), threw) == SyncPartitions(old(State()), details)
    {
      hide SyncPartition, Throws;
      var i := 0;
      while i < |details|
        invariant 0 <= i <= |details|
        invariant SyncPartitions(old(State()), details[..i]) == Synced(State(), false)
      {
        assert details[..i + 1][..i] == details[..i];
        var hasThrown := PublishPartition(details[i]);
        i := i + 1;
        if hasThrown {
          NothingAfterAThrow(old(State()), details, i);
          return true;
        }
      }
      assert details[..i] == details;
      return false;
    }

    static lemma {:induction false} NothingAfterAThrow(s: Home, details: seq<PartitionDetail>, i: nat)
      requires i <= |details| && SyncPartitions(s, details[..i]).threw
      ensures SyncPartitions(s, details) == SyncPartitions(s, details[..i])
    {
      if i < |details| {
        assert details[..|details| - 1][..i] == details[..i];
        NothingAfterAThrow(s, details[..|details| - 1], i);
      } else {
        assert details[..i] == details;
      }
    }

    static lemma {:induction false} NoSensorAfterAThrow(config: Config, s: Home, details: seq<SensorDetail>, i: nat)
      requires i <= |details| && SyncSensors(config, s, details[..i]).threw
      ensures SyncSensors(config, s, details) == SyncSensors(config, s, details[..i])
    {
      if i < |details| {
        assert details[..|details| - 1][..i] == details[..i];
        NoSensorAfterAThrow(config, s, details[..|details| - 1], i);
      } else {
        assert details[..i] == details;
      }
    }

    /** The loop over the sensors' details. */
    method PublishSensors(details: seq<SensorDetail>) returns (threw: bool)
      modifies this`cachedAccessories, this`registered, this`sensors
      ensures Synced(State(), threw) == SyncSensors(config, old(State()), details)
    {
      hide SyncSensor, SensorThrows;
      var i := 0;
      while i < |details|
        invariant 0 <= i <= |details|
        invariant SyncSensors(config, old(State()), details[..i]) == Synced(State(), false)
      {
        assert details[..i + 1][..i] == details[..i];
        var hasThrown := PublishSensor(details[i]);
        i := i + 1;
        if hasThrown {
          NoSensorAfterAThrow(config, old(State()), details, i);
          return true;
        }
      }
      assert details[..i] == details;
      return false;
    }

    method Publish(visit: Visit)
      modifies this
      ensures State() == PublishDevices(config, old(State()), visit)
    {
      hide SyncPartitions, SyncSensors, RemoveStaleAccessories;
      if visit.partitionsRead.None? {
        return;
      }
      var hasThrown := PublishPartitions(visit.partitionsRead.value);
      if hasThrown || visit.sensorsRead.None? {
        return;
      }
      hasThrown := PublishSensors(visit.sensorsRead.value);
      if hasThrown {
        return;
      }
      RemoveStale(partitions + sensors + Unread(config, visit));
    }

    /** `#discover` once the account's list is in hand. */
    method DiscoverDevices(visit: Visit)
      modifies this
      ensures State() == Discover(config, old(State()), visit)
    {
      hide PublishDevices, RemoveStaleAccessories, ReconcileKnownDevices;
      ForgetUnreported(visit.partitionIds + visit.sensorIds);
      RemoveStale(visit.partitionIds + visit.sensorIds - config.ignored);
      Publish(visit);
    }
  }

  /** A platform restored at launch and taken through any discoveries ends where the machine's run of them does. */
  method Replay(config: Config, restored: map<Uuid, Option<DeviceId>>, visits: seq<Visit>) returns (platform: AlarmComPlatform)
    ensures fresh(platform) && platform.State() == Run(config, Home(restored, restored.Keys, {}, {}), visits)
  {
    hide Discover;
    platform := new AlarmComPlatform(config, restored);
    for n := 0 to |visits|
      invariant fresh(platform) && platform.config == config
      invariant platform.State() == Run(config, Home(restored, restored.Keys, {}, {}), visits[..n])
    {
      assert visits[..n + 1][..n] == visits[..n];
      platform.DiscoverDevices(visits[n]);
    }
    assert visits[..|visits|] == visits;
  }
}
