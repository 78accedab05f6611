/** WarmCache, ReloadRoom and ReloadDevice: from the tables to the store, with
    every query returning its rows in an arbitrary order. */
module Loading {
  import opened Base
  import opened Tables
  import opened Cache
  import opened Appdb

  predicate CanLoad(db: Db, r: Id, zones: set<string>) {
    RowsOf(db, r).Some? ==>
      && RowsOf(db, r).value.timezone in zones
      && forall p :: p in ActivePeriods(db, r) ==> Parses(PeriodScan(p, 0, ActivePeriods(db, r)[p]))
  }

  function DeviceIds(devices: seq<DeviceScan>): set<Id> { set x | x in devices :: x.id }

  /** Grouping the rows of all rooms by room leaves, under each room, an
      ordering of that room's own rows. */
  lemma PeriodsOfRoom(db: Db, ids: set<Id>, r: Id, scans: seq<PeriodScan>)
    requires r in ids && Enumerates(scans, PeriodScans(db, ids))
    ensures Enumerates(Filter(scans, Keyed(PeriodRoom, r)), PeriodScans(db, {r}))
  {
    var p := Keyed(PeriodRoom, r);
    FilterEnumerates(scans, PeriodScans(db, ids), p);
    assert forall x: PeriodScan :: p(x) <==> PeriodRoom(x) == r;
    assert (set x | x in PeriodScans(db, ids) && p(x)) == PeriodScans(db, {r});
  }

  lemma DevicesOfRoom(db: Db, ids: set<Id>, r: Id, scans: seq<DeviceScan>)
    requires r in ids && Enumerates(scans, DeviceScans(db, ids))
    ensures Enumerates(Filter(scans, Keyed(DeviceRoom, r)), DeviceScans(db, {r}))
  {
    var p := Keyed(DeviceRoom, r);
    FilterEnumerates(scans, DeviceScans(db, ids), p);
    assert forall x: DeviceScan :: p(x) <==> DeviceRoom(x) == r;
    assert (set x | x in DeviceScans(db, ids) && p(x)) == DeviceScans(db, {r});
  }

  lemma ActuatorsOfDevice(db: Db, devices: set<Id>, d: Id, scans: seq<ActuatorScan>)
    requires d in devices && Enumerates(scans, ActuatorScans(db, devices))
    ensures Enumerates(Filter(scans, Keyed(DeviceOf, d)), ActuatorScans(db, {d}))
  {
    var p := Keyed(DeviceOf, d);
    FilterEnumerates(scans, ActuatorScans(db, devices), p);
    assert forall x: ActuatorScan :: p(x) <==> DeviceOf(x) == d;
    assert (set x | x in ActuatorScans(db, devices) && p(x)) == ActuatorScans(db, {d});
  }

  function PeriodRoom(x: PeriodScan): Id { x.room }
  function DeviceRoom(x: DeviceScan): Id { x.room }
  function DeviceOf(x: ActuatorScan): Id { x.device }

  /** Every listed device has, in the grouped actuator rows, its own. */
  lemma ActuatorsGrouped(db: Db, ids: set<Id>, devices: seq<DeviceScan>, acts: seq<ActuatorScan>, held: map<Id, seq<ActuatorScan>>)
    requires Enumerates(acts, ActuatorScans(db, ids))
    requires forall i :: 0 <= i < |devices| ==> devices[i].id in ids
    requires forall d :: Group(held, d) == Filter(acts, Keyed(DeviceOf, d))
    ensures forall i :: 0 <= i < |devices| ==> Enumerates(Group(held, devices[i].id), ActuatorScans(db, {devices[i].id}))
  {
    forall i | 0 <= i < |devices| ensures Enumerates(Group(held, devices[i].id), ActuatorScans(db, {devices[i].id})) {
      ActuatorsOfDevice(db, ids, devices[i].id, acts);
    }
  }

  method GroupDesired(db: Db, ids: set<Id>, rows: seq<DesiredScan>) returns (m: map<Id, DesiredRow>)
    requires Enumerates(rows, DesiredScans(db, ids))
    ensures forall q :: q in m <==> q in db.desired && q in ids
    ensures forall q :: q in m ==> m[q] == db.desired[q]
  {
    m := map[];
    for i := 0 to |rows|
      invariant forall q :: q in m <==> exists k :: 0 <= k < i && rows[k].room == q
      invariant forall q :: q in m ==> q in db.desired && q in ids && m[q] == db.desired[q]
    {
      assert rows[i] in DesiredScans(db, ids);
      m := m[rows[i].room := rows[i].row];
    }
    forall q | q in db.desired && q in ids ensures q in m {
      assert DesiredScan(q, db.desired[q]) in DesiredScans(db, ids);
    }
  }

  /** ReloadRoom without the store: fetch the room's rows and build. */
  method FetchRoom(db: Db, zones: set<string>, r: Id) returns (c: Option<RoomConfig>)
    requires UniqueBy(db.devices, HwKey) && RowsOf(db, r).Some?
    ensures c.Some? <==> CanLoad(db, r, zones)
    ensures c.Some? ==> Describes(c.value, r, RowsOf(db, r).value)
  {
    var rm := RoomScan(r, db.rooms[r].deadbandTemp, db.rooms[r].deadbandHum, db.users[db.rooms[r].user].timezone);
    var ds := DesiredOf(db, r);
    var periods := AnyOrder(PeriodScans(db, {r}));
    var devices := AnyOrder(DeviceScans(db, {r}));
    var ids := DeviceIds(devices);
    var acts := AnyOrder(ActuatorScans(db, ids));
    var held := GroupBy(acts, DeviceOf);
    ParsesIffLoads(db, r, periods);
    c := BuildRoomCache(rm, ds, periods, devices, held, zones);
    if c.Some? {
      ActuatorsGrouped(db, ids, devices, acts, held);
      EntryDescribes(db, r, c.value, periods, devices, held);
    }
  }

  /** ReloadRoom: rebuild one entry, keeping the runtime fields of the one it
      replaces. On failure the store is left alone. */
  method ReloadRoom(db: Db, zones: set<string>, store: Store, r: Id) returns (ok: bool)
    requires UniqueBy(db.devices, HwKey)
    modifies store`rooms
    ensures ok <==> CanLoad(db, r, zones)
    ensures !ok ==> store.rooms == old(store.rooms)
    ensures ok && RowsOf(db, r).None? ==> store.rooms == old(store.rooms) - {r}
    ensures ok && RowsOf(db, r).Some? ==>
      && r in store.rooms && fresh(store.rooms[r]) && store.rooms == old(store.rooms)[r := store.rooms[r]]
      && Describes(store.rooms[r].config, r, RowsOf(db, r).value)
      && (r in old(store.rooms) ==>
            && store.rooms[r].states == old(store.rooms[r].states)
            && store.rooms[r].readings == old(store.rooms[r].readings)
            && store.rooms[r].lastPeriod == old(store.rooms[r].lastPeriod))
      && (r !in old(store.rooms) ==>
            && fresh(store.rooms[r].states) && store.rooms[r].states.m == map[]
            && fresh(store.rooms[r].readings) && store.rooms[r].readings.m == map[]
            && store.rooms[r].lastPeriod == None)
  {
    if RowsOf(db, r).None? {
      store.DeleteRoom(r);
      return true;
    }
    var c := FetchRoom(db, zones, r);
    if c.None? { return false; }
    var rc := new RoomCache(c.value);
    if r in store.rooms {
      var existing := store.rooms[r];
      rc.states := existing.states;
      rc.readings := existing.readings;
      rc.lastPeriod := existing.lastPeriod;
    }
    store.AddRoom(r, rc);
    return true;
  }

  /** A device entry says what the device's row says. */
  ghost predicate DescribesDevice(dc: DeviceCache, db: Db, d: Id)
    reads dc
  {
    d in db.devices && dc.deviceId == d && dc.hwId == db.devices[d].hwId && dc.room == db.devices[d].room
    && dc.sensors == db.devices[d].sensors && dc.actuators == db.devices[d].actuators
  }

  /** buildDeviceCache: rows keyed by type, whatever their order. */
  method BuildDeviceCache(db: Db, d: Id) returns (dc: DeviceCache)
    requires d in db.devices
    ensures fresh(dc) && DescribesDevice(dc, db, d)
  {
    var sensorRows := AnyOrder(db.devices[d].sensors);
    var sensors: set<Measure> := {};
    for i := 0 to |sensorRows|
      invariant sensors == set k | 0 <= k < i :: sensorRows[k]
    {
      sensors := sensors + {sensorRows[i]};
    }
    var actuatorRows := AnyOrder(db.devices[d].actuators);
    var actuators: set<ActuatorType> := {};
    for i := 0 to |actuatorRows|
      invariant actuators == set k | 0 <= k < i :: actuatorRows[k]
    {
      actuators := actuators + {actuatorRows[i]};
    }
    assert sensors == db.devices[d].sensors;
    assert actuators == db.devices[d].actuators;
    dc := new DeviceCache(d, db.devices[d].hwId, db.devices[d].room, sensors, actuators);
  }

  method ReloadDevice(db: Db, store: Store, hw: HwId)
    requires UniqueBy(db.devices, HwKey)
    modifies store`devices
    ensures (exists d :: d in db.devices && db.devices[d].hwId == hw) ==>
      hw in store.devices && fresh(store.devices[hw]) && store.devices == old(store.devices)[hw := store.devices[hw]]
    ensures forall d :: d in db.devices && db.devices[d].hwId == hw ==>
      hw in store.devices && DescribesDevice(store.devices[hw], db, d)
    ensures (forall d :: d in db.devices ==> db.devices[d].hwId != hw) ==> store.devices == old(store.devices) - {hw}
  {
    if d :| d in db.devices && db.devices[d].hwId == hw {
      forall e | e in db.devices && db.devices[e].hwId == hw ensures e == d {
        assert HwKey(db.devices[e]) == HwKey(db.devices[d]);
      }
      var dc := BuildDeviceCache(db, d);
      store.AddDevice(hw, dc);
    } else {
      store.DeleteDevice(hw);
    }
  }

  /** WarmCache: every room in one pass over bulk queries. It succeeds exactly
      when every single reload would, and then each entry describes the same
      rows a reload of that room would fetch. */
  method WarmCache(db: Db, zones: set<string>, store: Store) returns (ok: bool)
    requires UniqueBy(db.devices, HwKey) && RoomRefs(db.rooms, db.users)
    requires store.rooms == map[] && store.devices == map[]
    modifies store
    ensures ok <==> forall r :: r in db.rooms ==> CanLoad(db, r, zones)
    ensures ok ==> store.rooms.Keys == db.rooms.Keys
    ensures ok ==> AllWarm(db, store.rooms)
    ensures ok ==> DevicesLoaded(db, store.devices)
  {
    if db.rooms.Keys == {} { return true; }
    var rooms := AnyOrder(RoomScans(db, db.rooms.Keys));
    RoomsListed(db, rooms);
    ok := WarmAll(db, zones, rooms, store);
  }

  method WarmAll(db: Db, zones: set<string>, rooms: seq<RoomScan>, store: Store) returns (ok: bool)
    requires UniqueBy(db.devices, HwKey)
    requires store.rooms == map[] && store.devices == map[]
    requires forall k :: 0 <= k < |rooms| ==> rooms[k] in RoomScans(db, db.rooms.Keys)
    modifies store
    ensures ok <==> forall k :: 0 <= k < |rooms| ==> CanLoad(db, rooms[k].id, zones)
    ensures ok ==> forall k :: 0 <= k < |rooms| ==> rooms[k].id in store.rooms
    ensures ok ==> AllWarm(db, store.rooms)
    ensures ok ==> DevicesLoaded(db, store.devices)
  {
    var bulk := FetchBulk(db, db.rooms.Keys);
    ok := WarmRooms(db, zones, db.rooms.Keys, rooms, bulk, store);
    if ok { WarmDevices(db, store, db.rooms.Keys, bulk.devices); }
  }

  /** The bulk queries, grouped by room and by device. */
  datatype Bulk = Bulk(
    desired: map<Id, DesiredRow>, devices: seq<DeviceScan>,
    periodsOf: map<Id, seq<PeriodScan>>, devicesOf: map<Id, seq<DeviceScan>>, held: map<Id, seq<ActuatorScan>>)

  /** Under every owned room and every device, the groups hold that room's and
      that device's own rows. */
  ghost predicate Grouped(db: Db, owned: set<Id>, b: Bulk) {
    && (forall q :: q in b.desired <==> q in db.desired && q in owned)
    && (forall q :: q in b.desired ==> b.desired[q] == db.desired[q])
    && Enumerates(b.devices, DeviceScans(db, owned))
    && (forall r :: r in owned ==> Enumerates(Group(b.periodsOf, r), PeriodScans(db, {r})))
    && (forall r :: r in owned ==> Enumerates(Group(b.devicesOf, r), DeviceScans(db, {r})))
    && (forall r, i :: r in owned && 0 <= i < |Group(b.devicesOf, r)| ==>
          Enumerates(Group(b.held, Group(b.devicesOf, r)[i].id), ActuatorScans(db, {Group(b.devicesOf, r)[i].id})))
  }

  method FetchBulk(db: Db, owned: set<Id>) returns (b: Bulk)
    ensures Grouped(db, owned, b)
  {
    var desiredRows := AnyOrder(DesiredScans(db, owned));
    var periods := AnyOrder(PeriodScans(db, owned));
    var devices := AnyOrder(DeviceScans(db, owned));
    var ids := DeviceIds(devices);
    var acts := AnyOrder(ActuatorScans(db, ids));
    var desired := GroupDesired(db, owned, desiredRows);
    var periodsOf := GroupBy(periods, PeriodRoom);
    var devicesOf := GroupBy(devices, DeviceRoom);
    var held := GroupBy(acts, DeviceOf);
    forall r | r in owned ensures Enumerates(Group(periodsOf, r), PeriodScans(db, {r})) {
      PeriodsOfRoom(db, owned, r, periods);
    }
    forall r | r in owned
      ensures Enumerates(Group(devicesOf, r), DeviceScans(db, {r}))
      ensures forall i :: 0 <= i < |Group(devicesOf, r)| ==>
        Enumerates(Group(held, Group(devicesOf, r)[i].id), ActuatorScans(db, {Group(devicesOf, r)[i].id}))
    {
      DevicesOfRoom(db, owned, r, devices);
      var here := Group(devicesOf, r);
      FilterMembers(devices, Keyed(DeviceRoom, r));
      forall i | 0 <= i < |here| ensures here[i].id in ids { assert here[i] in devices; }
      ActuatorsGrouped(db, ids, here, acts, held);
    }
    b := Bulk(desired, devices, periodsOf, devicesOf, held);
  }

  /** One room of the bulk load. */
  method WarmRoom(db: Db, zones: set<string>, owned: set<Id>, rm: RoomScan, b: Bulk) returns (c: Option<RoomConfig>)
    requires UniqueBy(db.devices, HwKey) && rm in RoomScans(db, owned) && Grouped(db, owned, b)
    ensures RowsOf(db, rm.id).Some? && rm.id in db.rooms
    ensures c.Some? <==> CanLoad(db, rm.id, zones)
    ensures c.Some? ==> Describes(c.value, rm.id, RowsOf(db, rm.id).value)
  {
    var r := rm.id;
    var mine, here := Group(b.periodsOf, r), Group(b.devicesOf, r);
    ParsesIffLoads(db, r, mine);
    var ds := if r in b.desired then b.desired[r] else ABSENT_DESIRED;
    c := BuildRoomCache(rm, ds, mine, here, b.held, zones);
    if c.Some? { EntryDescribes(db, r, c.value, mine, here, b.held); }
  }

  lemma RoomsListed(db: Db, rooms: seq<RoomScan>)
    requires RoomRefs(db.rooms, db.users) && Enumerates(rooms, RoomScans(db, db.rooms.Keys))
    ensures forall r :: r in db.rooms ==> exists k :: 0 <= k < |rooms| && rooms[k].id == r
    ensures forall k :: 0 <= k < |rooms| ==> rooms[k].id in db.rooms
  {
    forall r | r in db.rooms ensures exists k :: 0 <= k < |rooms| && rooms[k].id == r {
      var scan := RoomScan(r, db.rooms[r].deadbandTemp, db.rooms[r].deadbandHum, db.users[db.rooms[r].user].timezone);
      assert scan in RoomScans(db, db.rooms.Keys);
    }
  }

  method WarmRooms(db: Db, zones: set<string>, owned: set<Id>, rooms: seq<RoomScan>, b: Bulk, store: Store) returns (ok: bool)
    requires UniqueBy(db.devices, HwKey) && Grouped(db, owned, b) && store.rooms == map[]
    requires forall k :: 0 <= k < |rooms| ==> rooms[k] in RoomScans(db, owned)
    modifies store`rooms
    ensures ok <==> forall k :: 0 <= k < |rooms| ==> CanLoad(db, rooms[k].id, zones)
    ensures ok ==> forall k :: 0 <= k < |rooms| ==> rooms[k].id in store.rooms
    ensures ok ==> AllWarm(db, store.rooms)
  {
    for i := 0 to |rooms|
      invariant Loaded(db, zones, rooms[..i], store.rooms.Keys)
      invariant AllWarm(db, store.rooms)
    {
      ghost var before := store.rooms.Keys;
      var added := WarmOne(db, zones, owned, rooms[i], b, store);
      if !added { return false; }
      LoadedStep(db, zones, rooms, i, before, store.rooms.Keys);
    }
    assert rooms[..|rooms|] == rooms;
    return true;
  }

  predicate Loaded(db: Db, zones: set<string>, rooms: seq<RoomScan>, cached: set<Id>) {
    forall k :: 0 <= k < |rooms| ==> CanLoad(db, rooms[k].id, zones) && rooms[k].id in cached
  }

  lemma LoadedStep(db: Db, zones: set<string>, rooms: seq<RoomScan>, i: nat, before: set<Id>, cached: set<Id>)
    requires i < |rooms| && Loaded(db, zones, rooms[..i], before) && before <= cached
    requires CanLoad(db, rooms[i].id, zones) && rooms[i].id in cached
    ensures Loaded(db, zones, rooms[..i + 1], cached)
  {
    forall k | 0 <= k < i ensures CanLoad(db, rooms[k].id, zones) && rooms[k].id in cached {
      assert rooms[..i][k] == rooms[k];
    }
  }

  method WarmOne(db: Db, zones: set<string>, owned: set<Id>, rm: RoomScan, b: Bulk, store: Store) returns (ok: bool)
    requires UniqueBy(db.devices, HwKey) && rm in RoomScans(db, owned) && Grouped(db, owned, b) && AllWarm(db, store.rooms)
    modifies store`rooms
    ensures rm.id in db.rooms && (ok <==> CanLoad(db, rm.id, zones))
    ensures !ok ==> store.rooms == old(store.rooms)
    ensures ok ==> rm.id in store.rooms && store.rooms == old(store.rooms)[rm.id := store.rooms[rm.id]]
    ensures ok ==> AllWarm(db, store.rooms)
  {
    var c := WarmRoom(db, zones, owned, rm, b);
    if c.None? { return false; }
    AddWarm(db, rm.id, c.value, store);
    return true;
  }

  method AddWarm(db: Db, r: Id, c: RoomConfig, store: Store)
    requires r in db.rooms && RowsOf(db, r).Some? && Describes(c, r, RowsOf(db, r).value) && AllWarm(db, store.rooms)
    modifies store`rooms
    ensures r in store.rooms && store.rooms == old(store.rooms)[r := store.rooms[r]] && AllWarm(db, store.rooms)
  {
    var rc := new RoomCache(c);
    assert Warm(db, r, rc) && AllWarm(db, store.rooms);
    store.AddRoom(r, rc);
  }

  /** An entry as WarmCache leaves it: it describes the room's rows and has
      seen no reading, no command and no period. */
  ghost predicate Warm(db: Db, r: Id, rc: RoomCache)
    reads rc, rc.states, rc.readings
  {
    && RowsOf(db, r).Some? && Describes(rc.config, r, RowsOf(db, r).value)
    && rc.states.m == map[] && rc.readings.m == map[] && rc.lastPeriod == None
  }

  /** Every entry is warm, and no two share a runtime map. */
  ghost predicate AllWarm(db: Db, rooms: map<Id, RoomCache>)
    reads rooms.Values, set r | r in rooms :: rooms[r].states, set r | r in rooms :: rooms[r].readings
  {
    Apart(rooms) && forall r :: r in rooms ==> r in db.rooms && Warm(db, r, rooms[r])
  }

  /** No two rooms share a runtime map. */
  ghost predicate Apart(rooms: map<Id, RoomCache>)
    reads rooms.Values
  {
    forall r, q :: r in rooms && q in rooms && r != q ==>
      rooms[r].states != rooms[q].states && rooms[r].readings != rooms[q].readings
  }

  /** Exactly the devices assigned to a room are cached, each as its row says. */
  ghost predicate DevicesLoaded(db: Db, cached: map<HwId, DeviceCache>)
    reads cached.Values
  {
    && (forall hw :: hw in cached ==>
          exists d :: d in db.devices && db.devices[d].room.Some? && db.devices[d].hwId == hw && DescribesDevice(cached[hw], db, d))
    && (forall d :: d in db.devices && db.devices[d].room.Some? && db.devices[d].room.value in db.rooms ==>
          db.devices[d].hwId in cached)
  }

  method WarmDevices(db: Db, store: Store, owned: set<Id>, devices: seq<DeviceScan>)
    requires UniqueBy(db.devices, HwKey) && Enumerates(devices, DeviceScans(db, owned)) && store.devices == map[]
    modifies store`devices
    ensures owned == db.rooms.Keys ==> DevicesLoaded(db, store.devices)
  {
    for i := 0 to |devices|
      invariant store.devices.Keys == set k | 0 <= k < i :: devices[k].hwId
      invariant forall hw :: hw in store.devices ==> fresh(store.devices[hw])
      invariant forall hw :: hw in store.devices ==>
        exists d :: d in db.devices && db.devices[d].room.Some? && db.devices[d].hwId == hw && DescribesDevice(store.devices[hw], db, d)
    {
      assert devices[i] in DeviceScans(db, owned);
      var dc := BuildDeviceCache(db, devices[i].id);
      store.AddDevice(devices[i].hwId, dc);
    }
    forall d | d in db.devices && db.devices[d].room.Some? && db.devices[d].room.value in owned
      ensures db.devices[d].hwId in store.devices
    {
      assert DeviceScan(d, db.devices[d].hwId, db.devices[d].room.value) in DeviceScans(db, owned);
    }
  }
}
