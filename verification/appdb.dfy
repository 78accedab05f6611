/** Building cache entries from database rows: all rooms at once at start-up,
    one room at a time afterwards. Both describe the same rows. */
module Appdb {
  import opened Base
  import opened Times
  import opened Tables
  import opened Cache

  // ---------------------------------------------------------------------
  // Query results
  // ---------------------------------------------------------------------

  datatype RoomScan = RoomScan(id: Id, deadbandTemp: real, deadbandHum: real, timezone: string)
  datatype DesiredScan = DesiredScan(room: Id, row: DesiredRow)
  datatype PeriodScan = PeriodScan(id: Id, room: Id, row: PeriodRow)
  datatype DeviceScan = DeviceScan(id: Id, hwId: HwId, room: Id)
  datatype ActuatorScan = ActuatorScan(device: Id, kind: ActuatorType)

  function RoomScans(db: Db, ids: set<Id>): set<RoomScan> {
    set r | r in db.rooms && r in ids && db.rooms[r].user in db.users ::
      RoomScan(r, db.rooms[r].deadbandTemp, db.rooms[r].deadbandHum, db.users[db.rooms[r].user].timezone)
  }

  function DesiredScans(db: Db, ids: set<Id>): set<DesiredScan> {
    set r | r in db.desired && r in ids :: DesiredScan(r, db.desired[r])
  }

  function PeriodScans(db: Db, ids: set<Id>): set<PeriodScan> {
    set p | p in db.periods && db.periods[p].schedule in db.schedules
            && db.schedules[db.periods[p].schedule].room in ids && db.schedules[db.periods[p].schedule].active ::
      PeriodScan(p, db.schedules[db.periods[p].schedule].room, db.periods[p])
  }

  function DeviceScans(db: Db, ids: set<Id>): set<DeviceScan> {
    set d | d in db.devices && db.devices[d].room.Some? && db.devices[d].room.value in ids ::
      DeviceScan(d, db.devices[d].hwId, db.devices[d].room.value)
  }

  function ActuatorScans(db: Db, devices: set<Id>): set<ActuatorScan> {
    set d, a | d in db.devices && d in devices && a in db.devices[d].actuators :: ActuatorScan(d, a)
  }

  // ---------------------------------------------------------------------
  // Assembling one entry
  // ---------------------------------------------------------------------

  predicate Parses(p: PeriodScan) { ParseMinutes(p.row.start).Some? && ParseMinutes(p.row.end).Some? }

  function MinutesOf(s: string): int {
    match ParseMinutes(s) case Some(m) => m case None => 0
  }

  function CachePeriod(p: PeriodScan): PeriodCache {
    PeriodCache(p.id, (set d | d in p.row.days && 1 <= d <= 7), MinutesOf(p.row.start), MinutesOf(p.row.end),
                p.row.mode, p.row.targets)
  }

  /** Field by field: a cached period has its row's id, mode and both targets,
      the row's weekdays, and its times in minutes. */
  ghost predicate Carries(x: PeriodCache, p: Id, row: PeriodRow) {
    && x.id == p && x.mode == row.mode && x.targets.temp == row.targets.temp && x.targets.hum == row.targets.hum
    && (forall d :: d in x.days <==> d in row.days && 1 <= d <= 7)
    && (ParseMinutes(row.start).Some? ==> Some(x.startMinutes) == ParseMinutes(row.start))
    && (ParseMinutes(row.end).Some? ==> Some(x.endMinutes) == ParseMinutes(row.end))
  }

  lemma CachedCarries(p: PeriodScan)
    ensures Carries(CachePeriod(p), p.id, p.row)
  {
  }

  method BuildPeriodCaches(rows: seq<PeriodScan>) returns (r: Option<seq<PeriodCache>>)
    ensures r.Some? <==> forall i :: 0 <= i < |rows| ==> Parses(rows[i])
    ensures r.Some? ==> |r.value| == |rows| && forall i :: 0 <= i < |rows| ==> Carries(r.value[i], rows[i].id, rows[i].row)
    ensures r.Some? ==> r.value == Map(rows, CachePeriod)
  {
    var result: seq<PeriodCache> := [];
    for i := 0 to |rows|
      invariant forall k :: 0 <= k < i ==> Parses(rows[k])
      invariant result == Map(rows[..i], CachePeriod)
    {
      var p := rows[i];
      var start := ParseMinutes(p.row.start);
      if start.None? { return None; }
      var end := ParseMinutes(p.row.end);
      if end.None? { return None; }
      var days := set d | d in p.row.days && 1 <= d <= 7;
      result := result + [PeriodCache(p.id, days, start.value, end.value, p.row.mode, p.row.targets)];
      assert rows[..i + 1] == rows[..i] + [p];
    }
    assert rows[..|rows|] == rows;
    forall i | 0 <= i < |rows| ensures Carries(result[i], rows[i].id, rows[i].row) { CachedCarries(rows[i]); }
    return Some(result);
  }

  function Keyed<K(==), V>(key: V -> K, k: K): V -> bool { v => key(v) == k }

  /** A grouped query result: rows filed under a key, in their order. */
  method GroupBy<K(==), V>(rows: seq<V>, key: V -> K) returns (m: map<K, seq<V>>)
    ensures forall k :: Group(m, k) == Filter(rows, Keyed(key, k))
  {
    m := map[];
    for i := 0 to |rows|
      invariant forall k :: Group(m, k) == Filter(rows[..i], Keyed(key, k))
    {
      var k0 := key(rows[i]);
      var before := m;
      m := m[k0 := Group(m, k0) + [rows[i]]];
      forall k ensures Group(m, k) == Filter(rows[..i + 1], Keyed(key, k)) {
        assert rows[..i + 1] == rows[..i] + [rows[i]];
        FilterConcat(rows[..i], [rows[i]], Keyed(key, k));
        assert Group(before, k) == Filter(rows[..i], Keyed(key, k));
      }
    }
    assert rows[..|rows|] == rows;
  }

  function Group<K, V>(m: map<K, seq<V>>, k: K): seq<V> { if k in m then m[k] else [] }

  function OfDevice(hw: HwId, acts: seq<ActuatorScan>, t: ActuatorType): seq<HwId> {
    Map(Filter(acts, a => OfKind(a, t)), (a: ActuatorScan) => hw)
  }

  predicate OfKind(a: ActuatorScan, t: ActuatorType) { a.kind == t }

  /** The hardware ids with an actuator of type `t`, device by device. */
  function Tagged(devices: seq<DeviceScan>, held: map<Id, seq<ActuatorScan>>, t: ActuatorType): seq<HwId> {
    if devices == [] then []
    else
      var last := devices[|devices| - 1];
      Tagged(devices[..|devices| - 1], held, t) + OfDevice(last.hwId, Group(held, last.id), t)
  }

  lemma OfDeviceStep(hw: HwId, acts: seq<ActuatorScan>, j: nat, t: ActuatorType)
    requires j < |acts|
    ensures OfDevice(hw, acts[..j + 1], t) == OfDevice(hw, acts[..j], t) + if acts[j].kind == t then [hw] else []
  {
    assert acts[..j + 1] == acts[..j] + [acts[j]];
    FilterConcat(acts[..j], [acts[j]], a => OfKind(a, t));
  }

  /** `m` is `m0` with one device's actuators filed under their types. */
  ghost predicate Filed(m0: map<ActuatorType, seq<HwId>>, m: map<ActuatorType, seq<HwId>>, hw: HwId, acts: seq<ActuatorScan>) {
    forall t :: Group(m, t) == Group(m0, t) + if Known(t) then OfDevice(hw, acts, t) else []
  }

  ghost predicate NoneEmpty(m: map<ActuatorType, seq<HwId>>) { forall t :: t in m ==> m[t] != [] }

  /** The inner loop. */
  method FileDevice(m0: map<ActuatorType, seq<HwId>>, hw: HwId, acts: seq<ActuatorScan>)
    returns (m: map<ActuatorType, seq<HwId>>)
    ensures Filed(m0, m, hw, acts) && (NoneEmpty(m0) ==> NoneEmpty(m))
  {
    m := m0;
    for j := 0 to |acts|
      invariant Filed(m0, m, hw, acts[..j]) && (NoneEmpty(m0) ==> NoneEmpty(m))
    {
      FiledStep(m0, m, hw, acts, j);
      if Known(acts[j].kind) {
        m := m[acts[j].kind := Group(m, acts[j].kind) + [hw]];
      }
    }
    assert acts[..|acts|] == acts;
  }

  /** What filing one more actuator makes of each type's list. */
  lemma FiledStep(m0: map<ActuatorType, seq<HwId>>, m: map<ActuatorType, seq<HwId>>, hw: HwId, acts: seq<ActuatorScan>, j: nat)
    requires j < |acts| && Filed(m0, m, hw, acts[..j])
    ensures var k := acts[j].kind;
      var m' := if Known(k) then m[k := Group(m, k) + [hw]] else m;
      Filed(m0, m', hw, acts[..j + 1]) && (NoneEmpty(m) ==> NoneEmpty(m'))
  {
    var k := acts[j].kind;
    var m' := if Known(k) then m[k := Group(m, k) + [hw]] else m;
    forall t ensures Group(m', t) == Group(m0, t) + if Known(t) then OfDevice(hw, acts[..j + 1], t) else [] {
      assert Group(m', t) == if t == k && Known(k) then Group(m, t) + [hw] else Group(m, t);
      if Known(t) { FiledOfType(Group(m0, t), Group(m, t), hw, acts, j, t); }
    }
  }

  lemma FiledOfType(before: seq<HwId>, now: seq<HwId>, hw: HwId, acts: seq<ActuatorScan>, j: nat, t: ActuatorType)
    requires j < |acts| && now == before + OfDevice(hw, acts[..j], t)
    ensures (if acts[j].kind == t then now + [hw] else now) == before + OfDevice(hw, acts[..j + 1], t)
  {
    OfDeviceStep(hw, acts, j, t);
  }

  lemma TaggedStep(devices: seq<DeviceScan>, i: nat, held: map<Id, seq<ActuatorScan>>, t: ActuatorType)
    requires i < |devices|
    ensures Tagged(devices[..i + 1], held, t)
         == Tagged(devices[..i], held, t) + OfDevice(devices[i].hwId, Group(held, devices[i].id), t)
  {
    assert devices[..i + 1][..i] == devices[..i];
  }

  method BuildActuatorHwIds(devices: seq<DeviceScan>, held: map<Id, seq<ActuatorScan>>) returns (m: map<ActuatorType, seq<HwId>>)
    ensures forall t :: Group(m, t) == if Known(t) then Tagged(devices, held, t) else []
    ensures NoneEmpty(m)
  {
    m := map[];
    for i := 0 to |devices|
      invariant forall t :: Group(m, t) == if Known(t) then Tagged(devices[..i], held, t) else []
      invariant NoneEmpty(m)
    {
      m := FileDevice(m, devices[i].hwId, Group(held, devices[i].id));
      forall t ensures Tagged(devices[..i + 1], held, t)
                       == Tagged(devices[..i], held, t) + OfDevice(devices[i].hwId, Group(held, devices[i].id), t)
      {
        TaggedStep(devices, i, held, t);
      }
    }
    assert devices[..|devices|] == devices;
  }

  method BuildRoomCache(
    rm: RoomScan, ds: DesiredRow, periods: seq<PeriodScan>, devices: seq<DeviceScan>,
    held: map<Id, seq<ActuatorScan>>, zones: set<string>)
    returns (r: Option<RoomConfig>)
    ensures r.Some? <==> rm.timezone in zones && forall i :: 0 <= i < |periods| ==> Parses(periods[i])
    ensures r.Some? ==> r.value.roomId == rm.id && r.value.timezone == rm.timezone
                        && r.value.deadbandTemp == rm.deadbandTemp && r.value.deadbandHum == rm.deadbandHum
                        && r.value.desired == ds && r.value.periods == Map(periods, CachePeriod)
    ensures r.Some? ==> forall t :: HwIds(r.value, t) == if Known(t) then Tagged(devices, held, t) else []
    ensures r.Some? ==> forall t :: t in r.value.actuators ==> r.value.actuators[t] != []
  {
    if rm.timezone !in zones { return None; }
    var cached := BuildPeriodCaches(periods);
    if cached.None? { return None; }
    var hwIds := BuildActuatorHwIds(devices, held);
    var c := RoomConfig(rm.id, rm.timezone, rm.deadbandTemp, rm.deadbandHum, ds, cached.value, hwIds);
    assert forall t :: HwIds(c, t) == Group(hwIds, t);
    return Some(c);
  }

  // ---------------------------------------------------------------------
  // What an entry must say about the rows
  // ---------------------------------------------------------------------

  function CachedPeriods(r: Id, periods: map<Id, PeriodRow>): set<PeriodCache> {
    set p | p in periods :: CachePeriod(PeriodScan(p, r, periods[p]))
  }

  function WithActuator(fixtures: map<Id, Fixture>, t: ActuatorType): set<HwId> {
    set d | d in fixtures && t in fixtures[d].actuators :: fixtures[d].hwId
  }

  /** All a cache entry says of its room: what is derived from the rows, but
      for the order of its lists. */
  datatype Content = Content(
    timezone: string, deadbandTemp: real, deadbandHum: real, desired: DesiredRow,
    periods: set<PeriodCache>, heaters: set<HwId>, humidifiers: set<HwId>)

  function ContentOf(r: Id, rows: RoomRows): Content {
    Content(rows.timezone, rows.deadbandTemp, rows.deadbandHum, rows.desired, CachedPeriods(r, rows.periods),
            WithActuator(rows.fixtures, Heater), WithActuator(rows.fixtures, Humidifier))
  }

  function Installed(x: Content, t: ActuatorType): set<HwId> {
    match t
    case Heater => x.heaters
    case Humidifier => x.humidifiers
    case OtherActuator(_) => {}
  }

  /** What the room's entry should say now; None when it should have none. */
  function Current(db: Db, r: Id): Option<Content> {
    if RowsOf(db, r).Some? then Some(ContentOf(r, RowsOf(db, r).value)) else None
  }

  /** The entry holds these values; its periods and hardware ids are these,
      each once, in some order; it lists only known, present types. */
  ghost predicate Holds(c: RoomConfig, r: Id, x: Content) {
    && c.roomId == r && c.timezone == x.timezone && c.desired == x.desired
    && c.deadbandTemp == x.deadbandTemp && c.deadbandHum == x.deadbandHum
    && Enumerates(c.periods, x.periods)
    && (forall t :: Known(t) ==> Enumerates(HwIds(c, t), Installed(x, t)))
    && (forall t :: t in c.actuators ==> Known(t) && c.actuators[t] != [])
  }

  ghost predicate Describes(c: RoomConfig, r: Id, rows: RoomRows) { Holds(c, r, ContentOf(r, rows)) }

  /** An entry has one content. */
  lemma HoldsOne(c: RoomConfig, r: Id, x: Content, y: Content)
    requires Holds(c, r, x) && Holds(c, r, y)
    ensures x == y
  {
    assert x.periods == y.periods;
    assert Known(Heater) && Known(Humidifier);
    assert Installed(x, Heater) == Installed(y, Heater);
    assert Installed(x, Humidifier) == Installed(y, Humidifier);
  }

  /** An entry built from some rows is right for other rows exactly when both
      have the same content: the devices' other columns, and how a time is
      written, do not matter. */
  lemma UpToDateExactly(c: RoomConfig, r: Id, a: RoomRows, b: RoomRows)
    requires Describes(c, r, a)
    ensures Describes(c, r, b) <==> ContentOf(r, a) == ContentOf(r, b)
  {
    if Describes(c, r, b) { HoldsOne(c, r, ContentOf(r, a), ContentOf(r, b)); }
  }

  lemma PeriodsDescribed(db: Db, r: Id, scans: seq<PeriodScan>)
    requires Enumerates(scans, PeriodScans(db, {r}))
    ensures Enumerates(Map(scans, CachePeriod), CachedPeriods(r, ActivePeriods(db, r)))
  {
    var all := PeriodScans(db, {r});
    MapEnumerates(scans, all, CachePeriod);
    var image := set x | x in all :: CachePeriod(x);
    forall y ensures y in image <==> y in CachedPeriods(r, ActivePeriods(db, r)) {
      if y in image {
        var x :| x in all && y == CachePeriod(x);
        assert x.id in ActivePeriods(db, r);
      }
      if y in CachedPeriods(r, ActivePeriods(db, r)) {
        var p :| p in ActivePeriods(db, r) && y == CachePeriod(PeriodScan(p, r, ActivePeriods(db, r)[p]));
        assert PeriodScan(p, r, db.periods[p]) in all;
      }
    }
    assert image == CachedPeriods(r, ActivePeriods(db, r));
  }

  lemma ParsesIffLoads(db: Db, r: Id, scans: seq<PeriodScan>)
    requires Enumerates(scans, PeriodScans(db, {r}))
    ensures (forall i :: 0 <= i < |scans| ==> Parses(scans[i]))
       <==> (forall p :: p in ActivePeriods(db, r) ==> Parses(PeriodScan(p, 0, ActivePeriods(db, r)[p])))
  {
    forall i | 0 <= i < |scans| ensures scans[i].id in ActivePeriods(db, r) && scans[i].row == db.periods[scans[i].id] {
      assert scans[i] in PeriodScans(db, {r});
    }
    forall p | p in ActivePeriods(db, r) ensures exists i :: 0 <= i < |scans| && scans[i] == PeriodScan(p, r, db.periods[p]) {
      assert PeriodScan(p, r, db.periods[p]) in PeriodScans(db, {r});
    }
    if forall i :: 0 <= i < |scans| ==> Parses(scans[i]) {
      forall p | p in ActivePeriods(db, r) ensures Parses(PeriodScan(p, 0, ActivePeriods(db, r)[p])) {
        var i :| 0 <= i < |scans| && scans[i] == PeriodScan(p, r, db.periods[p]);
      }
    }
    if forall p :: p in ActivePeriods(db, r) ==> Parses(PeriodScan(p, 0, ActivePeriods(db, r)[p])) {
      forall i | 0 <= i < |scans| ensures Parses(scans[i]) {
        assert Parses(PeriodScan(scans[i].id, 0, scans[i].row));
      }
    }
  }

  /** A device contributes its hardware id once if it has the actuator. */
  lemma OfDeviceOnce(db: Db, d: Id, hw: HwId, acts: seq<ActuatorScan>, t: ActuatorType)
    requires d in db.devices && Enumerates(acts, ActuatorScans(db, {d}))
    ensures OfDevice(hw, acts, t) == if t in db.devices[d].actuators then [hw] else []
  {
    var all := ActuatorScans(db, {d});
    var p := (a: ActuatorScan) => OfKind(a, t);
    FilterEnumerates(acts, all, p);
    var kept := set x | x in all && p(x);
    if t in db.devices[d].actuators {
      assert kept == {ActuatorScan(d, t)};
    } else {
      assert kept == {};
    }
    EnumeratesLength(Filter(acts, p), kept);
    assert OfDevice(hw, acts, t) == Map(Filter(acts, p), (a: ActuatorScan) => hw);
  }

  predicate HasKind(db: Db, x: DeviceScan, t: ActuatorType) {
    x.id in db.devices && t in db.devices[x.id].actuators
  }

  function HwOf(x: DeviceScan): HwId { x.hwId }

  lemma {:induction false} TaggedIsFiltered(db: Db, devices: seq<DeviceScan>, held: map<Id, seq<ActuatorScan>>, t: ActuatorType)
    requires forall i :: 0 <= i < |devices| ==> devices[i].id in db.devices
    requires forall i :: 0 <= i < |devices| ==> Enumerates(Group(held, devices[i].id), ActuatorScans(db, {devices[i].id}))
    ensures Tagged(devices, held, t) == Map(Filter(devices, x => HasKind(db, x, t)), HwOf)
  {
    if devices != [] {
      var last, init := devices[|devices| - 1], devices[..|devices| - 1];
      assert devices == init + [last];
      TaggedIsFiltered(db, init, held, t);
      OfDeviceOnce(db, last.id, last.hwId, Group(held, last.id), t);
      FilterConcat(init, [last], x => HasKind(db, x, t));
    }
  }

  function Having(db: Db, r: Id, t: ActuatorType): set<DeviceScan> {
    set x | x in DeviceScans(db, {r}) && HasKind(db, x, t)
  }

  lemma HavingHwIds(db: Db, r: Id, t: ActuatorType)
    requires UniqueBy(db.devices, HwKey)
    ensures forall x, y :: x in Having(db, r, t) && y in Having(db, r, t) && HwOf(x) == HwOf(y) ==> x == y
    ensures (set x | x in Having(db, r, t) :: HwOf(x)) == WithActuator(Fixtures(db, r), t)
  {
    forall x, y | x in Having(db, r, t) && y in Having(db, r, t) && HwOf(x) == HwOf(y) ensures x == y {
      assert HwKey(db.devices[x.id]) == HwKey(db.devices[y.id]);
    }
    var image := set x | x in Having(db, r, t) :: HwOf(x);
    forall h | h in image ensures h in WithActuator(Fixtures(db, r), t) {
      var x :| x in Having(db, r, t) && h == HwOf(x);
      assert x.id in Fixtures(db, r);
    }
    forall h | h in WithActuator(Fixtures(db, r), t) ensures h in image {
      var d :| d in Fixtures(db, r) && t in Fixtures(db, r)[d].actuators && h == Fixtures(db, r)[d].hwId;
      assert HwOf(DeviceScan(d, h, r)) == h && DeviceScan(d, h, r) in Having(db, r, t);
    }
  }

  lemma FixturesDescribed(db: Db, r: Id, devices: seq<DeviceScan>, held: map<Id, seq<ActuatorScan>>, t: ActuatorType)
    requires UniqueBy(db.devices, HwKey)
    requires Enumerates(devices, DeviceScans(db, {r}))
    requires forall i :: 0 <= i < |devices| ==> Enumerates(Group(held, devices[i].id), ActuatorScans(db, {devices[i].id}))
    ensures Enumerates(Tagged(devices, held, t), WithActuator(Fixtures(db, r), t))
  {
    forall i | 0 <= i < |devices| ensures devices[i].id in db.devices { assert devices[i] in DeviceScans(db, {r}); }
    TaggedIsFiltered(db, devices, held, t);
    var p := (x: DeviceScan) => HasKind(db, x, t);
    FilterEnumerates(devices, DeviceScans(db, {r}), p);
    assert (set x | x in DeviceScans(db, {r}) && p(x)) == Having(db, r, t);
    HavingHwIds(db, r, t);
    MapEnumerates(Filter(devices, p), Having(db, r, t), HwOf);
  }

  /** An entry assembled from any ordering of the room's own rows describes
      them. */
  lemma EntryDescribes(db: Db, r: Id, c: RoomConfig, scans: seq<PeriodScan>, devices: seq<DeviceScan>, held: map<Id, seq<ActuatorScan>>)
    requires UniqueBy(db.devices, HwKey) && RowsOf(db, r).Some?
    requires Enumerates(scans, PeriodScans(db, {r})) && Enumerates(devices, DeviceScans(db, {r}))
    requires forall i :: 0 <= i < |devices| ==> Enumerates(Group(held, devices[i].id), ActuatorScans(db, {devices[i].id}))
    requires c.roomId == r && c.timezone == RowsOf(db, r).value.timezone && c.desired == DesiredOf(db, r)
    requires c.deadbandTemp == db.rooms[r].deadbandTemp && c.deadbandHum == db.rooms[r].deadbandHum
    requires c.periods == Map(scans, CachePeriod)
    requires forall t :: HwIds(c, t) == if Known(t) then Tagged(devices, held, t) else []
    requires forall t :: t in c.actuators ==> c.actuators[t] != []
    ensures Describes(c, r, RowsOf(db, r).value)
  {
    PeriodsDescribed(db, r, scans);
    forall t | Known(t) ensures Enumerates(HwIds(c, t), WithActuator(Fixtures(db, r), t)) {
      FixturesDescribed(db, r, devices, held, t);
    }
    forall t | t in c.actuators ensures Known(t) {
      assert HwIds(c, t) != [];
    }
  }

  lemma SameLists(a: RoomConfig, b: RoomConfig, r: Id, x: Content, t: ActuatorType)
    requires Holds(a, r, x) && Holds(b, r, x)
    ensures multiset(HwIds(a, t)) == multiset(HwIds(b, t)) && (t in a.actuators <==> t in b.actuators)
  {
    if Known(t) {
      EnumerationsAgree(HwIds(a, t), HwIds(b, t), Installed(x, t));
      assert t in a.actuators <==> |multiset(HwIds(a, t))| != 0;
      assert t in b.actuators <==> |multiset(HwIds(b, t))| != 0;
    }
  }

  /** Two entries for the same rows, from the bulk load and the single reload
      or from two reloads, differ only in row order. */
  lemma BulkEqualsSingle(a: RoomConfig, b: RoomConfig, r: Id, rows: RoomRows)
    requires Describes(a, r, rows) && Describes(b, r, rows)
    ensures a.(periods := [], actuators := map[]) == b.(periods := [], actuators := map[])
    ensures multiset(a.periods) == multiset(b.periods)
    ensures forall t :: multiset(HwIds(a, t)) == multiset(HwIds(b, t))
    ensures a.actuators.Keys == b.actuators.Keys
  {
    EnumerationsAgree(a.periods, b.periods, CachedPeriods(r, rows.periods));
    forall t ensures multiset(HwIds(a, t)) == multiset(HwIds(b, t)) && (t in a.actuators <==> t in b.actuators) {
      SameLists(a, b, r, ContentOf(r, rows), t);
    }
  }
}
