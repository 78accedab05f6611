/** The application database: its tables, the constraints the migrations
    declare, and the rows the control service reads for one room. */
module Tables {
  import opened Base
  import opened Times

  datatype UserRow = UserRow(email: string, timezone: string)
  datatype RoomRow = RoomRow(user: Id, name: string, deadbandTemp: real, deadbandHum: real)
  datatype DesiredRow = DesiredRow(mode: Mode, manualActive: bool, targets: Targets, until: Option<int>)
  datatype DeviceRow = DeviceRow(
    user: Id, name: string, hwId: HwId, room: Option<Id>,
    sensors: set<Measure>, actuators: set<ActuatorType>)
  datatype ScheduleRow = ScheduleRow(room: Id, user: Id, name: string, active: bool)
  datatype PeriodRow = PeriodRow(
    schedule: Id, days: set<int>, start: string, end: string, mode: Mode, targets: Targets)

  /** Tables keyed by primary key; `desired` by its unique room_id. `next` is
      above every id handed out so far, so ids are never reused. */
  datatype Db = Db(
    users: map<Id, UserRow>,
    rooms: map<Id, RoomRow>,
    desired: map<Id, DesiredRow>,
    devices: map<Id, DeviceRow>,
    schedules: map<Id, ScheduleRow>,
    periods: map<Id, PeriodRow>,
    next: Id)

  const EMPTY_DB := Db(map[], map[], map[], map[], map[], map[], 0)

  /** What a missing desired_states row scans as. */
  const ABSENT_DESIRED := DesiredRow(Off, false, NO_TARGETS, None)

  // ---------------------------------------------------------------------
  // Constraints
  // ---------------------------------------------------------------------

  predicate InRange(t: Targets) {
    && (t.temp.Some? ==> 5.0 <= t.temp.value <= 40.0)
    && (t.hum.Some? ==> 0.0 <= t.hum.value <= 100.0)
  }

  /** No two rows share a key: a UNIQUE constraint. */
  ghost predicate UniqueBy<V, K>(m: map<Id, V>, key: V -> K) {
    forall a, b :: a in m && b in m && key(m[a]) == key(m[b]) ==> a == b
  }

  function EmailKey(u: UserRow): string { u.email }
  function RoomKey(r: RoomRow): (Id, string) { (r.user, r.name) }
  function HwKey(d: DeviceRow): HwId { d.hwId }
  function DeviceKey(d: DeviceRow): (Id, string) { (d.user, d.name) }
  function ScheduleKey(s: ScheduleRow): (Id, string) { (s.room, s.name) }

  ghost predicate IdsBelowNext(db: Db) {
    && (forall k :: k in db.users || k in db.rooms || k in db.devices ==> k < db.next)
    && (forall k :: k in db.schedules || k in db.periods ==> k < db.next)
  }

  ghost predicate UniqueKeys(db: Db) {
    && UniqueBy(db.users, EmailKey)
    && UniqueBy(db.rooms, RoomKey)
    && UniqueBy(db.devices, HwKey)
    && UniqueBy(db.devices, DeviceKey)
    && UniqueBy(db.schedules, ScheduleKey)
  }

  ghost predicate RoomRefs(rooms: map<Id, RoomRow>, users: map<Id, UserRow>) {
    forall r :: r in rooms ==> rooms[r].user in users
  }

  /** A device's room, if any, exists and has the same owner. */
  ghost predicate DeviceRefs(devices: map<Id, DeviceRow>, rooms: map<Id, RoomRow>, users: map<Id, UserRow>) {
    forall d :: d in devices ==>
      && devices[d].user in users
      && (devices[d].room.Some? ==>
            devices[d].room.value in rooms && rooms[devices[d].room.value].user == devices[d].user)
  }

  ghost predicate ScheduleRefs(schedules: map<Id, ScheduleRow>, rooms: map<Id, RoomRow>) {
    forall s :: s in schedules ==> schedules[s].room in rooms && rooms[schedules[s].room].user == schedules[s].user
  }

  ghost predicate PeriodRefs(periods: map<Id, PeriodRow>, schedules: map<Id, ScheduleRow>) {
    forall p :: p in periods ==> periods[p].schedule in schedules
  }

  ghost predicate References(db: Db) {
    && RoomRefs(db.rooms, db.users)
    && db.desired.Keys == db.rooms.Keys
    && DeviceRefs(db.devices, db.rooms, db.users)
    && ScheduleRefs(db.schedules, db.rooms)
    && PeriodRefs(db.periods, db.schedules)
  }

  predicate PeriodChecks(p: PeriodRow) {
    && Accepted(p.start) && Accepted(p.end) && LexLess(p.start, p.end)
    && p.days != {} && (forall d :: d in p.days ==> 1 <= d <= 7)
    && (p.mode == Auto ==> p.targets != NO_TARGETS)
    && InRange(p.targets)
  }

  /** The CHECK constraints. */
  ghost predicate Checks(db: Db) {
    && (forall r :: r in db.rooms ==> db.rooms[r].deadbandTemp > 0.0 && db.rooms[r].deadbandHum > 0.0)
    && (forall r :: r in db.desired ==> InRange(db.desired[r].targets))
    && (forall p :: p in db.periods ==> PeriodChecks(db.periods[p]))
  }

  /** The partial unique index one_active_schedule_per_room. */
  ghost predicate OneActive(schedules: map<Id, ScheduleRow>) {
    forall s, t ::
      (s in schedules && t in schedules && schedules[s].active && schedules[t].active
       && schedules[s].room == schedules[t].room) ==> s == t
  }

  /** Two periods the API calls overlapping: a shared day, and each starts, as
      text, before the other ends. */
  predicate Clash(p: PeriodRow, q: PeriodRow) {
    p.days * q.days != {} && LexLess(p.start, q.end) && LexLess(q.start, p.end)
  }

  ghost predicate NoClash(periods: map<Id, PeriodRow>) {
    forall p, q :: p in periods && q in periods && p != q && periods[p].schedule == periods[q].schedule
      ==> !Clash(periods[p], periods[q])
  }

  ghost predicate Valid(db: Db) {
    && IdsBelowNext(db) && UniqueKeys(db) && References(db) && Checks(db)
    && OneActive(db.schedules) && NoClash(db.periods)
  }

  // ---------------------------------------------------------------------
  // Capability queries
  // ---------------------------------------------------------------------

  /** A sensor and an actuator in the room, possibly on different devices, not
      counting device `gone`. */
  predicate HasCapability(db: Db, r: Id, m: Measure, a: ActuatorType, gone: Option<Id>) {
    && (exists d :: d in db.devices && db.devices[d].room == Some(r) && Some(d) != gone && m in db.devices[d].sensors)
    && (exists d :: d in db.devices && db.devices[d].room == Some(r) && Some(d) != gone && a in db.devices[d].actuators)
  }

  /** Every target is served by a sensor and an actuator in the room. */
  predicate Backed(db: Db, r: Id, t: Targets) {
    && (t.temp.Some? ==> HasCapability(db, r, Temperature, Heater, None))
    && (t.hum.Some? ==> HasCapability(db, r, Humidity, Humidifier, None))
  }

  // ---------------------------------------------------------------------
  // The rows behind one room's cache entry
  // ---------------------------------------------------------------------

  datatype Fixture = Fixture(hwId: HwId, actuators: set<ActuatorType>)

  datatype RoomRows = RoomRows(
    timezone: string, deadbandTemp: real, deadbandHum: real, desired: DesiredRow,
    periods: map<Id, PeriodRow>, fixtures: map<Id, Fixture>)

  predicate IsActivePeriod(db: Db, p: Id, r: Id)
    requires p in db.periods
  {
    var s := db.periods[p].schedule;
    s in db.schedules && db.schedules[s].room == r && db.schedules[s].active
  }

  function DesiredOf(db: Db, r: Id): DesiredRow {
    if r in db.desired then db.desired[r] else ABSENT_DESIRED
  }

  function ActivePeriods(db: Db, r: Id): map<Id, PeriodRow> {
    map p | p in db.periods && IsActivePeriod(db, p, r) :: db.periods[p]
  }

  function Fixtures(db: Db, r: Id): map<Id, Fixture> {
    map d | d in db.devices && db.devices[d].room == Some(r) :: Fixture(db.devices[d].hwId, db.devices[d].actuators)
  }

  /** None when the room (or its owner, lost to the join) is gone. */
  function RowsOf(db: Db, r: Id): Option<RoomRows> {
    if r in db.rooms && db.rooms[r].user in db.users then
      Some(RoomRows(
             db.users[db.rooms[r].user].timezone, db.rooms[r].deadbandTemp, db.rooms[r].deadbandHum,
             DesiredOf(db, r), ActivePeriods(db, r), Fixtures(db, r)))
    else None
  }
}
