/** The API's writes, one request at a time: what each does to the tables and
    which stream events it sends. */
module Api {
  import opened Base
  import opened Times
  import opened Tables

  datatype Event =
    | RoomCreated(room: Id)
    | RoomDeleted(room: Id)
    | RoomConfigChanged(room: Id)
    | DesiredStateChanged(room: Id)
    | ScheduleChanged(room: Id)
    | DeviceAssigned(room: Id, hwId: HwId)
    | DeviceUnassigned(room: Id, hwId: HwId)
    // entries no API call writes, which the consumer must still survive
    | NoEventField
    | UnknownEvent
    | NoHwId
    | BadRoomId

  /** A known event with a field missing or not parsing: a device event without
      hw_id, or any event without a room_id that parses. */
  predicate Malformed(e: Event) { e.NoHwId? || e.BadRoomId? }

  /** Not an event of the API. */
  predicate Foreign(e: Event) { e.NoEventField? || e.UnknownEvent? || Malformed(e) }

  /** The event carries this room id. */
  predicate Names(e: Event, r: Id) { !Foreign(e) && e.room == r }

  datatype Error =
    | NotFound | RoomNotFound | NameTaken | EmailTaken | BadRequest | DbCheck | InvalidTimezone
    | InvalidTarget | InvalidState | NoCapability | CapabilityConflict
    | InvalidSensor | DuplicateSensor | InvalidActuator | DuplicateActuator | AlreadyOwned | HwIdTaken
    | AlreadyActive | AlreadyInactive | InvalidTimeRange | PeriodOverlap | PeriodNotFound

  datatype Reply = Done(id: Id) | Failed(error: Error)
  datatype Effect = Effect(db: Db, sent: seq<Event>, reply: Reply)

  function Fail(db: Db, e: Error): Effect { Effect(db, [], Failed(e)) }

  const DEFAULT_TEMP_DEADBAND: real := 0.5
  const DEFAULT_HUM_DEADBAND: real := 2.0

  // ---------------------------------------------------------------------
  // Users
  // ---------------------------------------------------------------------

  function Register(db: Db, email: string): Effect {
    if exists u :: u in db.users && db.users[u].email == email then Fail(db, EmailTaken)
    else Effect(db.(users := db.users[db.next := UserRow(email, "UTC")], next := db.next + 1), [], Done(db.next))
  }

  function SetTimezone(db: Db, u: Id, tz: string, zones: set<string>): Effect {
    if tz !in zones then Fail(db, InvalidTimezone)
    else if u !in db.users then Effect(db, [], Done(u))
    else Effect(db.(users := db.users[u := db.users[u].(timezone := tz)]), [], Done(u))
  }

  function RoomsOf(db: Db, u: Id): set<Id> {
    set r | r in db.rooms && db.rooms[r].user == u
  }

  /** ON DELETE SET NULL on devices.room_id. */
  function Unassign(devices: map<Id, DeviceRow>, gone: set<Id>): map<Id, DeviceRow> {
    map d | d in devices ::
      if devices[d].room.Some? && devices[d].room.value in gone then devices[d].(room := None) else devices[d]
  }

  /** Rows that survive the deletion of `gone` rooms, with every cascade. */
  function DropRooms(db: Db, gone: set<Id>): Db {
    db.(rooms := db.rooms - gone,
        desired := db.desired - gone,
        devices := Unassign(db.devices, gone),
        schedules := map s | s in db.schedules && db.schedules[s].room !in gone :: db.schedules[s],
        periods := map p | p in db.periods
                        && !(db.periods[p].schedule in db.schedules
                             && db.schedules[db.periods[p].schedule].room in gone) :: db.periods[p])
  }

  function DeleteUser(db: Db, u: Id): Effect {
    if u !in db.users then Fail(db, NotFound)
    else
      var kept := DropRooms(db, RoomsOf(db, u));
      Effect(kept.(users := kept.users - {u},
                   devices := map d | d in kept.devices && kept.devices[d].user != u :: kept.devices[d]),
             [], Done(u))
  }

  // ---------------------------------------------------------------------
  // Rooms
  // ---------------------------------------------------------------------

  predicate OwnsRoom(db: Db, r: Id, u: Id) { r in db.rooms && db.rooms[r].user == u }

  predicate RoomNameTaken(db: Db, u: Id, name: string, self: Option<Id>) {
    exists r :: r in db.rooms && Some(r) != self && db.rooms[r].user == u && db.rooms[r].name == name
  }

  function CreateRoom(db: Db, u: Id, name: string): Effect {
    if u !in db.users then Fail(db, DbCheck)
    else if RoomNameTaken(db, u, name, None) then Fail(db, NameTaken)
    else
      var r := db.next;
      Effect(db.(rooms := db.rooms[r := RoomRow(u, name, DEFAULT_TEMP_DEADBAND, DEFAULT_HUM_DEADBAND)],
                 desired := db.desired[r := DesiredRow(Off, false, NO_TARGETS, None)],
                 next := r + 1),
             [RoomCreated(r)], Done(r))
  }

  function OrElse(o: Option<real>, x: real): real { if o.Some? then o.value else x }

  function UpdateRoom(db: Db, r: Id, u: Id, name: string, dbTemp: Option<real>, dbHum: Option<real>): Effect {
    if !OwnsRoom(db, r, u) then Fail(db, NotFound)
    else
      var row := RoomRow(u, name, OrElse(dbTemp, db.rooms[r].deadbandTemp), OrElse(dbHum, db.rooms[r].deadbandHum));
      if row.deadbandTemp <= 0.0 || row.deadbandHum <= 0.0 then Fail(db, DbCheck)
      else if RoomNameTaken(db, u, name, Some(r)) then Fail(db, NameTaken)
      else Effect(db.(rooms := db.rooms[r := row]), [RoomConfigChanged(r)], Done(r))
  }

  function DeleteRoom(db: Db, r: Id, u: Id): Effect {
    if !OwnsRoom(db, r, u) then Fail(db, NotFound)
    else Effect(DropRooms(db, {r}), [RoomDeleted(r)], Done(r))
  }

  /** The first objection UpdateDesiredState raises, in its order of checks. */
  function DesiredStateError(db: Db, r: Id, row: DesiredRow): Option<Error> {
    if row.targets.temp.Some? && (row.targets.temp.value < 5.0 || row.targets.temp.value > 40.0) then Some(InvalidTarget)
    else if row.targets.hum.Some? && (row.targets.hum.value < 0.0 || row.targets.hum.value > 100.0) then Some(InvalidTarget)
    else if row.manualActive && row.mode == Auto then
      if row.targets == NO_TARGETS then Some(InvalidState)
      else if row.targets.temp.Some? && !HasCapability(db, r, Temperature, Heater, None) then Some(NoCapability)
      else if row.targets.hum.Some? && !HasCapability(db, r, Humidity, Humidifier, None) then Some(NoCapability)
      else None
    else None
  }

  function UpdateDesiredState(db: Db, r: Id, u: Id, row: DesiredRow): Effect {
    if !OwnsRoom(db, r, u) then Fail(db, NotFound)
    else
      match DesiredStateError(db, r, row)
      case Some(e) => Fail(db, e)
      case None =>
        if r !in db.desired then Fail(db, NotFound)
        else Effect(db.(desired := db.desired[r := row]), [DesiredStateChanged(r)], Done(r))
  }

  // ---------------------------------------------------------------------
  // Devices
  // ---------------------------------------------------------------------

  predicate OwnsDevice(db: Db, d: Id, u: Id) { d in db.devices && db.devices[d].user == u }

  predicate DeviceNameTaken(db: Db, u: Id, name: string, self: Option<Id>) {
    exists d :: d in db.devices && Some(d) != self && db.devices[d].user == u && db.devices[d].name == name
  }

  /** CheckHwIDAvailability. */
  function HwIdError(db: Db, hw: HwId, u: Id): Option<Error> {
    if exists d :: d in db.devices && db.devices[d].hwId == hw && db.devices[d].user == u then Some(AlreadyOwned)
    else if exists d :: d in db.devices && db.devices[d].hwId == hw then Some(HwIdTaken)
    else None
  }

  /** The first objection to a list of declared types, scanning from `i`: an
      unknown type, or one already seen. */
  function ListError<T(==)>(s: seq<T>, i: nat, known: T -> bool, invalid: Error, duplicate: Error): Option<Error>
    requires i <= |s|
    decreases |s| - i
  {
    if i == |s| then None
    else if !known(s[i]) then Some(invalid)
    else if s[i] in s[..i] then Some(duplicate)
    else ListError(s, i + 1, known, invalid, duplicate)
  }

  /** validSensorTypes holds every measure, validActuatorTypes the known types. */
  function AnyMeasure(): Measure -> bool { (m: Measure) => true }
  function KnownType(): ActuatorType -> bool { (a: ActuatorType) => Known(a) }

  function CreateDevice(db: Db, u: Id, name: string, hw: HwId, sensors: seq<Measure>, actuators: seq<ActuatorType>): Effect {
    match ListError(sensors, 0, AnyMeasure(), InvalidSensor, DuplicateSensor)
    case Some(e) => Fail(db, e)
    case None =>
      match ListError(actuators, 0, KnownType(), InvalidActuator, DuplicateActuator)
      case Some(e) => Fail(db, e)
      case None =>
      match HwIdError(db, hw, u)
      case Some(e) => Fail(db, e)
      case None =>
        if u !in db.users then Fail(db, DbCheck)
        else if DeviceNameTaken(db, u, name, None) then Fail(db, NameTaken)
        else
          var row := DeviceRow(u, name, hw, None, (set m | m in sensors), (set a | a in actuators));
          Effect(db.(devices := db.devices[db.next := row], next := db.next + 1), [], Done(db.next))
  }

  /** HasCapabilityConflictAfterRemoval: without device `d`, the room's desired
      state or an active period would keep a target it cannot serve. */
  predicate ConflictAfterRemoval(db: Db, r: Id, d: Id) {
    var temp := HasCapability(db, r, Temperature, Heater, Some(d));
    var hum := HasCapability(db, r, Humidity, Humidifier, Some(d));
    && !(temp && hum)
    && ( || (r in db.desired && Strands(db.desired[r].targets, temp, hum))
         || exists p :: p in db.periods && IsActivePeriod(db, p, r) && Strands(db.periods[p].targets, temp, hum))
  }

  predicate Strands(t: Targets, temp: bool, hum: bool) { (!temp && t.temp.Some?) || (!hum && t.hum.Some?) }

  function UpdateDevice(db: Db, d: Id, u: Id, name: string, room: Option<Id>): Effect {
    if !OwnsDevice(db, d, u) then Fail(db, NotFound)
    else if room.Some? && !OwnsRoom(db, room.value, u) then Fail(db, RoomNotFound)
    else
      var prev := db.devices[d].room;
      var leaving := prev.Some? && room != prev;
      var entering := room.Some? && room != prev;
      if leaving && ConflictAfterRemoval(db, prev.value, d) then Fail(db, CapabilityConflict)
      else if DeviceNameTaken(db, u, name, Some(d)) then Fail(db, NameTaken)
      else
        var hw := db.devices[d].hwId;
        Effect(db.(devices := db.devices[d := db.devices[d].(name := name, room := room)]),
               (if leaving then [DeviceUnassigned(prev.value, hw)] else [])
               + (if entering then [DeviceAssigned(room.value, hw)] else []),
               Done(d))
  }

  function DeleteDevice(db: Db, d: Id, u: Id): Effect {
    if !OwnsDevice(db, d, u) then Fail(db, NotFound)
    else if db.devices[d].room.Some? && ConflictAfterRemoval(db, db.devices[d].room.value, d) then Fail(db, CapabilityConflict)
    else Effect(db.(devices := db.devices - {d}), [], Done(d))
  }

  // ---------------------------------------------------------------------
  // Schedules
  // ---------------------------------------------------------------------

  predicate OwnsSchedule(db: Db, s: Id, u: Id) { s in db.schedules && db.schedules[s].user == u }

  predicate ScheduleNameTaken(db: Db, r: Id, name: string, self: Option<Id>) {
    exists s :: s in db.schedules && Some(s) != self && db.schedules[s].room == r && db.schedules[s].name == name
  }

  function CreateSchedule(db: Db, r: Id, u: Id, name: string): Effect {
    if !OwnsRoom(db, r, u) then Fail(db, NotFound)
    else if ScheduleNameTaken(db, r, name, None) then Fail(db, NameTaken)
    else
      Effect(db.(schedules := db.schedules[db.next := ScheduleRow(r, u, name, false)], next := db.next + 1),
             [], Done(db.next))
  }

  function RenameSchedule(db: Db, s: Id, u: Id, name: string): Effect {
    if !OwnsSchedule(db, s, u) then Fail(db, NotFound)
    else if ScheduleNameTaken(db, db.schedules[s].room, name, Some(s)) then Fail(db, NameTaken)
    else Effect(db.(schedules := db.schedules[s := db.schedules[s].(name := name)]), [], Done(s))
  }

  function DeleteSchedule(db: Db, s: Id, u: Id): Effect {
    if !OwnsSchedule(db, s, u) then Fail(db, NotFound)
    else Effect(db.(schedules := db.schedules - {s},
                    periods := map p | p in db.periods && db.periods[p].schedule != s :: db.periods[p]),
                [], Done(s))
  }

  predicate PeriodsHaveCapability(db: Db, s: Id, r: Id) {
    forall p :: p in db.periods && db.periods[p].schedule == s ==> Backed(db, r, db.periods[p].targets)
  }

  function Activate(db: Db, s: Id, u: Id): Effect {
    if !OwnsSchedule(db, s, u) then Fail(db, NotFound)
    else
      var r := db.schedules[s].room;
      if db.schedules[s].active then Fail(db, AlreadyActive)
      else if !PeriodsHaveCapability(db, s, r) then Fail(db, CapabilityConflict)
      else
        Effect(db.(schedules := map t | t in db.schedules ::
                 if t == s then db.schedules[t].(active := true)
                 else if db.schedules[t].room == r then db.schedules[t].(active := false)
                 else db.schedules[t]),
               [ScheduleChanged(r)], Done(s))
  }

  function Deactivate(db: Db, s: Id, u: Id): Effect {
    if !OwnsSchedule(db, s, u) then Fail(db, NotFound)
    else if !db.schedules[s].active then Fail(db, AlreadyInactive)
    else Effect(db.(schedules := db.schedules[s := db.schedules[s].(active := false)]),
                [ScheduleChanged(db.schedules[s].room)], Done(s))
  }

  // ---------------------------------------------------------------------
  // Periods
  // ---------------------------------------------------------------------

  datatype PeriodInput = PeriodInput(days: seq<int>, start: string, end: string, mode: Mode, targets: Targets)

  function ToRow(s: Id, x: PeriodInput): PeriodRow {
    PeriodRow(s, (set d | d in x.days), x.start, x.end, x.mode, x.targets)
  }

  /** The handler's binding tags and validatePeriodRequest. */
  predicate GoodRequest(x: PeriodInput) {
    && x.days != [] && (forall d :: d in x.days ==> 1 <= d <= 7)
    && Accepted(x.start) && Accepted(x.end)
    && (x.mode == Auto ==> x.targets != NO_TARGETS)
    && InRange(x.targets)
  }

  predicate HasOverlap(db: Db, s: Id, row: PeriodRow, except: Option<Id>) {
    exists p :: p in db.periods && db.periods[p].schedule == s && Some(p) != except && Clash(db.periods[p], row)
  }

  /** buildPeriod: the two refusals it can give. */
  function PeriodError(db: Db, s: Id, row: PeriodRow, except: Option<Id>): Option<Error> {
    if !LexLess(row.start, row.end) then Some(InvalidTimeRange)
    else if HasOverlap(db, s, row, except) then Some(PeriodOverlap)
    else None
  }

  function NotifyIfActive(db: Db, s: Id): seq<Event>
    requires s in db.schedules
  {
    if db.schedules[s].active then [ScheduleChanged(db.schedules[s].room)] else []
  }

  function CreatePeriod(db: Db, s: Id, u: Id, x: PeriodInput): Effect {
    if !GoodRequest(x) then Fail(db, BadRequest)
    else if !OwnsSchedule(db, s, u) then Fail(db, NotFound)
    else
      match PeriodError(db, s, ToRow(s, x), None)
      case Some(e) => Fail(db, e)
      case None =>
        Effect(db.(periods := db.periods[db.next := ToRow(s, x)], next := db.next + 1),
               NotifyIfActive(db, s), Done(db.next))
  }

  predicate OwnsPeriod(db: Db, p: Id, u: Id) { p in db.periods && OwnsSchedule(db, db.periods[p].schedule, u) }

  function UpdatePeriod(db: Db, p: Id, u: Id, x: PeriodInput): Effect {
    if !GoodRequest(x) then Fail(db, BadRequest)
    else if !OwnsPeriod(db, p, u) then Fail(db, PeriodNotFound)
    else
      var s := db.periods[p].schedule;
      match PeriodError(db, s, ToRow(s, x), Some(p))
      case Some(e) => Fail(db, e)
      case None => Effect(db.(periods := db.periods[p := ToRow(s, x)]), NotifyIfActive(db, s), Done(p))
  }

  function DeletePeriod(db: Db, p: Id, u: Id): Effect {
    if !OwnsPeriod(db, p, u) then Fail(db, PeriodNotFound)
    else Effect(db.(periods := db.periods - {p}), NotifyIfActive(db, db.periods[p].schedule), Done(p))
  }

  // ---------------------------------------------------------------------
  // Any request
  // ---------------------------------------------------------------------

  datatype Op =
    | OpRegister(email: string)
    | OpSetTimezone(u: Id, tz: string, zones: set<string>)
    | OpDeleteUser(u: Id)
    | OpCreateRoom(u: Id, name: string)
    | OpUpdateRoom(r: Id, u: Id, name: string, dbTemp: Option<real>, dbHum: Option<real>)
    | OpDeleteRoom(r: Id, u: Id)
    | OpDesiredState(r: Id, u: Id, desired: DesiredRow)
    | OpCreateDevice(u: Id, name: string, hw: HwId, sensors: seq<Measure>, actuators: seq<ActuatorType>)
    | OpUpdateDevice(d: Id, u: Id, name: string, room: Option<Id>)
    | OpDeleteDevice(d: Id, u: Id)
    | OpCreateSchedule(r: Id, u: Id, name: string)
    | OpRenameSchedule(s: Id, u: Id, name: string)
    | OpDeleteSchedule(s: Id, u: Id)
    | OpActivate(s: Id, u: Id)
    | OpDeactivate(s: Id, u: Id)
    | OpCreatePeriod(s: Id, u: Id, x: PeriodInput)
    | OpUpdatePeriod(p: Id, u: Id, x: PeriodInput)
    | OpDeletePeriod(p: Id, u: Id)

  function Apply(db: Db, op: Op): Effect {
    match op
    case OpRegister(email) => Register(db, email)
    case OpSetTimezone(u, tz, zones) => SetTimezone(db, u, tz, zones)
    case OpDeleteUser(u) => DeleteUser(db, u)
    case OpCreateRoom(u, name) => CreateRoom(db, u, name)
    case OpUpdateRoom(r, u, name, t, h) => UpdateRoom(db, r, u, name, t, h)
    case OpDeleteRoom(r, u) => DeleteRoom(db, r, u)
    case OpDesiredState(r, u, row) => UpdateDesiredState(db, r, u, row)
    case OpCreateDevice(u, name, hw, ss, as_) => CreateDevice(db, u, name, hw, ss, as_)
    case OpUpdateDevice(d, u, name, room) => UpdateDevice(db, d, u, name, room)
    case OpDeleteDevice(d, u) => DeleteDevice(db, d, u)
    case OpCreateSchedule(r, u, name) => CreateSchedule(db, r, u, name)
    case OpRenameSchedule(s, u, name) => RenameSchedule(db, s, u, name)
    case OpDeleteSchedule(s, u) => DeleteSchedule(db, s, u)
    case OpActivate(s, u) => Activate(db, s, u)
    case OpDeactivate(s, u) => Deactivate(db, s, u)
    case OpCreatePeriod(s, u, x) => CreatePeriod(db, s, u, x)
    case OpUpdatePeriod(p, u, x) => UpdatePeriod(db, p, u, x)
    case OpDeletePeriod(p, u) => DeletePeriod(db, p, u)
  }

  function Run(db: Db, ops: seq<Op>): Db
    decreases |ops|
  {
    if ops == [] then db else Run(Apply(db, ops[0]).db, ops[1..])
  }

  /** The events of a run, in the order they are sent, and its replies. */
  function SentIn(db: Db, ops: seq<Op>): seq<Event>
    decreases |ops|
  {
    if ops == [] then [] else Apply(db, ops[0]).sent + SentIn(Apply(db, ops[0]).db, ops[1..])
  }

  function RepliesIn(db: Db, ops: seq<Op>): seq<Reply>
    decreases |ops|
  {
    if ops == [] then [] else [Apply(db, ops[0]).reply] + RepliesIn(Apply(db, ops[0]).db, ops[1..])
  }

  /** Every request of the run is accepted. */
  predicate AllDone(db: Db, ops: seq<Op>)
    decreases |ops|
  {
    ops == [] || (Apply(db, ops[0]).reply.Done? && AllDone(Apply(db, ops[0]).db, ops[1..]))
  }
}
