/** Provisioning as a sequence of API calls addressed by name: what each leaves
    true, and why doing a run again, or again after a cut, changes nothing that
    was done. */
module Provisioning {
  import opened Base
  import opened Times
  import opened Tables
  import opened Api
  import opened ApiIntegrity
  import opened ApiCapability

  /** One call of the provisioner, with everything addressed by the keys it
      looks ids up by. */
  datatype Call =
    | EnsureUser(email: string)
    | EnsureRoom(email: string, room: string)
    | EnsureDevice(email: string, name: string, hw: HwId, sensors: seq<Measure>, actuators: seq<ActuatorType>)
    | Assign(email: string, name: string, hw: HwId, room: string)
    | SetDesired(email: string, room: string, targets: Targets)
    | EnsureSchedule(email: string, room: string, schedule: string)
    | EnsurePeriod(email: string, room: string, schedule: string, period: PeriodInput)
    | ActivateSchedule(email: string, room: string, schedule: string)

  /** indefiniteOverride: the last second of the year 9999, in nanoseconds of
      Unix time. */
  const INDEFINITE := 253402300799_000000000

  function DesiredFor(t: Targets): DesiredRow { DesiredRow(Auto, true, t, Some(INDEFINITE)) }

  // ---------------------------------------------------------------------
  // Lookups
  // ---------------------------------------------------------------------

  ghost predicate IsUser(db: Db, u: Id, email: string) { u in db.users && db.users[u].email == email }
  ghost predicate IsRoom(db: Db, r: Id, u: Id, name: string) {
    r in db.rooms && db.rooms[r].user == u && db.rooms[r].name == name
  }
  ghost predicate IsDevice(db: Db, d: Id, u: Id, hw: HwId) {
    d in db.devices && db.devices[d].user == u && db.devices[d].hwId == hw
  }
  ghost predicate IsSchedule(db: Db, s: Id, r: Id, name: string) {
    s in db.schedules && db.schedules[s].room == r && db.schedules[s].name == name
  }

  ghost function UserAt(db: Db, email: string): (o: Option<Id>)
    ensures o.Some? ==> IsUser(db, o.value, email)
    ensures o.None? ==> forall u :: !IsUser(db, u, email)
  {
    if u :| IsUser(db, u, email) then Some(u) else None
  }

  ghost function RoomIn(db: Db, u: Id, name: string): (o: Option<Id>)
    ensures o.Some? ==> IsRoom(db, o.value, u, name)
    ensures o.None? ==> forall r :: !IsRoom(db, r, u, name)
  {
    if r :| IsRoom(db, r, u, name) then Some(r) else None
  }

  ghost function DeviceIn(db: Db, u: Id, hw: HwId): (o: Option<Id>)
    ensures o.Some? ==> IsDevice(db, o.value, u, hw)
    ensures o.None? ==> forall d :: !IsDevice(db, d, u, hw)
  {
    if d :| IsDevice(db, d, u, hw) then Some(d) else None
  }

  ghost function ScheduleIn(db: Db, r: Id, name: string): (o: Option<Id>)
    ensures o.Some? ==> IsSchedule(db, o.value, r, name)
    ensures o.None? ==> forall s :: !IsSchedule(db, s, r, name)
  {
    if s :| IsSchedule(db, s, r, name) then Some(s) else None
  }

  ghost function RoomAt(db: Db, email: string, room: string): Option<Id> {
    var u := UserAt(db, email);
    if u.None? then None else RoomIn(db, u.value, room)
  }

  ghost function DeviceAt(db: Db, email: string, hw: HwId): Option<Id> {
    var u := UserAt(db, email);
    if u.None? then None else DeviceIn(db, u.value, hw)
  }

  ghost function ScheduleAt(db: Db, email: string, room: string, schedule: string): Option<Id> {
    var r := RoomAt(db, email, room);
    if r.None? then None else ScheduleIn(db, r.value, schedule)
  }

  // ---------------------------------------------------------------------
  // One call
  // ---------------------------------------------------------------------

  /** What the call's request does; None if something it needs is not found. */
  ghost function EffectOf(db: Db, c: Call): Option<Effect> {
    var u := UserAt(db, c.email);
    if c.EnsureUser? then Some(Register(db, c.email))
    else if u.None? then None
    else
      match c
      case EnsureUser(_) => None
      case EnsureRoom(_, room) => Some(CreateRoom(db, u.value, room))
      case EnsureDevice(_, name, hw, ss, as_) => Some(CreateDevice(db, u.value, name, hw, ss, as_))
      case Assign(email, name, hw, room) =>
        var d, r := DeviceAt(db, email, hw), RoomAt(db, email, room);
        if d.None? || r.None? then None else Some(UpdateDevice(db, d.value, u.value, name, r))
      case SetDesired(email, room, t) =>
        var r := RoomAt(db, email, room);
        if r.None? then None else Some(UpdateDesiredState(db, r.value, u.value, DesiredFor(t)))
      case EnsureSchedule(email, room, schedule) =>
        var r := RoomAt(db, email, room);
        if r.None? then None else Some(CreateSchedule(db, r.value, u.value, schedule))
      case EnsurePeriod(email, room, schedule, x) =>
        var s := ScheduleAt(db, email, room, schedule);
        if s.None? then None else Some(CreatePeriod(db, s.value, u.value, x))
      case ActivateSchedule(email, room, schedule) =>
        var s := ScheduleAt(db, email, room, schedule);
        if s.None? then None else Some(Activate(db, s.value, u.value))
  }

  /** The refusals the provisioner takes for "already there". A device must
      then be among the user's own. */
  ghost predicate Tolerated(db: Db, c: Call, e: Error) {
    match c
    case EnsureUser(_) => e == EmailTaken
    case EnsureRoom(_, _) => e == NameTaken
    case EnsureDevice(email, _, hw, _, _) =>
      (e == AlreadyOwned || e == HwIdTaken || e == NameTaken) && DeviceAt(db, email, hw).Some?
    case EnsureSchedule(_, _, _) => e == NameTaken
    case EnsurePeriod(_, _, _, _) => e == PeriodOverlap
    case ActivateSchedule(_, _, _) => e == AlreadyActive
    case _ => false
  }

  /** The tables after the call; None when it stops the run. A refused request
      leaves them as they were. */
  ghost function Perform(db: Db, c: Call): Option<Db> {
    var e := EffectOf(db, c);
    if e.None? then None
    else if e.value.reply.Done? || Tolerated(db, c, e.value.reply.error) then Some(e.value.db)
    else None
  }

  /** A run of calls, stopped by the first that fails. */
  ghost function RunCalls(db: Db, plan: seq<Call>): Option<Db> {
    if plan == [] then Some(db)
    else
      var before := RunCalls(db, plan[..|plan| - 1]);
      if before.None? then None else Perform(before.value, plan[|plan| - 1])
  }

  // ---------------------------------------------------------------------
  // What a call leaves true
  // ---------------------------------------------------------------------

  predicate ListsOk(sensors: seq<Measure>, actuators: seq<ActuatorType>) {
    && ListError(sensors, 0, AnyMeasure(), InvalidSensor, DuplicateSensor).None?
    && ListError(actuators, 0, KnownType(), InvalidActuator, DuplicateActuator).None?
  }

  ghost predicate Holds(db: Db, c: Call) {
    match c
    case EnsureUser(email) => UserAt(db, email).Some?
    case EnsureRoom(email, room) => RoomAt(db, email, room).Some?
    case EnsureDevice(email, _, hw, ss, as_) => ListsOk(ss, as_) && DeviceAt(db, email, hw).Some?
    case Assign(email, name, hw, room) =>
      var d, r := DeviceAt(db, email, hw), RoomAt(db, email, room);
      d.Some? && r.Some? && db.devices[d.value].name == name && db.devices[d.value].room == r
    case SetDesired(email, room, t) =>
      var r := RoomAt(db, email, room);
      r.Some? && r.value in db.desired && db.desired[r.value] == DesiredFor(t)
    case EnsureSchedule(email, room, schedule) => ScheduleAt(db, email, room, schedule).Some?
    case EnsurePeriod(email, room, schedule, x) =>
      var s := ScheduleAt(db, email, room, schedule);
      s.Some? && GoodRequest(x) && LexLess(x.start, x.end) && HasOverlap(db, s.value, ToRow(s.value, x), None)
    case ActivateSchedule(email, room, schedule) =>
      var s := ScheduleAt(db, email, room, schedule);
      s.Some? && db.schedules[s.value].active
  }

  /** Rows keep their ids and keys. */
  ghost predicate Grows(db: Db, db': Db) {
    && (forall u :: u in db.users ==> u in db'.users && db'.users[u] == db.users[u])
    && (forall r :: r in db.rooms ==> r in db'.rooms && db'.rooms[r] == db.rooms[r])
    && (forall d :: d in db.devices ==>
          && d in db'.devices && db'.devices[d].user == db.devices[d].user && db'.devices[d].hwId == db.devices[d].hwId
          && db'.devices[d].sensors == db.devices[d].sensors && db'.devices[d].actuators == db.devices[d].actuators)
    && (forall s :: s in db.schedules ==>
          && s in db'.schedules && db'.schedules[s].room == db.schedules[s].room
          && db'.schedules[s].user == db.schedules[s].user && db'.schedules[s].name == db.schedules[s].name)
    && (forall p :: p in db.periods ==> p in db'.periods && db'.periods[p] == db.periods[p])
  }

  lemma GrowsOn(a: Db, b: Db, c: Db)
    requires Grows(a, b) && Grows(b, c)
    ensures Grows(a, c)
  {
  }

  // Lookups by unique key find the same row in a grown database.

  lemma UserOf(db: Db, email: string, email': string)
    requires UserAt(db, email).Some? && UserAt(db, email') == UserAt(db, email)
    ensures email == email'
  {
  }

  lemma UserStays(db: Db, db': Db, email: string)
    requires Grows(db, db') && UniqueBy(db'.users, EmailKey) && UserAt(db, email).Some?
    ensures UserAt(db', email) == UserAt(db, email)
  {
    var u := UserAt(db, email).value;
    assert IsUser(db', u, email);
    var v := UserAt(db', email).value;
    assert EmailKey(db'.users[u]) == EmailKey(db'.users[v]);
  }

  lemma RoomStays(db: Db, db': Db, email: string, room: string)
    requires Grows(db, db') && UniqueKeys(db') && RoomAt(db, email, room).Some?
    ensures RoomAt(db', email, room) == RoomAt(db, email, room)
  {
    UserStays(db, db', email);
    var u, r := UserAt(db, email).value, RoomAt(db, email, room).value;
    assert IsRoom(db', r, u, room);
    var q := RoomIn(db', u, room).value;
    assert RoomKey(db'.rooms[r]) == RoomKey(db'.rooms[q]);
  }

  lemma DeviceStays(db: Db, db': Db, email: string, hw: HwId)
    requires Grows(db, db') && UniqueKeys(db') && DeviceAt(db, email, hw).Some?
    ensures DeviceAt(db', email, hw) == DeviceAt(db, email, hw)
  {
    UserStays(db, db', email);
    var u, d := UserAt(db, email).value, DeviceAt(db, email, hw).value;
    assert IsDevice(db', d, u, hw);
    var e := DeviceIn(db', u, hw).value;
    assert HwKey(db'.devices[d]) == HwKey(db'.devices[e]);
  }

  lemma ScheduleStays(db: Db, db': Db, email: string, room: string, schedule: string)
    requires Grows(db, db') && UniqueKeys(db') && ScheduleAt(db, email, room, schedule).Some?
    ensures ScheduleAt(db', email, room, schedule) == ScheduleAt(db, email, room, schedule)
  {
    RoomStays(db, db', email, room);
    var r, s := RoomAt(db, email, room).value, ScheduleAt(db, email, room, schedule).value;
    assert IsSchedule(db', s, r, schedule);
    var t := ScheduleIn(db', r, schedule).value;
    assert ScheduleKey(db'.schedules[s]) == ScheduleKey(db'.schedules[t]);
  }

  // ---------------------------------------------------------------------
  // Settled calls stay settled
  // ---------------------------------------------------------------------

  /** The states a provisioner meets: valid tables and served targets. */
  ghost predicate Ready(db: Db) {
    Valid(db) && forall r :: r in db.desired ==> DesiredServed(db, r)
  }

  lemma ReadyKept(db: Db, op: Op)
    requires Ready(db)
    ensures Ready(Apply(db, op).db)
  {
    ApplyValid(db, op);
    ApplyServed(db, op, db.schedules.Keys);
  }

  /** Two calls that do not undo each other: a device is assigned one way, a
      room has one desired state and one active schedule. */
  predicate Compatible(c: Call, c': Call) {
    && (c.Assign? && c'.Assign? && c.email == c'.email && c.hw == c'.hw ==> c == c')
    && (c.SetDesired? && c'.SetDesired? && c.email == c'.email && c.room == c'.room ==> c == c')
    && (c.ActivateSchedule? && c'.ActivateSchedule? && c.email == c'.email && c.room == c'.room ==> c == c')
  }

  // Every call is one request of the API: it keeps what requests keep, and
  // only adds rows.

  lemma UserGrows(db: Db, email: string)
    requires IdsBelowNext(db)
    ensures Grows(db, Register(db, email).db)
  {
  }

  lemma RoomGrows(db: Db, u: Id, name: string)
    requires IdsBelowNext(db)
    ensures Grows(db, CreateRoom(db, u, name).db)
  {
  }

  lemma DeviceGrows(db: Db, u: Id, name: string, hw: HwId, ss: seq<Measure>, as_: seq<ActuatorType>)
    requires IdsBelowNext(db)
    ensures Grows(db, CreateDevice(db, u, name, hw, ss, as_).db)
  {
    var e := CreateDevice(db, u, name, hw, ss, as_);
    if e.reply.Done? {
      var row := e.db.devices[db.next];
      assert e.db == db.(devices := db.devices[db.next := row], next := db.next + 1);
    } else {
      assert e.db == db;
    }
  }

  lemma AssignGrows(db: Db, d: Id, u: Id, name: string, room: Option<Id>)
    requires IdsBelowNext(db)
    ensures Grows(db, UpdateDevice(db, d, u, name, room).db)
  {
    var e := UpdateDevice(db, d, u, name, room);
    if e.reply.Done? {
      assert e.db == db.(devices := db.devices[d := db.devices[d].(name := name, room := room)]);
    } else {
      assert e.db == db;
    }
  }

  lemma DesiredGrows(db: Db, r: Id, u: Id, row: DesiredRow)
    requires IdsBelowNext(db)
    ensures Grows(db, UpdateDesiredState(db, r, u, row).db)
  {
  }

  lemma ScheduleGrows(db: Db, r: Id, u: Id, name: string)
    requires IdsBelowNext(db)
    ensures Grows(db, CreateSchedule(db, r, u, name).db)
  {
  }

  lemma PeriodGrows(db: Db, s: Id, u: Id, x: PeriodInput)
    requires IdsBelowNext(db)
    ensures Grows(db, CreatePeriod(db, s, u, x).db)
  {
    var e := CreatePeriod(db, s, u, x);
    if e.reply.Done? {
      assert e.db == db.(periods := db.periods[db.next := ToRow(s, x)], next := db.next + 1);
    } else {
      assert e.db == db;
    }
  }

  lemma ActivateGrows(db: Db, s: Id, u: Id)
    requires IdsBelowNext(db)
    ensures Grows(db, Activate(db, s, u).db)
  {
    var e := Activate(db, s, u);
    assert e.db == db.(schedules := e.db.schedules);
  }

  lemma UserReady(db: Db, email: string)
    requires Ready(db)
    ensures Ready(Register(db, email).db) && Grows(db, Register(db, email).db)
  {
    assert Apply(db, OpRegister(email)) == Register(db, email);
    ReadyKept(db, OpRegister(email));
    UserGrows(db, email);
  }

  lemma RoomReady(db: Db, u: Id, name: string)
    requires Ready(db)
    ensures Ready(CreateRoom(db, u, name).db) && Grows(db, CreateRoom(db, u, name).db)
  {
    assert Apply(db, OpCreateRoom(u, name)) == CreateRoom(db, u, name);
    ReadyKept(db, OpCreateRoom(u, name));
    RoomGrows(db, u, name);
  }

  lemma DeviceReady(db: Db, u: Id, name: string, hw: HwId, ss: seq<Measure>, as_: seq<ActuatorType>)
    requires Ready(db)
    ensures Ready(CreateDevice(db, u, name, hw, ss, as_).db) && Grows(db, CreateDevice(db, u, name, hw, ss, as_).db)
  {
    assert Apply(db, OpCreateDevice(u, name, hw, ss, as_)) == CreateDevice(db, u, name, hw, ss, as_);
    ReadyKept(db, OpCreateDevice(u, name, hw, ss, as_));
    DeviceGrows(db, u, name, hw, ss, as_);
  }

  lemma AssignReady(db: Db, d: Id, u: Id, name: string, room: Option<Id>)
    requires Ready(db)
    ensures Ready(UpdateDevice(db, d, u, name, room).db) && Grows(db, UpdateDevice(db, d, u, name, room).db)
  {
    assert Apply(db, OpUpdateDevice(d, u, name, room)) == UpdateDevice(db, d, u, name, room);
    ReadyKept(db, OpUpdateDevice(d, u, name, room));
    AssignGrows(db, d, u, name, room);
  }

  lemma DesiredReady(db: Db, r: Id, u: Id, row: DesiredRow)
    requires Ready(db)
    ensures Ready(UpdateDesiredState(db, r, u, row).db) && Grows(db, UpdateDesiredState(db, r, u, row).db)
  {
    assert Apply(db, OpDesiredState(r, u, row)) == UpdateDesiredState(db, r, u, row);
    ReadyKept(db, OpDesiredState(r, u, row));
    DesiredGrows(db, r, u, row);
  }

  lemma ScheduleReady(db: Db, r: Id, u: Id, name: string)
    requires Ready(db)
    ensures Ready(CreateSchedule(db, r, u, name).db) && Grows(db, CreateSchedule(db, r, u, name).db)
  {
    assert Apply(db, OpCreateSchedule(r, u, name)) == CreateSchedule(db, r, u, name);
    ReadyKept(db, OpCreateSchedule(r, u, name));
    ScheduleGrows(db, r, u, name);
  }

  lemma PeriodReady(db: Db, s: Id, u: Id, x: PeriodInput)
    requires Ready(db)
    ensures Ready(CreatePeriod(db, s, u, x).db) && Grows(db, CreatePeriod(db, s, u, x).db)
  {
    assert Apply(db, OpCreatePeriod(s, u, x)) == CreatePeriod(db, s, u, x);
    ReadyKept(db, OpCreatePeriod(s, u, x));
    PeriodGrows(db, s, u, x);
  }

  lemma ActivateReady(db: Db, s: Id, u: Id)
    requires Ready(db)
    ensures Ready(Activate(db, s, u).db) && Grows(db, Activate(db, s, u).db)
  {
    assert Apply(db, OpActivate(s, u)) == Activate(db, s, u);
    ReadyKept(db, OpActivate(s, u));
    ActivateGrows(db, s, u);
  }

  // What each request leaves behind when the provisioner goes on after it.

  lemma RegisterLeaves(db: Db, email: string)
    ensures UserAt(Register(db, email).db, email).Some?
  {
    var d := Register(db, email).db;
    if u :| u in db.users && db.users[u].email == email {
      assert IsUser(d, u, email);
    } else {
      assert IsUser(d, db.next, email);
    }
  }

  lemma RoomLeaves(db: Db, u: Id, name: string)
    requires CreateRoom(db, u, name).reply.Done? || CreateRoom(db, u, name).reply.error == NameTaken
    ensures RoomIn(CreateRoom(db, u, name).db, u, name).Some?
  {
    var d := CreateRoom(db, u, name).db;
    if r :| r in db.rooms && db.rooms[r].user == u && db.rooms[r].name == name {
      assert IsRoom(d, r, u, name);
    } else {
      assert IsRoom(d, db.next, u, name);
    }
  }

  lemma ScheduleLeaves(db: Db, r: Id, u: Id, name: string)
    requires CreateSchedule(db, r, u, name).reply.Done? || CreateSchedule(db, r, u, name).reply.error == NameTaken
    ensures ScheduleIn(CreateSchedule(db, r, u, name).db, r, name).Some?
  {
    var d := CreateSchedule(db, r, u, name).db;
    if s :| s in db.schedules && db.schedules[s].room == r && db.schedules[s].name == name {
      assert IsSchedule(d, s, r, name);
    } else {
      assert IsSchedule(d, db.next, r, name);
    }
  }

  lemma DeviceLeaves(db: Db, u: Id, name: string, hw: HwId, ss: seq<Measure>, as_: seq<ActuatorType>)
    requires var reply := CreateDevice(db, u, name, hw, ss, as_).reply;
      reply.Done? || reply.error == AlreadyOwned || reply.error == HwIdTaken || reply.error == NameTaken
    ensures ListsOk(ss, as_)
    ensures CreateDevice(db, u, name, hw, ss, as_).reply.Done? ==> IsDevice(CreateDevice(db, u, name, hw, ss, as_).db, db.next, u, hw)
  {
    ListErrors(ss, 0, AnyMeasure(), InvalidSensor, DuplicateSensor);
    ListErrors(as_, 0, KnownType(), InvalidActuator, DuplicateActuator);
  }

  lemma ListErrors<T>(s: seq<T>, i: nat, known: T -> bool, invalid: Error, duplicate: Error)
    requires i <= |s|
    ensures var e := ListError(s, i, known, invalid, duplicate); e == None || e == Some(invalid) || e == Some(duplicate)
    decreases |s| - i
  {
  }

  lemma SelfClash(row: PeriodRow)
    requires row.days != {} && LexLess(row.start, row.end)
    ensures Clash(row, row)
  {
  }

  lemma PeriodLeaves(db: Db, s: Id, u: Id, x: PeriodInput)
    requires IdsBelowNext(db)
    requires CreatePeriod(db, s, u, x).reply.Done? || CreatePeriod(db, s, u, x).reply.error == PeriodOverlap
    ensures GoodRequest(x) && LexLess(x.start, x.end) && HasOverlap(CreatePeriod(db, s, u, x).db, s, ToRow(s, x), None)
  {
    var d, row := CreatePeriod(db, s, u, x).db, ToRow(s, x);
    if CreatePeriod(db, s, u, x).reply.Done? {
      assert x.days[0] in row.days;
      SelfClash(row);
      assert d.periods[db.next] == row;
    }
  }

  lemma AssignLeaves(db: Db, d: Id, u: Id, name: string, room: Option<Id>)
    requires UpdateDevice(db, d, u, name, room).reply.Done?
    ensures var db' := UpdateDevice(db, d, u, name, room).db;
      d in db'.devices && db'.devices[d].name == name && db'.devices[d].room == room
  {
  }

  lemma ActivateLeaves(db: Db, s: Id, u: Id)
    requires Activate(db, s, u).reply.Done? || Activate(db, s, u).reply.error == AlreadyActive
    ensures var db' := Activate(db, s, u).db; s in db'.schedules && db'.schedules[s].active
  {
  }

  // A call the run goes on after holds.

  lemma UserSettles(db: Db, c: Call)
    requires c.EnsureUser? && Ready(db) && Perform(db, c).Some?
    ensures var d := Perform(db, c).value; Ready(d) && Grows(db, d) && Holds(d, c)
  {
    UserReady(db, c.email);
    RegisterLeaves(db, c.email);
  }

  lemma RoomSettles(db: Db, c: Call)
    requires c.EnsureRoom? && Ready(db) && Perform(db, c).Some?
    ensures var d := Perform(db, c).value; Ready(d) && Grows(db, d) && Holds(d, c)
  {
    var u := UserAt(db, c.email).value;
    RoomReady(db, u, c.room);
    UserStays(db, Perform(db, c).value, c.email);
    RoomLeaves(db, u, c.room);
  }

  lemma DeviceSettles(db: Db, c: Call)
    requires c.EnsureDevice? && Ready(db) && Perform(db, c).Some?
    ensures var d := Perform(db, c).value; Ready(d) && Grows(db, d) && Holds(d, c)
  {
    var u, d := UserAt(db, c.email).value, Perform(db, c).value;
    DeviceReady(db, u, c.name, c.hw, c.sensors, c.actuators);
    UserStays(db, d, c.email);
    DeviceLeaves(db, u, c.name, c.hw, c.sensors, c.actuators);
    if DeviceAt(db, c.email, c.hw).Some? { DeviceStays(db, d, c.email, c.hw); }
  }

  lemma AssignSettles(db: Db, c: Call)
    requires c.Assign? && Ready(db) && Perform(db, c).Some?
    ensures var d := Perform(db, c).value; Ready(d) && Grows(db, d) && Holds(d, c)
  {
    var e := EffectOf(db, c).value;
    var dev, u, room := DeviceAt(db, c.email, c.hw).value, UserAt(db, c.email).value, RoomAt(db, c.email, c.room);
    assert e == UpdateDevice(db, dev, u, c.name, room);
    AssignReady(db, dev, u, c.name, room);
    AssignLeaves(db, dev, u, c.name, room);
    AssignHolds(db, e.db, c);
  }

  lemma AssignHolds(db: Db, db': Db, c: Call)
    requires c.Assign? && UniqueKeys(db') && Grows(db, db')
    requires DeviceAt(db, c.email, c.hw).Some? && RoomAt(db, c.email, c.room).Some?
    requires var d := DeviceAt(db, c.email, c.hw).value;
      d in db'.devices && db'.devices[d].name == c.name && db'.devices[d].room == RoomAt(db, c.email, c.room)
    ensures Holds(db', c)
  {
    DeviceStays(db, db', c.email, c.hw);
    RoomStays(db, db', c.email, c.room);
  }

  lemma DesiredSettles(db: Db, c: Call)
    requires c.SetDesired? && Ready(db) && Perform(db, c).Some?
    ensures var d := Perform(db, c).value; Ready(d) && Grows(db, d) && Holds(d, c)
  {
    DesiredReady(db, RoomAt(db, c.email, c.room).value, UserAt(db, c.email).value, DesiredFor(c.targets));
    RoomStays(db, Perform(db, c).value, c.email, c.room);
  }

  lemma ScheduleSettles(db: Db, c: Call)
    requires c.EnsureSchedule? && Ready(db) && Perform(db, c).Some?
    ensures var d := Perform(db, c).value; Ready(d) && Grows(db, d) && Holds(d, c)
  {
    var r, u := RoomAt(db, c.email, c.room).value, UserAt(db, c.email).value;
    ScheduleReady(db, r, u, c.schedule);
    RoomStays(db, Perform(db, c).value, c.email, c.room);
    ScheduleLeaves(db, r, u, c.schedule);
  }

  lemma PeriodSettles(db: Db, c: Call)
    requires c.EnsurePeriod? && Ready(db) && Perform(db, c).Some?
    ensures var d := Perform(db, c).value; Ready(d) && Grows(db, d) && Holds(d, c)
  {
    var s, u := ScheduleAt(db, c.email, c.room, c.schedule).value, UserAt(db, c.email).value;
    PeriodReady(db, s, u, c.period);
    ScheduleStays(db, Perform(db, c).value, c.email, c.room, c.schedule);
    PeriodLeaves(db, s, u, c.period);
  }

  lemma ActivateSettles(db: Db, c: Call)
    requires c.ActivateSchedule? && Ready(db) && Perform(db, c).Some?
    ensures var d := Perform(db, c).value; Ready(d) && Grows(db, d) && Holds(d, c)
  {
    var e := EffectOf(db, c).value;
    var s, u := ScheduleAt(db, c.email, c.room, c.schedule).value, UserAt(db, c.email).value;
    assert e == Activate(db, s, u);
    ActivateReady(db, s, u);
    ActivateLeaves(db, s, u);
    ActivateHolds(db, e.db, c);
  }

  lemma ActivateHolds(db: Db, db': Db, c: Call)
    requires c.ActivateSchedule? && UniqueKeys(db') && Grows(db, db')
    requires ScheduleAt(db, c.email, c.room, c.schedule).Some?
    requires var s := ScheduleAt(db, c.email, c.room, c.schedule).value; s in db'.schedules && db'.schedules[s].active
    ensures Holds(db', c)
  {
    ScheduleStays(db, db', c.email, c.room, c.schedule);
  }

  lemma Settles(db: Db, c: Call)
    requires Ready(db) && Perform(db, c).Some?
    ensures var d := Perform(db, c).value; Ready(d) && Grows(db, d) && Holds(d, c)
  {
    match c
    case EnsureUser(_) => UserSettles(db, c);
    case EnsureRoom(_, _) => RoomSettles(db, c);
    case EnsureDevice(_, _, _, _, _) => DeviceSettles(db, c);
    case Assign(_, _, _, _) => AssignSettles(db, c);
    case SetDesired(_, _, _) => DesiredSettles(db, c);
    case EnsureSchedule(_, _, _) => ScheduleSettles(db, c);
    case EnsurePeriod(_, _, _, _) => PeriodSettles(db, c);
    case ActivateSchedule(_, _, _) => ActivateSettles(db, c);
  }

  // What holds keeps holding.

  lemma DeviceKept(db: Db, c: Call, x: Id)
    requires IdsBelowNext(db) && x in db.devices && Perform(db, c).Some?
    requires !(c.Assign? && DeviceAt(db, c.email, c.hw) == Some(x))
    ensures x in Perform(db, c).value.devices && Perform(db, c).value.devices[x] == db.devices[x]
  {
  }

  lemma DesiredKept(db: Db, c: Call, r: Id)
    requires IdsBelowNext(db) && r in db.rooms && r in db.desired && Perform(db, c).Some?
    requires !(c.SetDesired? && RoomAt(db, c.email, c.room) == Some(r))
    ensures r in Perform(db, c).value.desired && Perform(db, c).value.desired[r] == db.desired[r]
  {
  }

  lemma ActiveKept(db: Db, c: Call, s: Id)
    requires IdsBelowNext(db) && s in db.schedules && db.schedules[s].active && Perform(db, c).Some?
    requires !(c.ActivateSchedule? && RoomAt(db, c.email, c.room) == Some(db.schedules[s].room))
    ensures s in Perform(db, c).value.schedules && Perform(db, c).value.schedules[s].active
  {
  }

  lemma SameDevice(db: Db, c: Call, c': Call)
    requires c.Assign? && c'.Assign? && DeviceAt(db, c.email, c.hw).Some?
    requires DeviceAt(db, c'.email, c'.hw) == DeviceAt(db, c.email, c.hw)
    ensures c.email == c'.email && c.hw == c'.hw
  {
  }

  lemma SameRoom(db: Db, email: string, room: string, email': string, room': string)
    requires RoomAt(db, email, room).Some? && RoomAt(db, email', room') == RoomAt(db, email, room)
    ensures email == email' && room == room'
  {
  }

  lemma LookupKept(db: Db, db': Db, c: Call)
    requires UniqueKeys(db') && Grows(db, db') && Holds(db, c)
    requires c.EnsureUser? || c.EnsureRoom? || c.EnsureDevice? || c.EnsureSchedule?
    ensures Holds(db', c)
  {
    match c
    case EnsureUser(email) => UserStays(db, db', email);
    case EnsureRoom(email, room) => RoomStays(db, db', email, room);
    case EnsureDevice(email, _, hw, _, _) => DeviceStays(db, db', email, hw);
    case EnsureSchedule(email, room, schedule) => ScheduleStays(db, db', email, room, schedule);
  }

  lemma PeriodKept(db: Db, db': Db, c: Call)
    requires UniqueKeys(db') && Grows(db, db') && Holds(db, c) && c.EnsurePeriod?
    ensures Holds(db', c)
  {
    ScheduleStays(db, db', c.email, c.room, c.schedule);
    var s := ScheduleAt(db, c.email, c.room, c.schedule).value;
    var row := ToRow(s, c.period);
    var p :| p in db.periods && db.periods[p].schedule == s && Clash(db.periods[p], row);
    assert p in db'.periods && db'.periods[p] == db.periods[p];
  }

  lemma DesiredHolds(db: Db, db': Db, c: Call)
    requires c.SetDesired? && UniqueKeys(db') && Grows(db, db') && RoomAt(db, c.email, c.room).Some?
    requires var r := RoomAt(db, c.email, c.room).value; r in db'.desired && db'.desired[r] == DesiredFor(c.targets)
    ensures Holds(db', c)
  {
    RoomStays(db, db', c.email, c.room);
  }

  lemma AssignKept(db: Db, c: Call, c': Call, d: Db)
    requires IdsBelowNext(db) && c.Assign? && Holds(db, c) && Compatible(c, c') && Perform(db, c') == Some(d)
    requires UniqueKeys(d) && Grows(db, d) && Holds(d, c')
    ensures Holds(d, c)
  {
    if c'.Assign? && DeviceAt(db, c'.email, c'.hw) == DeviceAt(db, c.email, c.hw) {
      SameDevice(db, c, c');
    } else {
      DeviceKept(db, c', DeviceAt(db, c.email, c.hw).value);
      AssignHolds(db, d, c);
    }
  }

  lemma SetDesiredKept(db: Db, c: Call, c': Call, d: Db)
    requires IdsBelowNext(db) && c.SetDesired? && Holds(db, c) && Compatible(c, c') && Perform(db, c') == Some(d)
    requires UniqueKeys(d) && Grows(db, d) && Holds(d, c')
    ensures Holds(d, c)
  {
    if c'.SetDesired? && RoomAt(db, c'.email, c'.room) == RoomAt(db, c.email, c.room) {
      SameRoom(db, c.email, c.room, c'.email, c'.room);
    } else {
      DesiredKept(db, c', RoomAt(db, c.email, c.room).value);
      DesiredHolds(db, d, c);
    }
  }

  lemma ActivateKept(db: Db, c: Call, c': Call, d: Db)
    requires IdsBelowNext(db) && c.ActivateSchedule? && Holds(db, c) && Compatible(c, c') && Perform(db, c') == Some(d)
    requires UniqueKeys(d) && Grows(db, d) && Holds(d, c')
    ensures Holds(d, c)
  {
    if c'.ActivateSchedule? && RoomAt(db, c'.email, c'.room) == RoomAt(db, c.email, c.room) {
      SameRoom(db, c.email, c.room, c'.email, c'.room);
    } else {
      ActiveKept(db, c', ScheduleAt(db, c.email, c.room, c.schedule).value);
      ActivateHolds(db, d, c);
    }
  }

  /** No compatible call undoes what holds. */
  lemma HoldsKept(db: Db, c: Call, c': Call)
    requires Ready(db) && Holds(db, c) && Compatible(c, c') && Perform(db, c').Some?
    ensures Holds(Perform(db, c').value, c)
  {
    Settles(db, c');
    KeptIn(db, c, c', Perform(db, c').value);
  }

  lemma KeptIn(db: Db, c: Call, c': Call, d: Db)
    requires IdsBelowNext(db) && Holds(db, c) && Compatible(c, c') && Perform(db, c') == Some(d)
    requires UniqueKeys(d) && Grows(db, d) && Holds(d, c')
    ensures Holds(d, c)
  {
    match c
    case EnsurePeriod(_, _, _, _) => PeriodKept(db, d, c);
    case Assign(_, _, _, _) => AssignKept(db, c, c', d);
    case SetDesired(_, _, _) => SetDesiredKept(db, c, c', d);
    case ActivateSchedule(_, _, _) => ActivateKept(db, c, c', d);
    case _ => LookupKept(db, d, c);
  }

  // What holds is not done again.

  lemma CreationNoOp(db: Db, c: Call)
    requires Holds(db, c) && (c.EnsureUser? || c.EnsureRoom?)
    ensures Perform(db, c) == Some(db)
  {
    match c
    case EnsureUser(email) => assert UserAt(db, email).value in db.users;
    case EnsureRoom(email, room) => assert RoomAt(db, email, room).value in db.rooms;
  }

  lemma DeviceNoOp(db: Db, c: Call)
    requires Holds(db, c) && c.EnsureDevice?
    ensures Perform(db, c) == Some(db)
  {
    assert DeviceAt(db, c.email, c.hw).value in db.devices;
  }

  lemma AssignNoOp(db: Db, c: Call)
    requires References(db) && UniqueKeys(db) && Holds(db, c) && c.Assign?
    ensures Perform(db, c) == Some(db)
  {
    var d := DeviceAt(db, c.email, c.hw).value;
    forall e | e in db.devices && e != d ensures DeviceKey(db.devices[e]) != DeviceKey(db.devices[d]) {}
    var row := db.devices[d];
    assert row.(name := c.name, room := RoomAt(db, c.email, c.room)) == row;
    assert db.devices[d := row] == db.devices;
  }

  lemma DesiredNoOp(db: Db, c: Call)
    requires Ready(db) && Holds(db, c) && c.SetDesired?
    ensures Perform(db, c) == Some(db)
  {
    var r := RoomAt(db, c.email, c.room).value;
    assert DesiredServed(db, r);
    assert db.desired[r := DesiredFor(c.targets)] == db.desired;
  }

  lemma ScheduleNoOp(db: Db, c: Call)
    requires ScheduleRefs(db.schedules, db.rooms) && Holds(db, c)
    requires c.EnsureSchedule? || c.ActivateSchedule?
    ensures Perform(db, c) == Some(db)
  {
    assert ScheduleAt(db, c.email, c.room, c.schedule).value in db.schedules;
  }

  lemma PeriodNoOp(db: Db, c: Call)
    requires ScheduleRefs(db.schedules, db.rooms) && Holds(db, c) && c.EnsurePeriod?
    ensures Perform(db, c) == Some(db)
  {
  }

  /** A call that already holds changes nothing and does not stop the run. */
  lemma NotDoneAgain(db: Db, c: Call)
    requires Ready(db) && Holds(db, c)
    ensures Perform(db, c) == Some(db)
  {
    match c
    case EnsureDevice(_, _, _, _, _) => DeviceNoOp(db, c);
    case Assign(_, _, _, _) => AssignNoOp(db, c);
    case SetDesired(_, _, _) => DesiredNoOp(db, c);
    case EnsureSchedule(_, _, _) => ScheduleNoOp(db, c);
    case EnsurePeriod(_, _, _, _) => PeriodNoOp(db, c);
    case ActivateSchedule(_, _, _) => ScheduleNoOp(db, c);
    case _ => CreationNoOp(db, c);
  }

  // ---------------------------------------------------------------------
  // Runs
  // ---------------------------------------------------------------------

  ghost predicate CompatiblePlan(plan: seq<Call>) {
    forall i, j :: 0 <= i < |plan| && 0 <= j < |plan| ==> Compatible(plan[i], plan[j])
  }

  ghost predicate AllHold(db: Db, plan: seq<Call>) { forall i :: 0 <= i < |plan| ==> Holds(db, plan[i]) }

  lemma OneMoreHolds(db: Db, plan: seq<Call>, c: Call)
    requires Ready(db) && AllHold(db, plan) && Perform(db, c).Some?
    requires forall i :: 0 <= i < |plan| ==> Compatible(plan[i], c)
    ensures Ready(Perform(db, c).value) && AllHold(Perform(db, c).value, plan + [c])
  {
    Settles(db, c);
    forall i | 0 <= i < |plan| ensures Holds(Perform(db, c).value, plan[i]) { HoldsKept(db, plan[i], c); }
  }

  lemma {:induction false} RunHolds(db: Db, plan: seq<Call>)
    requires Ready(db) && CompatiblePlan(plan) && RunCalls(db, plan).Some?
    ensures Ready(RunCalls(db, plan).value) && AllHold(RunCalls(db, plan).value, plan)
  {
    if plan != [] {
      var n := |plan| - 1;
      RunHolds(db, plan[..n]);
      OneMoreHolds(RunCalls(db, plan[..n]).value, plan[..n], plan[n]);
      assert plan == plan[..n] + [plan[n]];
    }
  }

  lemma {:induction false} RunGrows(db: Db, plan: seq<Call>)
    requires Ready(db) && RunCalls(db, plan).Some?
    ensures Ready(RunCalls(db, plan).value) && Grows(db, RunCalls(db, plan).value)
  {
    if plan != [] {
      var n := |plan| - 1;
      RunGrows(db, plan[..n]);
      Settles(RunCalls(db, plan[..n]).value, plan[n]);
      GrowsOn(db, RunCalls(db, plan[..n]).value, RunCalls(db, plan).value);
    }
  }

  lemma {:induction false} HeldRunIsNoOp(db: Db, plan: seq<Call>)
    requires Ready(db) && AllHold(db, plan)
    ensures RunCalls(db, plan) == Some(db)
  {
    if plan != [] {
      HeldRunIsNoOp(db, plan[..|plan| - 1]);
      NotDoneAgain(db, plan[|plan| - 1]);
    }
  }

  lemma {:induction false} RunConcat(db: Db, a: seq<Call>, b: seq<Call>)
    ensures RunCalls(db, a + b) == if RunCalls(db, a).None? then None else RunCalls(RunCalls(db, a).value, b)
  {
    if b == [] {
      assert a + b == a;
    } else {
      RunConcat(db, a, b[..|b| - 1]);
      assert (a + b)[..|a + b| - 1] == a + b[..|b| - 1];
    }
  }

  /** Resumable: a run cut after any call, done again from the start, ends as
      the uncut run would have, in the same tables or at the same failure. */
  lemma Resumable(db: Db, plan: seq<Call>, k: nat)
    requires Ready(db) && CompatiblePlan(plan) && k <= |plan| && RunCalls(db, plan[..k]).Some?
    ensures RunCalls(RunCalls(db, plan[..k]).value, plan) == RunCalls(db, plan)
  {
    var done, rest := plan[..k], plan[k..];
    var m := RunCalls(db, done).value;
    assert plan == done + rest;
    PrefixRepeats(db, plan, k);
    RunConcat(m, done, rest);
    RunConcat(db, done, rest);
  }

  lemma PrefixRepeats(db: Db, plan: seq<Call>, k: nat)
    requires Ready(db) && CompatiblePlan(plan) && k <= |plan| && RunCalls(db, plan[..k]).Some?
    ensures RunCalls(RunCalls(db, plan[..k]).value, plan[..k]) == RunCalls(db, plan[..k])
  {
    var done := plan[..k];
    assert CompatiblePlan(done);
    RunHolds(db, done);
    HeldRunIsNoOp(RunCalls(db, done).value, done);
  }

  /** Idempotent: after a complete run, another changes nothing. */
  lemma Idempotent(db: Db, plan: seq<Call>)
    requires Ready(db) && CompatiblePlan(plan) && RunCalls(db, plan).Some?
    ensures RunCalls(RunCalls(db, plan).value, plan) == RunCalls(db, plan)
  {
    assert plan[..|plan|] == plan;
    Resumable(db, plan, |plan|);
  }
}
