/** The provisioner's loops against the API service: a successful run has made
    exactly the planned calls, a failed one those before the call that stops
    every run; and what a run hands over. */
module Provisioner {
  import opened Base
  import opened Tables
  import opened Api
  import opened ApiService
  import opened Identity
  import opened Provisioning
  import opened ProvisionPlan
  import opened Provisioned

  // ---------------------------------------------------------------------
  // Calls made so far
  // ---------------------------------------------------------------------

  /** Of the `plan`, the calls `made` took the tables from `start` to `d`: all
      of them if `ok`; otherwise a first part, and the whole cannot be made. */
  ghost predicate Went(start: Db, plan: seq<Call>, ok: bool, made: seq<Call>, d: Db) {
    && made <= plan && RunCalls(start, made) == Some(d)
    && if ok then made == plan else RunCalls(start, plan).None?
  }

  lemma WentOne(start: Db, done: seq<Call>, m: Db, c: Call, ok: bool, d: Db)
    requires RunCalls(start, done) == Some(m)
    requires Perform(m, c) == (if ok then Some(d) else None) && (!ok ==> d == m)
    ensures Went(start, done + [c], ok, if ok then done + [c] else done, d)
  {
    assert (done + [c])[..|done|] == done;
  }

  lemma StopsLonger(start: Db, plan: seq<Call>, more: seq<Call>)
    requires RunCalls(start, plan).None?
    ensures RunCalls(start, plan + more).None?
  {
    RunConcat(start, plan, more);
  }

  lemma Regroup(a: seq<Call>, b: seq<Call>, c: seq<Call>)
    ensures a + b + c == a + (b + c) && a + b <= a + (b + c)
  {
  }

  /** What stops in `a` never gets to `b`. */
  lemma WentNotOn(start: Db, done: seq<Call>, a: seq<Call>, made: seq<Call>, d: Db, b: seq<Call>)
    requires Went(start, done + a, false, made, d)
    ensures Went(start, done + (a + b), false, made, d)
  {
    StopsLonger(start, done + a, b);
    Regroup(done, a, b);
  }

  /** First `a`, then `b`. */
  lemma WentOn(start: Db, done: seq<Call>, a: seq<Call>, b: seq<Call>, ok: bool, made: seq<Call>, d: Db)
    requires Went(start, done + a + b, ok, made, d)
    ensures Went(start, done + (a + b), ok, made, d)
  {
    Regroup(done, a, b);
  }

  /** Later states of a run, after more of its calls. */
  lemma LaterGrows(start: Db, done: seq<Call>, m: Db, made: seq<Call>, d: Db)
    requires Ready(start) && RunCalls(start, done) == Some(m) && RunCalls(start, made) == Some(d) && done <= made
    ensures Ready(d) && Grows(m, d)
  {
    assert made == done + made[|done|..];
    RunConcat(start, done, made[|done|..]);
    RunGrows(start, done);
    RunGrows(m, made[|done|..]);
  }

  // ---------------------------------------------------------------------
  // A user's session
  // ---------------------------------------------------------------------

  /** A logged-in user with the listings taken at the start: room ids by name,
      device ids by hardware id. */
  datatype Login = Login(email: string, u: Id, rooms: map<string, Id>, devices: map<HwId, Id>)

  function Lookup<K>(m: map<K, Id>, k: K): Option<Id> { if k in m then Some(m[k]) else None }

  /** The listings are complete and right. */
  ghost predicate Session(start: Db, l: Login) {
    && Ready(start) && UserAt(start, l.email) == Some(l.u)
    && (forall n :: RoomIn(start, l.u, n) == Lookup(l.rooms, n))
    && (forall h :: DeviceIn(start, l.u, h) == Lookup(l.devices, h))
  }

  /** What later states still have of it: the ids listed are the right ones. */
  ghost predicate Current(db: Db, l: Login) {
    && Ready(db) && UserAt(db, l.email) == Some(l.u)
    && (forall n :: n in l.rooms ==> RoomIn(db, l.u, n) == Some(l.rooms[n]))
    && (forall h :: h in l.devices ==> DeviceIn(db, l.u, h) == Some(l.devices[h]))
  }

  lemma StillLoggedIn(start: Db, l: Login, done: seq<Call>, d: Db)
    requires Session(start, l) && RunCalls(start, done) == Some(d)
    ensures UserAt(d, l.email) == Some(l.u)
  {
    RunGrows(start, done);
    UserStays(start, d, l.email);
  }

  lemma SessionNow(start: Db, l: Login, done: seq<Call>, d: Db)
    requires Session(start, l) && RunCalls(start, done) == Some(d)
    ensures Current(d, l)
  {
    RunGrows(start, done);
    UserStays(start, d, l.email);
    forall n | n in l.rooms ensures RoomIn(d, l.u, n) == Some(l.rooms[n]) { RoomStays(start, d, l.email, n); }
    forall h | h in l.devices ensures DeviceIn(d, l.u, h) == Some(l.devices[h]) { DeviceStays(start, d, l.email, h); }
  }

  predicate MakesRoom(c: Call, email: string, room: string) { c.EnsureRoom? && c.email == email && c.room == room }
  predicate MakesDevice(c: Call, email: string, hw: HwId) { c.EnsureDevice? && c.email == email && c.hw == hw }

  /** Only the room's own call brings the room about. */
  lemma RoomMadeBy(db: Db, c: Call, d: Db, email: string, room: string)
    requires Ready(db) && Perform(db, c) == Some(d) && UserAt(db, email).Some? && !MakesRoom(c, email, room)
    ensures RoomAt(d, email, room) == RoomAt(db, email, room)
  {
    Settles(db, c);
    UserStays(db, d, email);
    if RoomAt(db, email, room).Some? {
      RoomStays(db, d, email, room);
    } else if RoomAt(d, email, room).Some? {
      NewRoom(db, c, d, RoomAt(d, email, room).value);
      UserOf(db, email, c.email);
    }
  }

  lemma NewRoom(db: Db, c: Call, d: Db, r: Id)
    requires Perform(db, c) == Some(d) && r in d.rooms && (r in db.rooms ==> !IsRoom(db, r, d.rooms[r].user, d.rooms[r].name))
    ensures c.EnsureRoom? && UserAt(db, c.email) == Some(d.rooms[r].user) && c.room == d.rooms[r].name
  {
  }

  lemma DeviceMadeBy(db: Db, c: Call, d: Db, email: string, hw: HwId)
    requires Ready(db) && Perform(db, c) == Some(d) && UserAt(db, email).Some? && !MakesDevice(c, email, hw)
    ensures DeviceAt(d, email, hw) == DeviceAt(db, email, hw)
  {
    Settles(db, c);
    UserStays(db, d, email);
    if DeviceAt(db, email, hw).Some? {
      DeviceStays(db, d, email, hw);
    } else if DeviceAt(d, email, hw).Some? {
      NewDevice(db, c, d, DeviceAt(d, email, hw).value);
      UserOf(db, email, c.email);
    }
  }

  lemma NewDevice(db: Db, c: Call, d: Db, x: Id)
    requires Perform(db, c) == Some(d) && x in d.devices && (x in db.devices ==> !IsDevice(db, x, d.devices[x].user, d.devices[x].hwId))
    ensures c.EnsureDevice? && UserAt(db, c.email) == Some(d.devices[x].user) && c.hw == d.devices[x].hwId
  {
  }

  ghost predicate NoRoom(calls: seq<Call>, email: string, room: string) {
    forall i :: 0 <= i < |calls| ==> !MakesRoom(calls[i], email, room)
  }

  ghost predicate NoDevice(calls: seq<Call>, email: string, hw: HwId) {
    forall i :: 0 <= i < |calls| ==> !MakesDevice(calls[i], email, hw)
  }

  lemma {:induction false} RoomNotMade(db: Db, calls: seq<Call>, email: string, room: string)
    requires Ready(db) && UserAt(db, email).Some? && RunCalls(db, calls).Some? && NoRoom(calls, email, room)
    ensures RoomAt(RunCalls(db, calls).value, email, room) == RoomAt(db, email, room)
  {
    if calls != [] {
      var n := |calls| - 1;
      var m := RunCalls(db, calls[..n]).value;
      RunGrows(db, calls[..n]);
      UserStays(db, m, email);
      RoomNotMade(db, calls[..n], email, room);
      RoomMadeBy(m, calls[n], RunCalls(db, calls).value, email, room);
    }
  }

  lemma {:induction false} DeviceNotMade(db: Db, calls: seq<Call>, email: string, hw: HwId)
    requires Ready(db) && UserAt(db, email).Some? && RunCalls(db, calls).Some? && NoDevice(calls, email, hw)
    ensures DeviceAt(RunCalls(db, calls).value, email, hw) == DeviceAt(db, email, hw)
  {
    if calls != [] {
      var n := |calls| - 1;
      var m := RunCalls(db, calls[..n]).value;
      RunGrows(db, calls[..n]);
      UserStays(db, m, email);
      DeviceNotMade(db, calls[..n], email, hw);
      DeviceMadeBy(m, calls[n], RunCalls(db, calls).value, email, hw);
    }
  }

  /** A room the user has now, and did not make since login, is listed. */
  lemma RoomStillListed(start: Db, l: Login, done: seq<Call>, d: Db, room: string)
    requires Session(start, l) && RunCalls(start, done) == Some(d) && NoRoom(done, l.email, room)
    ensures RoomAt(d, l.email, room).Some? ==> room in l.rooms
  {
    RoomNotMade(start, done, l.email, room);
    assert RoomAt(start, l.email, room) == Lookup(l.rooms, room);
  }

  lemma DeviceStillListed(start: Db, l: Login, done: seq<Call>, d: Db, hw: HwId)
    requires Session(start, l) && RunCalls(start, done) == Some(d) && NoDevice(done, l.email, hw)
    ensures DeviceAt(d, l.email, hw).Some? ==> hw in l.devices
  {
    DeviceNotMade(start, done, l.email, hw);
    assert DeviceAt(start, l.email, hw) == Lookup(l.devices, hw);
  }

  // What the calls of a plan make.

  lemma {:induction false} NoRoomFlat(parts: seq<seq<Call>>, email: string, room: string)
    requires forall i :: 0 <= i < |parts| ==> NoRoom(parts[i], email, room)
    ensures NoRoom(Flat(parts), email, room)
  {
    if parts != [] {
      var n := |parts| - 1;
      NoRoomFlat(parts[..n], email, room);
      NoRoomConcat(Flat(parts[..n]), parts[n], email, room);
    }
  }

  lemma {:induction false} NoDeviceFlat(parts: seq<seq<Call>>, email: string, hw: HwId)
    requires forall i :: 0 <= i < |parts| ==> NoDevice(parts[i], email, hw)
    ensures NoDevice(Flat(parts), email, hw)
  {
    if parts != [] {
      var n := |parts| - 1;
      NoDeviceFlat(parts[..n], email, hw);
      NoDeviceConcat(Flat(parts[..n]), parts[n], email, hw);
    }
  }

  lemma DeviceCallsMakeNoRoom(at: Place, email: string, room: string)
    ensures NoRoom(AllDevices(at), email, room)
  {
    NoRoomFlat(DeviceParts(at), email, room);
  }

  lemma DeviceCallsMake(at: Place, n: nat, email: string, hw: HwId)
    requires n <= |DeviceParts(at)| && forall d: nat :: d < n ==> HwIdAt(at, d) != hw
    ensures NoDevice(Flat(DeviceParts(at)[..n]), email, hw)
  {
    var parts := DeviceParts(at)[..n];
    forall d | 0 <= d < n ensures NoDevice(parts[d], email, hw) { OneDeviceMakes(at, Devices(at.def.devices)[d], d, email, hw); }
    NoDeviceFlat(parts, email, hw);
  }

  lemma OneDeviceMakes(at: Place, c: Copy, d: nat, email: string, hw: HwId)
    requires HwIdAt(at, d) != hw
    ensures NoDevice(OneDevice(at, c, d), email, hw)
  {
  }

  lemma NoRoomConcat(a: seq<Call>, b: seq<Call>, email: string, room: string)
    requires NoRoom(a, email, room) && NoRoom(b, email, room)
    ensures NoRoom(a + b, email, room)
  {
  }

  lemma NoDeviceConcat(a: seq<Call>, b: seq<Call>, email: string, hw: HwId)
    requires NoDevice(a, email, hw) && NoDevice(b, email, hw)
    ensures NoDevice(a + b, email, hw)
  {
  }

  lemma ControlCallsMake(at: Place, email: string, room: string, hw: HwId)
    ensures NoRoom(ControlCalls(at), email, room) && NoDevice(ControlCalls(at), email, hw)
  {
    if at.def.schedule.Some? { ScheduleCallsMake(at, at.def.schedule.value, email, room, hw); }
    NoRoomConcat(DesiredCalls(at), OptionalSchedule(at), email, room);
    NoDeviceConcat(DesiredCalls(at), OptionalSchedule(at), email, hw);
  }

  lemma ScheduleCallsMake(at: Place, s: ScheduleDef, email: string, room: string, hw: HwId)
    ensures NoRoom(ScheduleCalls(at, s), email, room) && NoDevice(ScheduleCalls(at, s), email, hw)
  {
    var mid, last := Map(s.periods, PeriodCall(at, s)), [ActivateSchedule(Email(at), RoomName(at), s.name)];
    var first := [EnsureSchedule(Email(at), RoomName(at), s.name)];
    assert NoRoom(mid, email, room) && NoDevice(mid, email, hw);
    NoRoomConcat(mid, last, email, room);
    NoDeviceConcat(mid, last, email, hw);
    NoRoomConcat(first, mid + last, email, room);
    NoDeviceConcat(first, mid + last, email, hw);
  }

  lemma RoomCallsMakeNoRoom(at: Place, email: string, room: string)
    requires RoomName(at) != room
    ensures NoRoom(RoomCalls(at), email, room)
  {
    DeviceCallsMakeNoRoom(at, email, room);
    ControlCallsMake(at, email, room, "");
    NoRoomConcat(AllDevices(at), ControlCalls(at), email, room);
    NoRoomConcat([EnsureRoom(Email(at), RoomName(at))], FurnishCalls(at), email, room);
  }

  lemma RoomCallsMakeNoDevice(at: Place, email: string, hw: HwId)
    requires forall d: nat :: HwIdAt(at, d) != hw
    ensures NoDevice(RoomCalls(at), email, hw)
  {
    DeviceCallsMake(at, |DeviceParts(at)|, email, hw);
    assert DeviceParts(at)[..|DeviceParts(at)|] == DeviceParts(at);
    ControlCallsMake(at, email, "", hw);
    NoDeviceConcat(AllDevices(at), ControlCalls(at), email, hw);
    NoDeviceConcat([EnsureRoom(Email(at), RoomName(at))], FurnishCalls(at), email, hw);
  }

  lemma OtherName(at: Place, other: Place)
    requires at.room != other.room
    ensures RoomName(at) != RoomName(other)
  {
    if RoomName(at) == RoomName(other) { RoomNamesDiffer(at.def.prefix, at.room, other.def.prefix, other.room); }
  }

  lemma OtherHwId(at: Place, d: nat, other: Place, e: nat)
    requires at.room != other.room || d != e
    ensures HwIdAt(at, d) != HwIdAt(other, e)
  {
    if HwIdAt(at, d) == HwIdAt(other, e) {
      HwIdsDiffer(at.sim, at.user, at.room, d, other.sim, other.user, other.room, e);
    }
  }

  /** The rooms before do not make this one, nor any of its devices. */
  ghost predicate Untouched(done: seq<Call>, at: Place) {
    NoRoom(done, Email(at), RoomName(at)) && forall d: nat :: NoDevice(done, Email(at), HwIdAt(at, d))
  }

  lemma RoomUntouched(at: Place, other: Place)
    requires at.room != other.room
    ensures Untouched(RoomCalls(at), other)
  {
    OtherName(at, other);
    RoomCallsMakeNoRoom(at, Email(other), RoomName(other));
    forall e: nat ensures NoDevice(RoomCalls(at), Email(other), HwIdAt(other, e)) {
      forall d: nat ensures HwIdAt(at, d) != HwIdAt(other, e) { OtherHwId(at, d, other, e); }
      RoomCallsMakeNoDevice(at, Email(other), HwIdAt(other, e));
    }
  }

  lemma RoomsUntouched(cfg: Config, user: nat, defs: seq<RoomDef>, n: nat, at: Place)
    requires n <= |defs| && n <= at.room
    ensures Untouched(Flat(RoomParts(cfg, user, defs)[..n]), at)
  {
    var parts := RoomParts(cfg, user, defs)[..n];
    forall i | 0 <= i < n ensures Untouched(parts[i], at) { RoomUntouched(PlaceOf(cfg, user, defs, i), at); }
    NoRoomFlat(parts, Email(at), RoomName(at));
    forall d: nat ensures NoDevice(Flat(parts), Email(at), HwIdAt(at, d)) { NoDeviceFlat(parts, Email(at), HwIdAt(at, d)); }
  }

  /** When device `n` of the place comes up, nothing made it before. */
  lemma DeviceUntouched(done: seq<Call>, at: Place, n: nat)
    requires n <= |DeviceParts(at)| && forall d: nat :: NoDevice(done, Email(at), HwIdAt(at, d))
    ensures NoDevice(done + Flat(DeviceParts(at)[..n]), Email(at), HwIdAt(at, n))
  {
    forall d: nat | d < n ensures HwIdAt(at, d) != HwIdAt(at, n) { OtherHwId(at, d, at, n); }
    DeviceCallsMake(at, n, Email(at), HwIdAt(at, n));
    NoDeviceConcat(done, Flat(DeviceParts(at)[..n]), Email(at), HwIdAt(at, n));
  }

  // ---------------------------------------------------------------------
  // Single calls
  // ---------------------------------------------------------------------

  lemma RoomFound(db: Db, r: Id, u: Id, name: string)
    requires UniqueBy(db.rooms, RoomKey) && IsRoom(db, r, u, name)
    ensures RoomIn(db, u, name) == Some(r)
  {
    assert RoomKey(db.rooms[RoomIn(db, u, name).value]) == RoomKey(db.rooms[r]);
  }

  lemma DeviceFound(db: Db, d: Id, u: Id, hw: HwId)
    requires UniqueBy(db.devices, HwKey) && IsDevice(db, d, u, hw)
    ensures DeviceIn(db, u, hw) == Some(d)
  {
    assert HwKey(db.devices[DeviceIn(db, u, hw).value]) == HwKey(db.devices[d]);
  }

  lemma ScheduleFound(db: Db, s: Id, r: Id, name: string)
    requires UniqueBy(db.schedules, ScheduleKey) && IsSchedule(db, s, r, name)
    ensures ScheduleIn(db, r, name) == Some(s)
  {
    assert ScheduleKey(db.schedules[ScheduleIn(db, r, name).value]) == ScheduleKey(db.schedules[s]);
  }

  lemma RoomTaken(db: Db, u: Id, name: string)
    requires RoomNameTaken(db, u, name, None)
    ensures RoomIn(db, u, name).Some?
  {
    var r :| r in db.rooms && Some(r) != None && db.rooms[r].user == u && db.rooms[r].name == name;
    assert IsRoom(db, r, u, name);
  }

  /** Create the room, or take the listed one on a conflict. */
  method ProvisionRoom(server: Server, l: Login, name: string, ghost start: Db, ghost done: seq<Call>)
    returns (id: Option<Id>, ghost made: seq<Call>)
    requires Session(start, l) && RunCalls(start, done) == Some(server.db) && NoRoom(done, l.email, name)
    modifies server
    ensures Went(start, done + [EnsureRoom(l.email, name)], id.Some?, made, server.db)
    ensures id.Some? ==> RoomAt(server.db, l.email, name) == id
  {
    ghost var db, c := server.db, EnsureRoom(l.email, name);
    SessionNow(start, l, done, db);
    RoomStillListed(start, l, done, db, name);
    var reply := server.CreateRoom(l.u, name);
    if reply.Failed? {
      id := if reply.error != NameTaken || name !in l.rooms then None else Some(l.rooms[name]);
      if RoomNameTaken(db, l.u, name, None) { RoomTaken(db, l.u, name); }
    } else {
      id := Some(reply.id);
      RoomMade(db, c, server.db, l.u, reply.id);
    }
    made := if id.Some? then done + [c] else done;
    WentOne(start, done, db, c, id.Some?, server.db);
  }

  lemma RoomMade(db: Db, c: Call, d: Db, u: Id, r: Id)
    requires Ready(db) && c.EnsureRoom? && Perform(db, c) == Some(d) && UserAt(db, c.email) == Some(u) && IsRoom(d, r, u, c.room)
    ensures RoomAt(d, c.email, c.room) == Some(r)
  {
    Settles(db, c);
    UserStays(db, d, c.email);
    RoomFound(d, r, u, c.room);
  }

  method ProvisionDevice(
    server: Server, l: Login, name: string, hw: HwId, sensors: seq<Measure>, actuators: seq<ActuatorType>,
    ghost start: Db, ghost done: seq<Call>)
    returns (id: Option<Id>, ghost made: seq<Call>)
    requires Session(start, l) && RunCalls(start, done) == Some(server.db) && NoDevice(done, l.email, hw)
    modifies server
    ensures Went(start, done + [EnsureDevice(l.email, name, hw, sensors, actuators)], id.Some?, made, server.db)
    ensures id.Some? ==> DeviceAt(server.db, l.email, hw) == id
  {
    ghost var db, c := server.db, EnsureDevice(l.email, name, hw, sensors, actuators);
    SessionNow(start, l, done, db);
    DeviceStillListed(start, l, done, db, hw);
    var reply := server.CreateDevice(l.u, name, hw, sensors, actuators);
    DeviceOutcome(db, c, CreateDevice(db, l.u, name, hw, sensors, actuators));
    if reply.Failed? {
      var conflict := reply.error == AlreadyOwned || reply.error == HwIdTaken || reply.error == NameTaken;
      id := if !conflict || hw !in l.devices then None else Some(l.devices[hw]);
    } else {
      id := Some(reply.id);
      DeviceMade(db, c, server.db, l.u, reply.id);
    }
    made := if id.Some? then done + [c] else done;
    WentOne(start, done, db, c, id.Some?, server.db);
  }

  lemma DeviceOutcome(db: Db, c: Call, e: Effect)
    requires c.EnsureDevice? && EffectOf(db, c) == Some(e)
    ensures Perform(db, c) ==
      if e.reply.Done? then Some(e.db)
      else if (e.reply.error == AlreadyOwned || e.reply.error == HwIdTaken || e.reply.error == NameTaken) && DeviceAt(db, c.email, c.hw).Some?
      then Some(e.db) else None
  {
  }

  lemma DeviceMade(db: Db, c: Call, d: Db, u: Id, x: Id)
    requires Ready(db) && c.EnsureDevice? && Perform(db, c) == Some(d) && UserAt(db, c.email) == Some(u)
    requires CreateDevice(db, u, c.name, c.hw, c.sensors, c.actuators) == Effect(d, [], Done(x))
    ensures DeviceAt(d, c.email, c.hw) == Some(x)
  {
    Settles(db, c);
    UserStays(db, d, c.email);
    DeviceLeaves(db, u, c.name, c.hw, c.sensors, c.actuators);
    DeviceFound(d, x, u, c.hw);
  }

  method AssignDevice(server: Server, l: Login, d: Id, name: string, ghost hw: HwId, r: Id, ghost room: string,
    ghost start: Db, ghost done: seq<Call>)
    returns (ok: bool, ghost made: seq<Call>)
    requires Session(start, l) && RunCalls(start, done) == Some(server.db)
    requires DeviceAt(server.db, l.email, hw) == Some(d) && RoomAt(server.db, l.email, room) == Some(r)
    modifies server
    ensures Went(start, done + [Assign(l.email, name, hw, room)], ok, made, server.db)
  {
    ghost var db, c := server.db, Assign(l.email, name, hw, room);
    StillLoggedIn(start, l, done, db);
    var reply := server.UpdateDevice(d, l.u, name, Some(r));
    ok := reply.Done?;
    made := if ok then done + [c] else done;
    WentOne(start, done, db, c, ok, server.db);
  }

  method SetDesiredState(server: Server, l: Login, r: Id, ghost room: string, t: Targets, ghost start: Db, ghost done: seq<Call>)
    returns (ok: bool, ghost made: seq<Call>)
    requires Session(start, l) && RunCalls(start, done) == Some(server.db) && RoomAt(server.db, l.email, room) == Some(r)
    modifies server
    ensures Went(start, done + [SetDesired(l.email, room, t)], ok, made, server.db)
  {
    ghost var db, c := server.db, SetDesired(l.email, room, t);
    StillLoggedIn(start, l, done, db);
    var reply := server.UpdateDesiredState(r, l.u, DesiredFor(t));
    ok := reply.Done?;
    made := if ok then done + [c] else done;
    WentOne(start, done, db, c, ok, server.db);
  }

  /** The search through the room's schedules after a conflict. */
  method FindSchedule(db: Db, r: Id, name: string) returns (id: Option<Id>)
    requires UniqueBy(db.schedules, ScheduleKey)
    ensures id == ScheduleIn(db, r, name)
  {
    var existing := AnyOrder(set s | s in db.schedules && db.schedules[s].room == r);
    for i := 0 to |existing|
      invariant forall k :: 0 <= k < i ==> db.schedules[existing[k]].name != name
    {
      if db.schedules[existing[i]].name == name {
        ScheduleFound(db, existing[i], r, name);
        return Some(existing[i]);
      }
    }
    assert forall s :: s in db.schedules && db.schedules[s].room == r ==> s in existing;
    assert forall s :: !IsSchedule(db, s, r, name);
    return None;
  }

  lemma TakenMeansFound(db: Db, r: Id, name: string)
    requires ScheduleNameTaken(db, r, name, None)
    ensures ScheduleIn(db, r, name).Some?
  {
    var s :| s in db.schedules && Some(s) != None && db.schedules[s].room == r && db.schedules[s].name == name;
    assert IsSchedule(db, s, r, name);
  }

  method ProvisionScheduleRow(server: Server, l: Login, r: Id, ghost room: string, name: string, ghost start: Db, ghost done: seq<Call>)
    returns (id: Option<Id>, ghost made: seq<Call>)
    requires Session(start, l) && RunCalls(start, done) == Some(server.db) && RoomAt(server.db, l.email, room) == Some(r)
    modifies server
    ensures Went(start, done + [EnsureSchedule(l.email, room, name)], id.Some?, made, server.db)
    ensures id.Some? ==> ScheduleAt(server.db, l.email, room, name) == id
  {
    ghost var db, c := server.db, EnsureSchedule(l.email, room, name);
    SessionNow(start, l, done, db);
    var reply := server.CreateSchedule(r, l.u, name);
    if reply.Done? {
      id := Some(reply.id);
      ScheduleMade(db, c, server.db, r, reply.id);
    } else if reply.error == NameTaken {
      TakenMeansFound(db, r, name);
      id := FindSchedule(server.db, r, name);
    } else {
      id := None;
    }
    made := if id.Some? then done + [c] else done;
    WentOne(start, done, db, c, id.Some?, server.db);
  }

  lemma ScheduleMade(db: Db, c: Call, d: Db, r: Id, s: Id)
    requires Ready(db) && c.EnsureSchedule? && Perform(db, c) == Some(d) && RoomAt(db, c.email, c.room) == Some(r)
    requires IsSchedule(d, s, r, c.schedule)
    ensures ScheduleAt(d, c.email, c.room, c.schedule) == Some(s)
  {
    Settles(db, c);
    RoomStays(db, d, c.email, c.room);
    ScheduleFound(d, s, r, c.schedule);
  }

  lemma PeriodEffect(db: Db, c: Call, s: Id, u: Id)
    requires c.EnsurePeriod? && UserAt(db, c.email) == Some(u) && ScheduleAt(db, c.email, c.room, c.schedule) == Some(s)
    ensures EffectOf(db, c) == Some(CreatePeriod(db, s, u, c.period))
  {
  }

  lemma ActivateEffect(db: Db, c: Call, s: Id, u: Id)
    requires c.ActivateSchedule? && UserAt(db, c.email) == Some(u) && ScheduleAt(db, c.email, c.room, c.schedule) == Some(s)
    ensures EffectOf(db, c) == Some(Activate(db, s, u))
  {
  }

  lemma PeriodOutcome(db: Db, c: Call, e: Effect)
    requires c.EnsurePeriod? && EffectOf(db, c) == Some(e)
    ensures Perform(db, c) == if e.reply.Done? || e.reply.error == PeriodOverlap then Some(e.db) else None
  {
  }

  lemma ScheduleUnmoved(db: Db, c: Call, d: Db, email: string, room: string, schedule: string)
    requires Ready(db) && Perform(db, c) == Some(d) && ScheduleAt(db, email, room, schedule).Some?
    ensures ScheduleAt(d, email, room, schedule) == ScheduleAt(db, email, room, schedule)
  {
    Settles(db, c);
    ScheduleStays(db, d, email, room, schedule);
  }

  method ProvisionPeriod(server: Server, l: Login, s: Id, ghost room: string, ghost schedule: string, x: PeriodInput,
    ghost start: Db, ghost done: seq<Call>)
    returns (ok: bool, ghost made: seq<Call>)
    requires Session(start, l) && RunCalls(start, done) == Some(server.db) && ScheduleAt(server.db, l.email, room, schedule) == Some(s)
    modifies server
    ensures Went(start, done + [EnsurePeriod(l.email, room, schedule, x)], ok, made, server.db)
    ensures ScheduleAt(server.db, l.email, room, schedule) == Some(s)
  {
    ghost var db, c := server.db, EnsurePeriod(l.email, room, schedule, x);
    SessionNow(start, l, done, db);
    PeriodEffect(db, c, s, l.u);
    var reply := server.CreatePeriod(s, l.u, x);
    PeriodOutcome(db, c, CreatePeriod(db, s, l.u, x));
    ok := reply.Done? || reply.error == PeriodOverlap;
    if ok { ScheduleUnmoved(db, c, server.db, l.email, room, schedule); }
    made := if ok then done + [c] else done;
    WentOne(start, done, db, c, ok, server.db);
  }

  lemma ActivateOutcome(db: Db, c: Call, e: Effect)
    requires c.ActivateSchedule? && EffectOf(db, c) == Some(e)
    ensures Perform(db, c) == if e.reply.Done? || e.reply.error == AlreadyActive then Some(e.db) else None
  {
  }

  method ActivateRow(server: Server, l: Login, s: Id, ghost room: string, ghost schedule: string, ghost start: Db, ghost done: seq<Call>)
    returns (ok: bool, ghost made: seq<Call>)
    requires Session(start, l) && RunCalls(start, done) == Some(server.db) && ScheduleAt(server.db, l.email, room, schedule) == Some(s)
    modifies server
    ensures Went(start, done + [ActivateSchedule(l.email, room, schedule)], ok, made, server.db)
  {
    ghost var db, c := server.db, ActivateSchedule(l.email, room, schedule);
    StillLoggedIn(start, l, done, db);
    ActivateEffect(db, c, s, l.u);
    var reply := server.Activate(s, l.u);
    ActivateOutcome(db, c, Activate(db, s, l.u));
    ok := reply.Done? || reply.error == AlreadyActive;
    made := if ok then done + [c] else done;
    WentOne(start, done, db, c, ok, server.db);
  }

  // ---------------------------------------------------------------------
  // The loops
  // ---------------------------------------------------------------------

  /** One more of a list of calls. */
  lemma OneMore(start: Db, done: seq<Call>, calls: seq<Call>, i: nat, ok: bool, made: seq<Call>, d: Db)
    requires i < |calls| && Went(start, done + calls[..i] + [calls[i]], ok, made, d)
    ensures if ok then made == done + calls[..i + 1] else Went(start, done + calls, false, made, d)
  {
    var rest := calls[i + 1..];
    assert calls[..i + 1] == calls[..i] + [calls[i]];
    if !ok {
      assert calls == calls[..i] + ([calls[i]] + rest);
      WentNotOn(start, done + calls[..i], [calls[i]], made, d, rest);
      WentOn(start, done, calls[..i], [calls[i]] + rest, false, made, d);
    }
  }

  method ProvisionPeriods(server: Server, l: Login, at: Place, s: Id, sched: ScheduleDef, ghost start: Db, ghost done: seq<Call>)
    returns (ok: bool, ghost made: seq<Call>)
    requires Session(start, l) && l.email == Email(at) && RunCalls(start, done) == Some(server.db)
    requires ScheduleAt(server.db, l.email, RoomName(at), sched.name) == Some(s)
    modifies server
    ensures Went(start, done + Map(sched.periods, PeriodCall(at, sched)), ok, made, server.db)
    ensures ScheduleAt(server.db, l.email, RoomName(at), sched.name) == Some(s)
  {
    ghost var calls := Map(sched.periods, PeriodCall(at, sched));
    made := done;
    assert done + calls[..0] == done;
    for i := 0 to |sched.periods|
      invariant made == done + calls[..i] && RunCalls(start, made) == Some(server.db)
      invariant ScheduleAt(server.db, l.email, RoomName(at), sched.name) == Some(s)
    {
      ok, made := ProvisionPeriod(server, l, s, RoomName(at), sched.name, sched.periods[i], start, made);
      OneMore(start, done, calls, i, ok, made, server.db);
      if !ok { return; }
    }
    assert calls[..|calls|] == calls;
    ok := true;
  }

  method ProvisionPeriodsAndActivate(server: Server, l: Login, at: Place, s: Id, sched: ScheduleDef, ghost start: Db, ghost done: seq<Call>)
    returns (ok: bool, ghost made: seq<Call>)
    requires Session(start, l) && l.email == Email(at) && RunCalls(start, done) == Some(server.db)
    requires ScheduleAt(server.db, l.email, RoomName(at), sched.name) == Some(s)
    modifies server
    ensures Went(start, done + PeriodCalls(at, sched), ok, made, server.db)
  {
    ghost var mid, last := Map(sched.periods, PeriodCall(at, sched)), [ActivateSchedule(Email(at), RoomName(at), sched.name)];
    ok, made := ProvisionPeriods(server, l, at, s, sched, start, done);
    if !ok {
      WentNotOn(start, done, mid, made, server.db, last);
      return;
    }
    ok, made := ActivateRow(server, l, s, RoomName(at), sched.name, start, made);
    WentOn(start, done, mid, last, ok, made, server.db);
  }

  method ProvisionSchedule(server: Server, l: Login, at: Place, r: Id, sched: ScheduleDef, ghost start: Db, ghost done: seq<Call>)
    returns (ok: bool, ghost made: seq<Call>)
    requires Session(start, l) && l.email == Email(at) && RunCalls(start, done) == Some(server.db)
    requires RoomAt(server.db, l.email, RoomName(at)) == Some(r)
    modifies server
    ensures Went(start, done + ScheduleCalls(at, sched), ok, made, server.db)
  {
    ghost var first, rest := [EnsureSchedule(Email(at), RoomName(at), sched.name)], PeriodCalls(at, sched);
    var s;
    s, made := ProvisionScheduleRow(server, l, r, RoomName(at), sched.name, start, done);
    if s.None? {
      WentNotOn(start, done, first, made, server.db, rest);
      return false, made;
    }
    ok, made := ProvisionPeriodsAndActivate(server, l, at, s.value, sched, start, made);
    WentOn(start, done, first, rest, ok, made, server.db);
  }

  lemma RoomUnmoved(start: Db, done: seq<Call>, m: Db, made: seq<Call>, d: Db, email: string, room: string)
    requires Ready(start) && RunCalls(start, done) == Some(m) && RunCalls(start, made) == Some(d) && done <= made
    requires RoomAt(m, email, room).Some?
    ensures RoomAt(d, email, room) == RoomAt(m, email, room)
  {
    LaterGrows(start, done, m, made, d);
    RoomStays(m, d, email, room);
  }

  /** One device: create and assign. */
  method ProvisionOneDevice(server: Server, l: Login, at: Place, r: Id, c: Copy, d: nat, ghost start: Db, ghost done: seq<Call>)
    returns (ok: bool, ghost made: seq<Call>)
    requires Session(start, l) && l.email == Email(at) && RunCalls(start, done) == Some(server.db)
    requires RoomAt(server.db, l.email, RoomName(at)) == Some(r) && NoDevice(done, l.email, HwIdAt(at, d))
    modifies server
    ensures Went(start, done + OneDevice(at, c, d), ok, made, server.db)
  {
    ghost var db, create, assign := server.db, [DeviceCall(at, c, d)], [AssignCall(at, c, d)];
    assert OneDevice(at, c, d) == create + assign;
    var id;
    id, made := ProvisionDevice(server, l, DeviceName(at, c), HwIdAt(at, d), c.def.sensors, c.def.actuators, start, done);
    if id.None? {
      WentNotOn(start, done, create, made, server.db, assign);
      return false, made;
    }
    RoomUnmoved(start, done, db, made, server.db, l.email, RoomName(at));
    ok, made := AssignDevice(server, l, id.value, DeviceName(at, c), HwIdAt(at, d), r, RoomName(at), start, made);
    WentOn(start, done, create, assign, ok, made, server.db);
  }

  lemma FlatMore(parts: seq<seq<Call>>, i: nat)
    requires i < |parts|
    ensures Flat(parts[..i + 1]) == Flat(parts[..i]) + parts[i]
  {
    assert parts[..i + 1][..i] == parts[..i];
  }

  lemma {:induction false} FlatStopped(start: Db, done: seq<Call>, parts: seq<seq<Call>>, i: nat, made: seq<Call>, d: Db)
    requires i <= |parts| && Went(start, done + Flat(parts[..i]), false, made, d)
    ensures Went(start, done + Flat(parts), false, made, d)
    decreases |parts| - i
  {
    if i == |parts| {
      assert parts[..i] == parts;
    } else {
      WentNotOn(start, done, Flat(parts[..i]), made, d, parts[i]);
      FlatMore(parts, i);
      FlatStopped(start, done, parts, i + 1, made, d);
    }
  }

  /** After `i` parts. */
  ghost predicate Upto(start: Db, done: seq<Call>, parts: seq<seq<Call>>, i: nat, made: seq<Call>, d: Db) {
    i <= |parts| && made == done + Flat(parts[..i]) && RunCalls(start, made) == Some(d)
  }

  lemma UptoNone(start: Db, done: seq<Call>, parts: seq<seq<Call>>, d: Db)
    requires RunCalls(start, done) == Some(d)
    ensures Upto(start, done, parts, 0, done, d)
  {
    assert done + Flat(parts[..0]) == done;
  }

  lemma UptoAll(start: Db, done: seq<Call>, parts: seq<seq<Call>>, made: seq<Call>, d: Db)
    requires Upto(start, done, parts, |parts|, made, d)
    ensures Went(start, done + Flat(parts), true, made, d)
  {
    assert parts[..|parts|] == parts;
  }

  /** One more part: on success the loop goes on, otherwise it stops for good. */
  lemma OneMorePart(start: Db, done: seq<Call>, parts: seq<seq<Call>>, i: nat, ok: bool, made: seq<Call>, d: Db)
    requires i < |parts| && Went(start, done + Flat(parts[..i]) + parts[i], ok, made, d)
    ensures if ok then Upto(start, done, parts, i + 1, made, d) else Went(start, done + Flat(parts), false, made, d)
  {
    FlatMore(parts, i);
    WentOn(start, done, Flat(parts[..i]), parts[i], ok, made, d);
    if !ok { FlatStopped(start, done, parts, i + 1, made, d); }
  }

  // What Run returns.

  datatype ProvisionedDevice = ProvisionedDevice(hwId: HwId, def: DeviceDef)
  datatype ProvisionedRoom = ProvisionedRoom(id: Id, name: string, def: RoomDef, devices: seq<ProvisionedDevice>)
  datatype ProvisionedUser = ProvisionedUser(rooms: seq<ProvisionedRoom>)

  /** The devices of the place, numbered as they are provisioned. */
  function DevicesAt(at: Place): (r: seq<ProvisionedDevice>)
    ensures |r| == |Devices(at.def.devices)|
  {
    var copies := Devices(at.def.devices);
    seq(|copies|, d requires 0 <= d < |copies| => ProvisionedDevice(HwIdAt(at, d), copies[d].def))
  }

  /** Device number `i` of the place. */
  method ProvisionNextDevice(server: Server, l: Login, at: Place, r: Id, i: nat, list: seq<ProvisionedDevice>,
    ghost start: Db, ghost done: seq<Call>, ghost so: seq<Call>)
    returns (got: Option<seq<ProvisionedDevice>>, ghost made: seq<Call>)
    requires Session(start, l) && l.email == Email(at) && i < |DeviceParts(at)| && Upto(start, done, DeviceParts(at), i, so, server.db)
    requires RoomAt(server.db, l.email, RoomName(at)) == Some(r) && list == DevicesAt(at)[..i]
    requires forall d: nat :: NoDevice(done, Email(at), HwIdAt(at, d))
    modifies server
    ensures got.Some? ==>
      && Upto(start, done, DeviceParts(at), i + 1, made, server.db) && got.value == DevicesAt(at)[..i + 1]
      && RoomAt(server.db, l.email, RoomName(at)) == Some(r)
    ensures got.None? ==> Went(start, done + AllDevices(at), false, made, server.db)
  {
    ghost var db, parts := server.db, DeviceParts(at);
    var c := Devices(at.def.devices)[i];
    DeviceUntouched(done, at, i);
    var ok;
    ok, made := ProvisionOneDevice(server, l, at, r, c, i, start, so);
    OneMorePart(start, done, parts, i, ok, made, server.db);
    if !ok { return None, made; }
    RoomUnmoved(start, so, db, made, server.db, l.email, RoomName(at));
    NextDeviceAt(at, i);
    got := Some(list + [ProvisionedDevice(HwIdAt(at, i), c.def)]);
  }

  lemma NextDeviceAt(at: Place, i: nat)
    requires i < |DevicesAt(at)|
    ensures DevicesAt(at)[..i + 1] == DevicesAt(at)[..i] + [ProvisionedDevice(HwIdAt(at, i), Devices(at.def.devices)[i].def)]
  {
  }

  method ProvisionDevices(server: Server, l: Login, at: Place, r: Id, ghost start: Db, ghost done: seq<Call>)
    returns (got: Option<seq<ProvisionedDevice>>, ghost made: seq<Call>)
    requires Session(start, l) && l.email == Email(at) && RunCalls(start, done) == Some(server.db)
    requires RoomAt(server.db, l.email, RoomName(at)) == Some(r)
    requires forall d: nat :: NoDevice(done, Email(at), HwIdAt(at, d))
    modifies server
    ensures Went(start, done + AllDevices(at), got.Some?, made, server.db)
    ensures got.Some? ==> got.value == DevicesAt(at)
  {
    got, made := Some([]), done;
    UptoNone(start, done, DeviceParts(at), server.db);
    for i := 0 to |Devices(at.def.devices)|
      invariant Upto(start, done, DeviceParts(at), i, made, server.db)
      invariant RoomAt(server.db, l.email, RoomName(at)) == Some(r)
      invariant got.Some? && got.value == DevicesAt(at)[..i]
    {
      got, made := ProvisionNextDevice(server, l, at, r, i, got.value, start, done, made);
      if got.None? { return; }
    }
    UptoAll(start, done, DeviceParts(at), made, server.db);
  }

  method ProvisionDesired(server: Server, l: Login, at: Place, r: Id, ghost start: Db, ghost done: seq<Call>)
    returns (ok: bool, ghost made: seq<Call>)
    requires Session(start, l) && l.email == Email(at) && RunCalls(start, done) == Some(server.db)
    requires RoomAt(server.db, l.email, RoomName(at)) == Some(r)
    modifies server
    ensures Went(start, done + DesiredCalls(at), ok, made, server.db)
  {
    if at.def.desired.None? {
      assert done + [] == done;
      return true, done;
    }
    ok, made := SetDesiredState(server, l, r, RoomName(at), at.def.desired.value, start, done);
  }

  method ProvisionOptionalSchedule(server: Server, l: Login, at: Place, r: Id, ghost start: Db, ghost done: seq<Call>)
    returns (ok: bool, ghost made: seq<Call>)
    requires Session(start, l) && l.email == Email(at) && RunCalls(start, done) == Some(server.db)
    requires RoomAt(server.db, l.email, RoomName(at)) == Some(r)
    modifies server
    ensures Went(start, done + OptionalSchedule(at), ok, made, server.db)
  {
    if at.def.schedule.None? {
      assert done + [] == done;
      return true, done;
    }
    ok, made := ProvisionSchedule(server, l, at, r, at.def.schedule.value, start, done);
  }

  /** Desired state and schedule, where the room has them. */
  method ProvisionControl(server: Server, l: Login, at: Place, r: Id, ghost start: Db, ghost done: seq<Call>)
    returns (ok: bool, ghost made: seq<Call>)
    requires Session(start, l) && l.email == Email(at) && RunCalls(start, done) == Some(server.db)
    requires RoomAt(server.db, l.email, RoomName(at)) == Some(r)
    modifies server
    ensures Went(start, done + ControlCalls(at), ok, made, server.db)
  {
    ghost var db := server.db;
    ok, made := ProvisionDesired(server, l, at, r, start, done);
    if !ok {
      WentNotOn(start, done, DesiredCalls(at), made, server.db, OptionalSchedule(at));
      return;
    }
    RoomUnmoved(start, done, db, made, server.db, l.email, RoomName(at));
    ok, made := ProvisionOptionalSchedule(server, l, at, r, start, made);
    WentOn(start, done, DesiredCalls(at), OptionalSchedule(at), ok, made, server.db);
  }

  /** What follows the room itself: devices, desired state, schedule. */
  method FurnishRoom(server: Server, l: Login, at: Place, r: Id, ghost start: Db, ghost done: seq<Call>)
    returns (got: Option<seq<ProvisionedDevice>>, ghost made: seq<Call>)
    requires Session(start, l) && l.email == Email(at) && RunCalls(start, done) == Some(server.db)
    requires RoomAt(server.db, l.email, RoomName(at)) == Some(r)
    requires forall d: nat :: NoDevice(done, Email(at), HwIdAt(at, d))
    modifies server
    ensures Went(start, done + FurnishCalls(at), got.Some?, made, server.db)
    ensures got.Some? ==> got.value == DevicesAt(at)
  {
    ghost var db := server.db;
    got, made := ProvisionDevices(server, l, at, r, start, done);
    if got.None? {
      WentNotOn(start, done, AllDevices(at), made, server.db, ControlCalls(at));
      return;
    }
    RoomUnmoved(start, done, db, made, server.db, l.email, RoomName(at));
    var ok;
    ok, made := ProvisionControl(server, l, at, r, start, made);
    WentOn(start, done, AllDevices(at), ControlCalls(at), ok, made, server.db);
    if !ok { got := None; }
  }

  /** The room returned for a place is the one the database has there, with the
      place's devices. */
  ghost predicate Returned(db: Db, at: Place, room: ProvisionedRoom) {
    RoomAt(db, Email(at), RoomName(at)) == Some(room.id) && room == ProvisionedRoom(room.id, RoomName(at), at.def, DevicesAt(at))
  }

  lemma RoomCallUntouched(done: seq<Call>, at: Place)
    requires Untouched(done, at)
    ensures forall d: nat :: NoDevice(done + [EnsureRoom(Email(at), RoomName(at))], Email(at), HwIdAt(at, d))
  {
    forall d: nat ensures NoDevice(done + [EnsureRoom(Email(at), RoomName(at))], Email(at), HwIdAt(at, d)) {
      NoDeviceConcat(done, [EnsureRoom(Email(at), RoomName(at))], Email(at), HwIdAt(at, d));
    }
  }

  /** One room of provisionRooms. */
  method ProvisionOneRoom(server: Server, l: Login, at: Place, ghost start: Db, ghost done: seq<Call>)
    returns (got: Option<ProvisionedRoom>, ghost made: seq<Call>)
    requires Session(start, l) && l.email == Email(at) && RunCalls(start, done) == Some(server.db) && Untouched(done, at)
    modifies server
    ensures Went(start, done + RoomCalls(at), got.Some?, made, server.db)
    ensures got.Some? ==> Returned(server.db, at, got.value)
  {
    ghost var first := [EnsureRoom(Email(at), RoomName(at))];
    var id, list;
    id, made := ProvisionRoom(server, l, RoomName(at), start, done);
    if id.None? {
      WentNotOn(start, done, first, made, server.db, FurnishCalls(at));
      return None, made;
    }
    ghost var db1 := server.db;
    RoomCallUntouched(done, at);
    list, made := FurnishRoom(server, l, at, id.value, start, made);
    if list.Some? { RoomUnmoved(start, done + first, db1, made, server.db, l.email, RoomName(at)); }
    WentOn(start, done, first, FurnishCalls(at), list.Some?, made, server.db);
    got := if list.Some? then Some(ProvisionedRoom(id.value, RoomName(at), at.def, list.value)) else None;
  }

  /** The rooms handed to the simulator are the database's at their places. */
  ghost predicate Listed(db: Db, cfg: Config, user: nat, defs: seq<RoomDef>, got: seq<ProvisionedRoom>) {
    |got| <= |defs| && forall i :: 0 <= i < |got| ==> Returned(db, PlaceOf(cfg, user, defs, i), got[i])
  }

  lemma ListedStays(db: Db, db': Db, cfg: Config, user: nat, defs: seq<RoomDef>, got: seq<ProvisionedRoom>)
    requires Listed(db, cfg, user, defs, got) && Grows(db, db') && UniqueKeys(db')
    ensures Listed(db', cfg, user, defs, got)
  {
    forall i | 0 <= i < |got| ensures Returned(db', PlaceOf(cfg, user, defs, i), got[i]) {
      var at := PlaceOf(cfg, user, defs, i);
      assert Returned(db, at, got[i]);
      RoomStays(db, db', Email(at), RoomName(at));
    }
  }

  lemma ListedMore(start: Db, so: seq<Call>, m: Db, made: seq<Call>, d: Db, cfg: Config, user: nat, defs: seq<RoomDef>,
    got: seq<ProvisionedRoom>, one: ProvisionedRoom)
    requires Ready(start) && RunCalls(start, so) == Some(m) && RunCalls(start, made) == Some(d) && so <= made
    requires Listed(m, cfg, user, defs, got) && |got| < |defs| && Returned(d, PlaceOf(cfg, user, defs, |got|), one)
    ensures Listed(d, cfg, user, defs, got + [one])
  {
    LaterGrows(start, so, m, made, d);
    ListedStays(m, d, cfg, user, defs, got);
    ListedOne(d, cfg, user, defs, got, one);
  }

  lemma ListedOne(d: Db, cfg: Config, user: nat, defs: seq<RoomDef>, got: seq<ProvisionedRoom>, one: ProvisionedRoom)
    requires Listed(d, cfg, user, defs, got) && |got| < |defs| && Returned(d, PlaceOf(cfg, user, defs, |got|), one)
    ensures Listed(d, cfg, user, defs, got + [one])
  {
    var more := got + [one];
    forall i | 0 <= i < |more| ensures Returned(d, PlaceOf(cfg, user, defs, i), more[i]) {
      if i < |got| { assert more[i] == got[i] && Returned(d, PlaceOf(cfg, user, defs, i), got[i]); }
    }
  }

  lemma RoomStillUntouched(start: Db, cfg: Config, user: nat, defs: seq<RoomDef>, i: nat, so: seq<Call>, d: Db)
    requires i < |defs| && Upto(start, [], RoomParts(cfg, user, defs), i, so, d)
    ensures Untouched(so, PlaceOf(cfg, user, defs, i))
  {
    RoomsUntouched(cfg, user, defs, i, PlaceOf(cfg, user, defs, i));
    assert [] + Flat(RoomParts(cfg, user, defs)[..i]) == Flat(RoomParts(cfg, user, defs)[..i]);
  }

  /** One more part of a loop that nothing came before. */
  lemma OneMoreFirst(start: Db, parts: seq<seq<Call>>, i: nat, so: seq<Call>, m: Db, ok: bool, made: seq<Call>, d: Db)
    requires i < |parts| && Upto(start, [], parts, i, so, m) && Went(start, so + parts[i], ok, made, d)
    ensures if ok then Upto(start, [], parts, i + 1, made, d) else Went(start, Flat(parts), false, made, d)
  {
    assert [] + Flat(parts[..i]) == so && [] + Flat(parts) == Flat(parts);
    OneMorePart(start, [], parts, i, ok, made, d);
  }

  /** Room number `i` of the user. */
  method ProvisionNextRoom(server: Server, cfg: Config, user: nat, l: Login, defs: seq<RoomDef>, i: nat, list: seq<ProvisionedRoom>,
    ghost start: Db, ghost so: seq<Call>)
    returns (got: Option<seq<ProvisionedRoom>>, ghost made: seq<Call>)
    requires Session(start, l) && l.email == EmailOf(cfg.sim, user, cfg.domain)
    requires i < |defs| && Upto(start, [], RoomParts(cfg, user, defs), i, so, server.db)
    requires |list| == i && Listed(server.db, cfg, user, defs, list)
    modifies server
    ensures got.Some? ==>
      && Upto(start, [], RoomParts(cfg, user, defs), i + 1, made, server.db)
      && |got.value| == i + 1 && Listed(server.db, cfg, user, defs, got.value)
    ensures got.None? ==> Went(start, RoomsCalls(cfg, user, defs), false, made, server.db)
  {
    ghost var before, parts := server.db, RoomParts(cfg, user, defs);
    var at := PlaceOf(cfg, user, defs, i);
    RoomStillUntouched(start, cfg, user, defs, i, so, before);
    var one;
    one, made := ProvisionOneRoom(server, l, at, start, so);
    OneMoreFirst(start, parts, i, so, before, one.Some?, made, server.db);
    if one.None? { return None, made; }
    ListedMore(start, so, before, made, server.db, cfg, user, defs, list, one.value);
    got := Some(list + [one.value]);
  }

  /** provisionRooms. */
  method ProvisionRooms(server: Server, cfg: Config, user: nat, l: Login, defs: seq<RoomDef>, ghost start: Db)
    returns (got: Option<seq<ProvisionedRoom>>, ghost made: seq<Call>)
    requires Session(start, l) && l.email == EmailOf(cfg.sim, user, cfg.domain) && start == server.db
    modifies server
    ensures Went(start, RoomsCalls(cfg, user, defs), got.Some?, made, server.db)
    ensures got.Some? ==> |got.value| == |defs| && Listed(server.db, cfg, user, defs, got.value)
  {
    ghost var parts := RoomParts(cfg, user, defs);
    got, made := Some([]), [];
    UptoNone(start, [], parts, start);
    for i := 0 to |defs|
      invariant got.Some? && |got.value| == i && Listed(server.db, cfg, user, defs, got.value)
      invariant Upto(start, [], parts, i, made, server.db)
    {
      got, made := ProvisionNextRoom(server, cfg, user, l, defs, i, got.value, start, made);
      if got.None? { return; }
    }
    UptoAll(start, [], parts, made, server.db);
    assert [] + Flat(parts) == Flat(parts);
  }

  /** Log in, or register and log in. */
  method ProvisionUser(server: Server, email: string) returns (u: Id)
    requires Ready(server.db)
    modifies server
    ensures Perform(old(server.db), EnsureUser(email)) == Some(server.db)
    ensures Ready(server.db) && UserAt(server.db, email) == Some(u)
  {
    ghost var db := server.db;
    var found := AnyOrder(set x | x in server.db.users && server.db.users[x].email == email);
    if found != [] {
      u := found[0];
      UserFound(db, u, email);
      return;
    }
    assert forall x :: x in server.db.users && server.db.users[x].email == email ==> x in found;
    var reply := server.Register(email);
    Settles(db, EnsureUser(email));
    u := reply.id;
    UserFound(server.db, u, email);
  }

  lemma UserFound(db: Db, u: Id, email: string)
    requires UniqueBy(db.users, EmailKey) && IsUser(db, u, email)
    ensures UserAt(db, email) == Some(u)
  {
    assert EmailKey(db.users[UserAt(db, email).value]) == EmailKey(db.users[u]);
  }

  /** roomsByName: exactly the user's rooms, keyed by name. */
  method ListRooms(db: Db, u: Id) returns (byName: map<string, Id>)
    requires UniqueBy(db.rooms, RoomKey)
    ensures forall n :: RoomIn(db, u, n) == Lookup(byName, n)
  {
    byName := map[];
    var mine := set r | r in db.rooms && db.rooms[r].user == u;
    var rows := AnyOrder(mine);
    for i := 0 to |rows|
      invariant forall n :: n in byName ==> RoomIn(db, u, n) == Some(byName[n])
      invariant forall k :: 0 <= k < i ==> db.rooms[rows[k]].name in byName
    {
      RoomFound(db, rows[i], u, db.rooms[rows[i]].name);
      byName := byName[db.rooms[rows[i]].name := rows[i]];
    }
    forall n | RoomIn(db, u, n).Some? ensures n in byName { assert RoomIn(db, u, n).value in mine; }
  }

  /** devicesByHwID: exactly the user's devices, keyed by hardware id. */
  method ListDevices(db: Db, u: Id) returns (byHwId: map<HwId, Id>)
    requires UniqueBy(db.devices, HwKey)
    ensures forall h :: DeviceIn(db, u, h) == Lookup(byHwId, h)
  {
    byHwId := map[];
    var mine := set d | d in db.devices && db.devices[d].user == u;
    var rows := AnyOrder(mine);
    for i := 0 to |rows|
      invariant forall h :: h in byHwId ==> DeviceIn(db, u, h) == Some(byHwId[h])
      invariant forall k :: 0 <= k < i ==> db.devices[rows[k]].hwId in byHwId
    {
      DeviceFound(db, rows[i], u, db.devices[rows[i]].hwId);
      byHwId := byHwId[db.devices[rows[i]].hwId := rows[i]];
    }
    forall h | DeviceIn(db, u, h).Some? ensures h in byHwId { assert DeviceIn(db, u, h).value in mine; }
  }

  /** The user logged in, with both listings. */
  method StartSession(server: Server, email: string) returns (l: Login)
    requires Ready(server.db)
    modifies server
    ensures Perform(old(server.db), EnsureUser(email)) == Some(server.db)
    ensures Session(server.db, l) && l.email == email
  {
    var u := ProvisionUser(server, email);
    var byName := ListRooms(server.db, u);
    var byHwId := ListDevices(server.db, u);
    l := Login(email, u, byName, byHwId);
  }

  /** A run of its own, after `first`, is the rest of one run. */
  lemma Prefixed(db: Db, first: seq<Call>, m: Db, plan: seq<Call>, ok: bool, made: seq<Call>, d: Db)
    requires RunCalls(db, first) == Some(m) && Went(m, plan, ok, made, d)
    ensures Went(db, first + plan, ok, first + made, d)
  {
    RunConcat(db, first, made);
    RunConcat(db, first, plan);
  }

  /** One user of Run. */
  method ProvisionOneUser(server: Server, cfg: Config, user: nat, defs: seq<RoomDef>)
    returns (got: Option<ProvisionedUser>, ghost made: seq<Call>)
    requires Ready(server.db)
    modifies server
    ensures Went(old(server.db), UserCalls(cfg, user, defs), got.Some?, made, server.db)
    ensures got.Some? ==> |got.value.rooms| == |defs| && Listed(server.db, cfg, user, defs, got.value.rooms)
  {
    ghost var db, first := server.db, [EnsureUser(EmailOf(cfg.sim, user, cfg.domain))];
    var l := StartSession(server, EmailOf(cfg.sim, user, cfg.domain));
    ghost var db1 := server.db;
    WentOne(db, [], db, first[0], true, db1);
    assert [] + first == first;
    var list;
    list, made := ProvisionRooms(server, cfg, user, l, defs, db1);
    Prefixed(db, first, db1, RoomsCalls(cfg, user, defs), list.Some?, made, server.db);
    made := first + made;
    got := if list.Some? then Some(ProvisionedUser(list.value)) else None;
  }

  ghost predicate AllListed(db: Db, cfg: Config, got: seq<ProvisionedUser>) {
    |got| <= |Users(cfg.groups)| && forall i :: 0 <= i < |got| ==>
      |got[i].rooms| == |Users(cfg.groups)[i]| && Listed(db, cfg, i, Users(cfg.groups)[i], got[i].rooms)
  }

  lemma AllListedStays(db: Db, db': Db, cfg: Config, got: seq<ProvisionedUser>)
    requires AllListed(db, cfg, got) && Grows(db, db') && UniqueKeys(db')
    ensures AllListed(db', cfg, got)
  {
    forall i | 0 <= i < |got| ensures Listed(db', cfg, i, Users(cfg.groups)[i], got[i].rooms) {
      ListedStays(db, db', cfg, i, Users(cfg.groups)[i], got[i].rooms);
    }
  }

  lemma AllListedMore(start: Db, so: seq<Call>, m: Db, made: seq<Call>, d: Db, cfg: Config, got: seq<ProvisionedUser>, one: ProvisionedUser)
    requires Ready(start) && RunCalls(start, so) == Some(m) && RunCalls(start, made) == Some(d) && so <= made
    requires AllListed(m, cfg, got) && |got| < |Users(cfg.groups)|
    requires |one.rooms| == |Users(cfg.groups)[|got|]| && Listed(d, cfg, |got|, Users(cfg.groups)[|got|], one.rooms)
    ensures AllListed(d, cfg, got + [one])
  {
    LaterGrows(start, so, m, made, d);
    AllListedStays(m, d, cfg, got);
  }

  lemma OneMoreUser(start: Db, parts: seq<seq<Call>>, i: nat, so: seq<Call>, m: Db, ok: bool, made: seq<Call>, d: Db)
    requires i < |parts| && Upto(start, [], parts, i, so, m) && Went(m, parts[i], ok, made, d)
    ensures if ok then Upto(start, [], parts, i + 1, so + made, d) else Went(start, Flat(parts), false, so + made, d)
  {
    Prefixed(start, so, m, parts[i], ok, made, d);
    OneMoreFirst(start, parts, i, so, m, ok, so + made, d);
  }

  /** User number `i`. */
  method ProvisionNextUser(server: Server, cfg: Config, i: nat, list: seq<ProvisionedUser>, ghost start: Db, ghost so: seq<Call>)
    returns (got: Option<seq<ProvisionedUser>>, ghost made: seq<Call>)
    requires Ready(start) && i < |UserParts(cfg)| && Upto(start, [], UserParts(cfg), i, so, server.db)
    requires |list| == i && AllListed(server.db, cfg, list)
    modifies server
    ensures got.Some? ==>
      && Upto(start, [], UserParts(cfg), i + 1, made, server.db)
      && |got.value| == i + 1 && AllListed(server.db, cfg, got.value)
    ensures got.None? ==> Went(start, Whole(cfg), false, made, server.db)
  {
    ghost var before := server.db;
    RunGrows(start, so);
    var one;
    one, made := ProvisionOneUser(server, cfg, i, Users(cfg.groups)[i]);
    OneMoreUser(start, UserParts(cfg), i, so, before, one.Some?, made, server.db);
    made := so + made;
    if one.None? { return None, made; }
    AllListedMore(start, so, before, made, server.db, cfg, list, one.value);
    got := Some(list + [one.value]);
  }

  method ProvisionUsers(server: Server, cfg: Config) returns (got: Option<seq<ProvisionedUser>>, ghost made: seq<Call>)
    requires Ready(server.db)
    modifies server
    ensures Went(old(server.db), Whole(cfg), got.Some?, made, server.db)
    ensures got.Some? ==> Handed(server.db, cfg, got.value)
  {
    ghost var start, parts := server.db, UserParts(cfg);
    got, made := Some([]), [];
    UptoNone(start, [], parts, start);
    for i := 0 to |Users(cfg.groups)|
      invariant got.Some? && |got.value| == i && AllListed(server.db, cfg, got.value)
      invariant Upto(start, [], parts, i, made, server.db)
    {
      got, made := ProvisionNextUser(server, cfg, i, got.value, start, made);
      if got.None? { return; }
    }
    UptoAll(start, [], parts, made, server.db);
    assert [] + Flat(parts) == Flat(parts);
  }

  // ---------------------------------------------------------------------
  // Run
  // ---------------------------------------------------------------------

  /** What a successful run hands over: every planned user with every planned
      room, each the one the database has, with its devices. */
  ghost predicate Handed(db: Db, cfg: Config, got: seq<ProvisionedUser>) {
    |got| == |Users(cfg.groups)| && AllListed(db, cfg, got)
  }

  lemma HandedOnce(db: Db, cfg: Config, a: seq<ProvisionedUser>, b: seq<ProvisionedUser>)
    requires Handed(db, cfg, a) && Handed(db, cfg, b)
    ensures a == b
  {
    forall i | 0 <= i < |a| ensures a[i] == b[i] {
      var defs := Users(cfg.groups)[i];
      forall j | 0 <= j < |defs| ensures a[i].rooms[j] == b[i].rooms[j] {
        assert Returned(db, PlaceOf(cfg, i, defs, j), a[i].rooms[j]);
        assert Returned(db, PlaceOf(cfg, i, defs, j), b[i].rooms[j]);
      }
      assert a[i].rooms == b[i].rooms;
    }
  }

  /** Every device of the place is the user's and stands in the place's room. */
  ghost predicate Furnished(db: Db, at: Place) {
    RoomAt(db, Email(at), RoomName(at)).Some? && forall n :: 0 <= n < |DevicesAt(at)| ==> Stands(db, at, DevicesAt(at)[n])
  }

  ghost predicate Stands(db: Db, at: Place, x: ProvisionedDevice) {
    var d := DeviceAt(db, Email(at), x.hwId);
    d.Some? && db.devices[d.value].room == RoomAt(db, Email(at), RoomName(at))
  }

  ghost predicate AllFurnished(db: Db, cfg: Config) { forall at :: IsPlace(cfg, at) ==> Furnished(db, at) }

  lemma DevicesHold(db: Db, at: Place)
    requires AllHold(db, RoomCalls(at))
    ensures Furnished(db, at)
  {
    var first := [EnsureRoom(Email(at), RoomName(at))];
    PartsHold(db, first, FurnishCalls(at));
    PartsHold(db, AllDevices(at), ControlCalls(at));
    assert Holds(db, first[0]);
    forall n | 0 <= n < |DevicesAt(at)| ensures Stands(db, at, DevicesAt(at)[n]) {
      PartHolds(db, DeviceParts(at), n);
      AssignedStands(db, at, n);
    }
  }

  lemma AssignedStands(db: Db, at: Place, n: nat)
    requires n < |DevicesAt(at)| && AllHold(db, OneDevice(at, Devices(at.def.devices)[n], n))
    ensures Stands(db, at, DevicesAt(at)[n])
  {
    var calls := OneDevice(at, Devices(at.def.devices)[n], n);
    assert Holds(db, calls[1]);
  }

  /** What a run hands over is really there. */
  lemma HandedIsThere(db: Db, cfg: Config, d: Db)
    requires Ready(db) && RunCalls(db, Whole(cfg)) == Some(d)
    ensures AllFurnished(d, cfg)
  {
    PlanCompatible(cfg);
    RunHolds(db, Whole(cfg));
    forall at | IsPlace(cfg, at) ensures Furnished(d, at) {
      PlaceHolds(d, cfg, at);
      DevicesHold(d, at);
    }
  }

  /** Done again from wherever a first part of the calls got to, a run ends as
      the whole run does: same success, same tables, and so the same rooms and
      devices handed over. After the whole run, nothing changes. */
  lemma DoneAgain(db: Db, cfg: Config, ok: bool, made: seq<Call>, d: Db)
    requires Ready(db) && Went(db, Whole(cfg), ok, made, d)
    ensures Ready(d) && RunCalls(d, Whole(cfg)) == RunCalls(db, Whole(cfg))
    ensures ok <==> RunCalls(db, Whole(cfg)).Some?
    ensures ok ==> RunCalls(db, Whole(cfg)) == Some(d)
  {
    assert made == Whole(cfg)[..|made|];
    ProvisioningResumes(cfg, db, |made|);
    RunGrows(db, made);
  }

  /** Run. It succeeds exactly if every planned call does, one after the other;
      then the tables are as those calls leave them and the rooms and devices
      handed over are the planned ones. A failed run is one cut short: done
      again, it ends as the whole run does. */
  method Provision(server: Server, cfg: Config) returns (got: Option<seq<ProvisionedUser>>, ghost made: seq<Call>)
    requires Ready(server.db)
    modifies server
    ensures Ready(server.db) && made <= Whole(cfg) && RunCalls(old(server.db), made) == Some(server.db)
    ensures got.Some? <==> RunCalls(old(server.db), Whole(cfg)).Some?
    ensures got.Some? ==> made == Whole(cfg) && Handed(server.db, cfg, got.value) && AllFurnished(server.db, cfg)
    ensures got.Some? ==> forall at :: IsPlace(cfg, at) ==> InPlace(old(server.db), server.db, at)
    ensures RunCalls(server.db, Whole(cfg)) == RunCalls(old(server.db), Whole(cfg))
  {
    ghost var db := server.db;
    got, made := ProvisionUsers(server, cfg);
    DoneAgain(db, cfg, got.Some?, made, server.db);
    if got.Some? {
      HandedIsThere(db, cfg, server.db);
      RunLeaves(cfg, db, server.db);
    }
  }

  /** A second run ends like the first: after a success it changes nothing and
      hands over the same rooms and devices; after a failure it fails. */
  method ProvisionTwice(server: Server, cfg: Config) returns (first: Option<seq<ProvisionedUser>>, second: Option<seq<ProvisionedUser>>)
    requires Ready(server.db)
    modifies server
    ensures second == first
    ensures first.Some? ==> RunCalls(old(server.db), Whole(cfg)) == Some(server.db)
  {
    ghost var made;
    first, made := Provision(server, cfg);
    ghost var once := server.db;
    second, made := Provision(server, cfg);
    if first.Some? { HandedOnce(once, cfg, first.value, second.value); }
  }
}
