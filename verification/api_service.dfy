/** The API's services as objects over the database: each request step by step,
    proved to do what its one-step description in Api says. */
module ApiService {
  import opened Base
  import opened Times
  import opened Tables
  import opened Api
  import opened ApiIntegrity

  datatype RoomCapabilities = RoomCapabilities(temperature: bool, humidity: bool)

  function CapabilitiesOf(db: Db, r: Id): RoomCapabilities {
    RoomCapabilities(HasCapability(db, r, Temperature, Heater, None), HasCapability(db, r, Humidity, Humidifier, None))
  }

  /** What a list of declared types passes: every type known, none twice. */
  lemma {:induction false} ListErrorExactly<T>(s: seq<T>, i: nat, known: T -> bool, invalid: Error, duplicate: Error)
    requires i <= |s| && Distinct(s[..i])
    ensures ListError(s, i, known, invalid, duplicate).None? <==> Distinct(s) && forall k :: i <= k < |s| ==> known(s[k])
    decreases |s| - i
  {
    if i < |s| {
      if s[i] in s[..i] {
        var j :| 0 <= j < i && s[..i][j] == s[i];
        assert s[j] == s[i];
      } else if known(s[i]) {
        assert s[..i + 1] == s[..i] + [s[i]];
        ListErrorExactly(s, i + 1, known, invalid, duplicate);
      }
    } else {
      assert s[..i] == s;
    }
  }

  /** The loop over declared types, with its map of those seen. */
  method CheckTypes<T(==)>(types: seq<T>, known: T -> bool, invalid: Error, duplicate: Error) returns (e: Option<Error>)
    ensures e == ListError(types, 0, known, invalid, duplicate)
    ensures e.None? <==> Distinct(types) && forall k :: 0 <= k < |types| ==> known(types[k])
  {
    var seen: set<T> := {};
    ListErrorExactly(types, 0, known, invalid, duplicate);
    for i := 0 to |types|
      invariant seen == set k | 0 <= k < i :: types[k]
      invariant ListError(types, 0, known, invalid, duplicate) == ListError(types, i, known, invalid, duplicate)
    {
      assert types[i] in seen <==> types[i] in types[..i];
      if !known(types[i]) { return Some(invalid); }
      if types[i] in seen { return Some(duplicate); }
      seen := seen + {types[i]};
    }
    return None;
  }

  class Server {
    var db: Db
    var sent: seq<Event>

    constructor ()
      ensures db == EMPTY_DB && sent == []
    {
      db, sent := EMPTY_DB, [];
    }

    /** The request had this effect. */
    predicate Did(e: Effect, earlier: seq<Event>, reply: Reply)
      reads this
    {
      db == e.db && sent == earlier + e.sent && reply == e.reply
    }

    method Notify(e: Event)
      modifies this`sent
      ensures sent == old(sent) + [e]
    {
      sent := sent + [e];
    }

    // Rooms

    method CreateRoom(u: Id, name: string) returns (reply: Reply)
      modifies this
      ensures Did(Api.CreateRoom(old(db), u, name), old(sent), reply)
    {
      if u !in db.users { return Failed(DbCheck); }
      if RoomNameTaken(db, u, name, None) { return Failed(NameTaken); }
      var r := db.next;
      db := db.(rooms := db.rooms[r := RoomRow(u, name, DEFAULT_TEMP_DEADBAND, DEFAULT_HUM_DEADBAND)], next := r + 1);
      db := db.(desired := db.desired[r := DesiredRow(Off, false, NO_TARGETS, None)]);
      Notify(RoomCreated(r));
      return Done(r);
    }

    method UpdateRoom(r: Id, u: Id, name: string, dbTemp: Option<real>, dbHum: Option<real>) returns (reply: Reply)
      modifies this
      ensures Did(Api.UpdateRoom(old(db), r, u, name, dbTemp, dbHum), old(sent), reply)
    {
      if !OwnsRoom(db, r, u) { return Failed(NotFound); }
      var row := db.rooms[r].(name := name);
      if dbTemp.Some? { row := row.(deadbandTemp := dbTemp.value); }
      if dbHum.Some? { row := row.(deadbandHum := dbHum.value); }
      if row.deadbandTemp <= 0.0 || row.deadbandHum <= 0.0 { return Failed(DbCheck); }
      if RoomNameTaken(db, u, name, Some(r)) { return Failed(NameTaken); }
      db := db.(rooms := db.rooms[r := row]);
      Notify(RoomConfigChanged(r));
      return Done(r);
    }

    method DeleteRoom(r: Id, u: Id) returns (reply: Reply)
      modifies this
      ensures Did(Api.DeleteRoom(old(db), r, u), old(sent), reply)
    {
      if !OwnsRoom(db, r, u) { return Failed(NotFound); }
      db := DropRooms(db, {r});
      Notify(RoomDeleted(r));
      return Done(r);
    }

    method UpdateDesiredState(r: Id, u: Id, x: DesiredRow) returns (reply: Reply)
      modifies this
      ensures Did(Api.UpdateDesiredState(old(db), r, u, x), old(sent), reply)
    {
      if !OwnsRoom(db, r, u) { return Failed(NotFound); }
      if x.targets.temp.Some? && (x.targets.temp.value < 5.0 || x.targets.temp.value > 40.0) { return Failed(InvalidTarget); }
      if x.targets.hum.Some? && (x.targets.hum.value < 0.0 || x.targets.hum.value > 100.0) { return Failed(InvalidTarget); }
      if x.manualActive && x.mode == Auto {
        if x.targets.temp.None? && x.targets.hum.None? { return Failed(InvalidState); }
        var caps := CapabilitiesOf(db, r);
        if x.targets.temp.Some? {
          if !caps.temperature { return Failed(NoCapability); }
        }
        if x.targets.hum.Some? {
          if !caps.humidity { return Failed(NoCapability); }
        }
      }
      if r !in db.desired { return Failed(NotFound); }
      var ds := db.desired[r];
      ds := ds.(mode := x.mode, manualActive := x.manualActive);
      ds := ds.(targets := x.targets, until := x.until);
      db := db.(desired := db.desired[r := ds]);
      Notify(DesiredStateChanged(r));
      return Done(r);
    }

    /** BulkRoomCapabilities: one map entry per existing room asked for, each
        what RoomCapabilities says of that room. */
    method BulkRoomCapabilities(ids: seq<Id>) returns (out: map<Id, RoomCapabilities>)
      ensures forall r :: r in out <==> r in ids && r in db.rooms
      ensures forall r :: r in out ==> out[r] == CapabilitiesOf(db, r)
    {
      out := map[];
      if ids == [] { return; }
      var rows := AnyOrder(set r | r in ids && r in db.rooms);
      for i := 0 to |rows|
        invariant forall r :: r in out <==> exists k :: 0 <= k < i && rows[k] == r
        invariant forall r :: r in out ==> out[r] == CapabilitiesOf(db, r)
      {
        out := out[rows[i] := CapabilitiesOf(db, rows[i])];
      }
      assert forall r :: r in ids && r in db.rooms ==> r in rows;
    }

    // Devices

    method CreateDevice(u: Id, name: string, hw: HwId, sensors: seq<Measure>, actuators: seq<ActuatorType>) returns (reply: Reply)
      modifies this
      ensures Did(Api.CreateDevice(old(db), u, name, hw, sensors, actuators), old(sent), reply)
    {
      var bad := CheckTypes(sensors, AnyMeasure(), InvalidSensor, DuplicateSensor);
      if bad.Some? { return Failed(bad.value); }
      bad := CheckTypes(actuators, KnownType(), InvalidActuator, DuplicateActuator);
      if bad.Some? { return Failed(bad.value); }
      var taken := HwIdError(db, hw, u);
      if taken.Some? { return Failed(taken.value); }
      if u !in db.users { return Failed(DbCheck); }
      if DeviceNameTaken(db, u, name, None) { return Failed(NameTaken); }
      var d := db.next;
      InsertDevice(u, name, hw, sensors, actuators);
      return Done(d);
    }

    /** The transaction: the device row, then a row per sensor and actuator. */
    method InsertDevice(u: Id, name: string, hw: HwId, sensors: seq<Measure>, actuators: seq<ActuatorType>)
      modifies this`db
      ensures db == old(db).(
        devices := old(db).devices[old(db).next := DeviceRow(u, name, hw, None, (set m | m in sensors), (set a | a in actuators))],
        next := old(db).next + 1)
    {
      var d := db.next;
      var row := DeviceRow(u, name, hw, None, {}, {});
      for i := 0 to |sensors|
        invariant row == DeviceRow(u, name, hw, None, (set m | m in sensors[..i]), {})
      {
        assert sensors[..i + 1] == sensors[..i] + [sensors[i]];
        row := row.(sensors := row.sensors + {sensors[i]});
      }
      assert sensors[..|sensors|] == sensors;
      for i := 0 to |actuators|
        invariant row == DeviceRow(u, name, hw, None, (set m | m in sensors), (set a | a in actuators[..i]))
      {
        assert actuators[..i + 1] == actuators[..i] + [actuators[i]];
        row := row.(actuators := row.actuators + {actuators[i]});
      }
      assert actuators[..|actuators|] == actuators;
      db := db.(devices := db.devices[d := row], next := d + 1);
    }

    /** activeSchedulePeriodsHaveConflict, over the joined rows in any order. */
    method ActivePeriodsConflict(r: Id, temp: bool, hum: bool) returns (conflict: bool)
      ensures conflict <==> exists p :: p in db.periods && IsActivePeriod(db, p, r) && Strands(db.periods[p].targets, temp, hum)
    {
      var ids := AnyOrder(set p | p in db.periods && IsActivePeriod(db, p, r));
      for i := 0 to |ids|
        invariant forall k :: 0 <= k < i ==> !Strands(db.periods[ids[k]].targets, temp, hum)
      {
        var t := db.periods[ids[i]].targets;
        if !temp && t.temp.Some? { return true; }
        if !hum && t.hum.Some? { return true; }
      }
      assert forall p :: p in db.periods && IsActivePeriod(db, p, r) ==> p in ids;
      return false;
    }

    method CapabilityConflictAfterRemoval(r: Id, d: Id) returns (conflict: bool)
      ensures conflict == ConflictAfterRemoval(db, r, d)
    {
      var temp := HasCapability(db, r, Temperature, Heater, Some(d));
      var hum := HasCapability(db, r, Humidity, Humidifier, Some(d));
      if temp && hum { return false; }
      if r in db.desired {
        var ds := db.desired[r];
        if !temp && ds.targets.temp.Some? { return true; }
        if !hum && ds.targets.hum.Some? { return true; }
      }
      conflict := ActivePeriodsConflict(r, temp, hum);
    }

    method UpdateDevice(d: Id, u: Id, name: string, room: Option<Id>) returns (reply: Reply)
      modifies this
      ensures Did(Api.UpdateDevice(old(db), d, u, name, room), old(sent), reply)
    {
      if !OwnsDevice(db, d, u) { return Failed(NotFound); }
      var dev := db.devices[d];
      if room.Some? {
        if !OwnsRoom(db, room.value, u) { return Failed(RoomNotFound); }
      }
      var leaving := dev.room.Some? && (room.None? || room.value != dev.room.value);
      var entering := room.Some? && (dev.room.None? || room.value != dev.room.value);
      if leaving {
        var conflict := CapabilityConflictAfterRemoval(dev.room.value, d);
        if conflict { return Failed(CapabilityConflict); }
      }
      var prev := dev.room;
      dev := dev.(name := name);
      dev := dev.(room := room);
      if DeviceNameTaken(db, u, name, Some(d)) { return Failed(NameTaken); }
      db := db.(devices := db.devices[d := dev]);
      if leaving { Notify(DeviceUnassigned(prev.value, dev.hwId)); }
      if entering { Notify(DeviceAssigned(room.value, dev.hwId)); }
      return Done(d);
    }

    method DeleteDevice(d: Id, u: Id) returns (reply: Reply)
      modifies this
      ensures Did(Api.DeleteDevice(old(db), d, u), old(sent), reply)
    {
      if !OwnsDevice(db, d, u) { return Failed(NotFound); }
      var dev := db.devices[d];
      if dev.room.Some? {
        var conflict := CapabilityConflictAfterRemoval(dev.room.value, d);
        if conflict { return Failed(CapabilityConflict); }
      }
      db := db.(devices := db.devices - {d});
      return Done(d);
    }

    // Schedules

    method CreateSchedule(r: Id, u: Id, name: string) returns (reply: Reply)
      modifies this
      ensures Did(Api.CreateSchedule(old(db), r, u, name), old(sent), reply)
    {
      if !OwnsRoom(db, r, u) { return Failed(NotFound); }
      if ScheduleNameTaken(db, r, name, None) { return Failed(NameTaken); }
      var s := db.next;
      db := db.(schedules := db.schedules[s := ScheduleRow(r, u, name, false)], next := s + 1);
      return Done(s);
    }

    method RenameSchedule(s: Id, u: Id, name: string) returns (reply: Reply)
      modifies this
      ensures Did(Api.RenameSchedule(old(db), s, u, name), old(sent), reply)
    {
      if !OwnsSchedule(db, s, u) { return Failed(NotFound); }
      var sched := db.schedules[s];
      sched := sched.(name := name);
      if ScheduleNameTaken(db, sched.room, name, Some(s)) { return Failed(NameTaken); }
      db := db.(schedules := db.schedules[s := sched]);
      return Done(s);
    }

    method DeleteSchedule(s: Id, u: Id) returns (reply: Reply)
      modifies this
      ensures Did(Api.DeleteSchedule(old(db), s, u), old(sent), reply)
    {
      if !OwnsSchedule(db, s, u) { return Failed(NotFound); }
      db := db.(periods := map p | p in db.periods && db.periods[p].schedule != s :: db.periods[p]);
      db := db.(schedules := db.schedules - {s});
      return Done(s);
    }

    /** Deactivate what else is active in the room, then activate the schedule:
        two updates in one transaction. */
    method ActivateRows(s: Id, r: Id)
      requires s in db.schedules && db.schedules[s].room == r
      modifies this`db
      ensures db == old(db).(schedules := map t | t in old(db).schedules ::
        if t == s then old(db).schedules[t].(active := true)
        else if old(db).schedules[t].room == r then old(db).schedules[t].(active := false)
        else old(db).schedules[t])
    {
      db := db.(schedules := map t | t in db.schedules ::
        if db.schedules[t].room == r && db.schedules[t].active && t != s then db.schedules[t].(active := false)
        else db.schedules[t]);
      db := db.(schedules := db.schedules[s := db.schedules[s].(active := true)]);
    }

    method Activate(s: Id, u: Id) returns (reply: Reply)
      modifies this
      ensures Did(Api.Activate(old(db), s, u), old(sent), reply)
    {
      if !OwnsSchedule(db, s, u) { return Failed(NotFound); }
      var sched := db.schedules[s];
      if sched.active { return Failed(AlreadyActive); }
      if !PeriodsHaveCapability(db, s, sched.room) { return Failed(CapabilityConflict); }
      ActivateRows(s, sched.room);
      Notify(ScheduleChanged(sched.room));
      return Done(s);
    }

    method Deactivate(s: Id, u: Id) returns (reply: Reply)
      modifies this
      ensures Did(Api.Deactivate(old(db), s, u), old(sent), reply)
    {
      if !OwnsSchedule(db, s, u) { return Failed(NotFound); }
      var sched := db.schedules[s];
      if !sched.active { return Failed(AlreadyInactive); }
      db := db.(schedules := db.schedules[s := sched.(active := false)]);
      Notify(ScheduleChanged(sched.room));
      return Done(s);
    }

    // Periods

    method BuildPeriod(s: Id, x: PeriodInput, exclude: Option<Id>) returns (row: PeriodRow, e: Option<Error>)
      ensures row == ToRow(s, x) && e == PeriodError(db, s, ToRow(s, x), exclude)
    {
      row := ToRow(s, x);
      if !LexLess(x.start, x.end) { return row, Some(InvalidTimeRange); }
      if HasOverlap(db, s, row, exclude) { return row, Some(PeriodOverlap); }
      return row, None;
    }

    method CreatePeriod(s: Id, u: Id, x: PeriodInput) returns (reply: Reply)
      modifies this
      ensures Did(Api.CreatePeriod(old(db), s, u, x), old(sent), reply)
    {
      if !GoodRequest(x) { return Failed(BadRequest); }
      if !OwnsSchedule(db, s, u) { return Failed(NotFound); }
      var sched := db.schedules[s];
      var row, e := BuildPeriod(s, x, None);
      if e.Some? { return Failed(e.value); }
      var p := db.next;
      db := db.(periods := db.periods[p := row], next := p + 1);
      if sched.active { Notify(ScheduleChanged(sched.room)); }
      return Done(p);
    }

    method UpdatePeriod(p: Id, u: Id, x: PeriodInput) returns (reply: Reply)
      modifies this
      ensures Did(Api.UpdatePeriod(old(db), p, u, x), old(sent), reply)
    {
      if !GoodRequest(x) { return Failed(BadRequest); }
      if p !in db.periods || !OwnsSchedule(db, db.periods[p].schedule, u) { return Failed(PeriodNotFound); }
      var s := db.periods[p].schedule;
      var sched := db.schedules[s];
      var row, e := BuildPeriod(s, x, Some(p));
      if e.Some? { return Failed(e.value); }
      db := db.(periods := db.periods[p := row]);
      if sched.active { Notify(ScheduleChanged(sched.room)); }
      return Done(p);
    }

    method DeletePeriod(p: Id, u: Id) returns (reply: Reply)
      modifies this
      ensures Did(Api.DeletePeriod(old(db), p, u), old(sent), reply)
    {
      if p !in db.periods || !OwnsSchedule(db, db.periods[p].schedule, u) { return Failed(PeriodNotFound); }
      var sched := db.schedules[db.periods[p].schedule];
      db := db.(periods := db.periods - {p});
      if sched.active { Notify(ScheduleChanged(sched.room)); }
      return Done(p);
    }

    // Users

    method Register(email: string) returns (reply: Reply)
      modifies this
      ensures Did(Api.Register(old(db), email), old(sent), reply)
    {
      if exists u :: u in db.users && db.users[u].email == email { return Failed(EmailTaken); }
      var u := db.next;
      db := db.(users := db.users[u := UserRow(email, "UTC")], next := u + 1);
      return Done(u);
    }

    method SetTimezone(u: Id, tz: string, zones: set<string>) returns (reply: Reply)
      modifies this
      ensures Did(Api.SetTimezone(old(db), u, tz, zones), old(sent), reply)
    {
      if tz !in zones { return Failed(InvalidTimezone); }
      if u in db.users { db := db.(users := db.users[u := db.users[u].(timezone := tz)]); }
      return Done(u);
    }

    method DeleteUser(u: Id) returns (reply: Reply)
      modifies this
      ensures Did(Api.DeleteUser(old(db), u), old(sent), reply)
    {
      if u !in db.users { return Failed(NotFound); }
      db := DropRooms(db, RoomsOf(db, u));
      db := db.(devices := map d | d in db.devices && db.devices[d].user != u :: db.devices[d]);
      db := db.(users := db.users - {u});
      return Done(u);
    }

    method ServeAccount(op: Op) returns (reply: Reply)
      requires ForUser(op) || ForRoom(op) || ForDevice(op)
      modifies this
      ensures Did(Apply(old(db), op), old(sent), reply)
    {
      match op
      case OpRegister(email) => reply := Register(email);
      case OpSetTimezone(u, tz, zones) => reply := SetTimezone(u, tz, zones);
      case OpDeleteUser(u) => reply := DeleteUser(u);
      case OpCreateRoom(u, name) => reply := CreateRoom(u, name);
      case OpUpdateRoom(r, u, name, t, h) => reply := UpdateRoom(r, u, name, t, h);
      case OpDeleteRoom(r, u) => reply := DeleteRoom(r, u);
      case OpDesiredState(r, u, row) => reply := UpdateDesiredState(r, u, row);
      case OpCreateDevice(u, name, hw, ss, as_) => reply := CreateDevice(u, name, hw, ss, as_);
      case OpUpdateDevice(d, u, name, room) => reply := UpdateDevice(d, u, name, room);
      case OpDeleteDevice(d, u) => reply := DeleteDevice(d, u);
    }

    method ServePeriod(op: Op) returns (reply: Reply)
      requires ForPeriod(op)
      modifies this
      ensures Did(Apply(old(db), op), old(sent), reply)
    {
      match op
      case OpCreatePeriod(s, u, x) => reply := CreatePeriod(s, u, x);
      case OpUpdatePeriod(p, u, x) => reply := UpdatePeriod(p, u, x);
      case OpDeletePeriod(p, u) => reply := DeletePeriod(p, u);
    }

    method ServeSchedule(op: Op) returns (reply: Reply)
      requires !ForUser(op) && !ForRoom(op) && !ForDevice(op) && !ForPeriod(op)
      modifies this
      ensures Did(Apply(old(db), op), old(sent), reply)
    {
      match op
      case OpCreateSchedule(r, u, name) => reply := CreateSchedule(r, u, name);
      case OpRenameSchedule(s, u, name) => reply := RenameSchedule(s, u, name);
      case OpDeleteSchedule(s, u) => reply := DeleteSchedule(s, u);
      case OpActivate(s, u) => reply := Activate(s, u);
      case OpDeactivate(s, u) => reply := Deactivate(s, u);
    }

    method Serve(op: Op) returns (reply: Reply)
      modifies this
      ensures Did(Apply(old(db), op), old(sent), reply)
    {
      if ForUser(op) || ForRoom(op) || ForDevice(op) { reply := ServeAccount(op); }
      else if ForPeriod(op) { reply := ServePeriod(op); }
      else { reply := ServeSchedule(op); }
    }

    /** After `i` of the requests: what is still to come completes what there
        is. */
    ghost predicate Served(d0: Db, s0: seq<Event>, ops: seq<Op>, i: nat, d: Db, s: seq<Event>, replies: seq<Reply>) {
      && i <= |ops|
      && Run(d0, ops) == Run(d, ops[i..])
      && s0 + SentIn(d0, ops) == s + SentIn(d, ops[i..])
      && RepliesIn(d0, ops) == replies + RepliesIn(d, ops[i..])
    }

    lemma Joined<T>(a: seq<T>, b: seq<T>, c: seq<T>)
      ensures a + b + c == a + (b + c)
    {
    }

    /** Nothing here depends on what the request does. */
    lemma ServedOn(d0: Db, s0: seq<Event>, ops: seq<Op>, i: nat, d: Db, s: seq<Event>, replies: seq<Reply>, e: Effect)
      requires i < |ops| && Served(d0, s0, ops, i, d, s, replies)
      requires Run(d, ops[i..]) == Run(e.db, ops[i + 1..])
      requires SentIn(d, ops[i..]) == e.sent + SentIn(e.db, ops[i + 1..])
      requires RepliesIn(d, ops[i..]) == [e.reply] + RepliesIn(e.db, ops[i + 1..])
      ensures Served(d0, s0, ops, i + 1, e.db, s + e.sent, replies + [e.reply])
    {
      Joined(s, e.sent, SentIn(e.db, ops[i + 1..]));
      Joined(replies, [e.reply], RepliesIn(e.db, ops[i + 1..]));
    }

    lemma ServedFirst(d: Db, ops: seq<Op>, i: nat)
      requires i < |ops|
      ensures var e := Apply(d, ops[i]);
        && Run(d, ops[i..]) == Run(e.db, ops[i + 1..])
        && SentIn(d, ops[i..]) == e.sent + SentIn(e.db, ops[i + 1..])
        && RepliesIn(d, ops[i..]) == [e.reply] + RepliesIn(e.db, ops[i + 1..])
    {
      assert ops[i..][0] == ops[i] && ops[i..][1..] == ops[i + 1..];
    }

    /** Any number of requests: the tables, the events and the replies are
        those of the one-step descriptions, and every constraint still holds. */
    method ServeAll(ops: seq<Op>) returns (replies: seq<Reply>)
      requires Valid(db)
      modifies this
      ensures db == Run(old(db), ops) && Valid(db)
      ensures sent == old(sent) + SentIn(old(db), ops) && replies == RepliesIn(old(db), ops)
    {
      replies := [];
      for i := 0 to |ops|
        invariant Served(old(db), old(sent), ops, i, db, sent, replies)
      {
        ghost var was, so := db, sent;
        var reply := Serve(ops[i]);
        ServedFirst(was, ops, i);
        ServedOn(old(db), old(sent), ops, i, was, so, replies, Apply(was, ops[i]));
        replies := replies + [reply];
      }
      RunValid(old(db), ops);
    }
  }
}
