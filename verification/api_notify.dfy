/** Which requests tell the stream about the rooms they change, and which do
    not. */
module ApiNotify {
  import opened Base
  import opened Tables
  import opened Api
  import opened ApiIntegrity
  import opened Appdb

  /** Rooms whose rows a request may change without sending any event: the four
      writes that never notify. */
  function SilentRooms(db: Db, op: Op): set<Id> {
    match op
    case OpSetTimezone(u, _, _) => RoomsOf(db, u)
    case OpDeleteUser(u) => RoomsOf(db, u)
    case OpDeleteDevice(d, _) => if d in db.devices && db.devices[d].room.Some? then {db.devices[d].room.value} else {}
    case OpDeleteSchedule(s, _) => if s in db.schedules then {db.schedules[s].room} else {}
    case _ => {}
  }

  predicate Notified(sent: seq<Event>, r: Id) { exists e :: e in sent && Names(e, r) }

  lemma SamePeriods(db: Db, db': Db, r: Id)
    requires forall p :: p in db.periods && IsActivePeriod(db, p, r) ==>
      p in db'.periods && IsActivePeriod(db', p, r) && db.periods[p] == db'.periods[p]
    requires forall p :: p in db'.periods && IsActivePeriod(db', p, r) ==> p in db.periods && IsActivePeriod(db, p, r)
    ensures ActivePeriods(db, r) == ActivePeriods(db', r)
  {
  }

  lemma SameFixtures(db: Db, db': Db, r: Id)
    requires forall d :: d in db.devices && db.devices[d].room == Some(r) ==>
      d in db'.devices && db'.devices[d].room == Some(r)
      && db.devices[d].hwId == db'.devices[d].hwId && db.devices[d].actuators == db'.devices[d].actuators
    requires forall d :: d in db'.devices && db'.devices[d].room == Some(r) ==> d in db.devices && db.devices[d].room == Some(r)
    ensures Fixtures(db, r) == Fixtures(db', r)
  {
  }

  // Fixtures: only the requests that write devices matter.

  lemma DeletionFixtures(db: Db, gone: set<Id>, r: Id)
    requires r !in gone
    ensures Fixtures(DropRooms(db, gone), r) == Fixtures(db, r)
  {
    SameFixtures(db, DropRooms(db, gone), r);
  }

  lemma DeleteUserFixtures(db: Db, u: Id, r: Id)
    requires References(db) && r !in RoomsOf(db, u)
    ensures Fixtures(DeleteUser(db, u).db, r) == Fixtures(db, r)
  {
    DeletionFixtures(db, RoomsOf(db, u), r);
    SameFixtures(db, DeleteUser(db, u).db, r);
  }

  lemma UpdateDeviceFixtures(db: Db, d: Id, u: Id, name: string, room: Option<Id>, r: Id)
    requires !Notified(UpdateDevice(db, d, u, name, room).sent, r)
    ensures Fixtures(UpdateDevice(db, d, u, name, room).db, r) == Fixtures(db, r)
  {
    var e := UpdateDevice(db, d, u, name, room);
    if e.reply.Done? {
      var prev, hw := db.devices[d].room, db.devices[d].hwId;
      if prev.Some? && room != prev { assert DeviceUnassigned(prev.value, hw) in e.sent; }
      if room.Some? && room != prev { assert DeviceAssigned(room.value, hw) in e.sent; }
      assert e.db.devices == db.devices[d := db.devices[d].(name := name, room := room)];
      MovedElsewhere(db, e.db, d, name, room, r);
    }
  }

  lemma MovedElsewhere(db: Db, db': Db, d: Id, name: string, room: Option<Id>, r: Id)
    requires d in db.devices && db'.devices == db.devices[d := db.devices[d].(name := name, room := room)]
    requires db.devices[d].room == Some(r) <==> room == Some(r)
    ensures Fixtures(db', r) == Fixtures(db, r)
  {
    SameFixtures(db, db', r);
  }

  lemma CreateDeviceFixtures(
    db: Db, u: Id, name: string, hw: HwId, sensors: seq<Measure>, actuators: seq<ActuatorType>, r: Id)
    requires IdsBelowNext(db)
    ensures Fixtures(CreateDevice(db, u, name, hw, sensors, actuators).db, r) == Fixtures(db, r)
  {
    SameFixtures(db, CreateDevice(db, u, name, hw, sensors, actuators).db, r);
  }

  lemma DeleteDeviceFixtures(db: Db, d: Id, u: Id, r: Id)
    requires d in db.devices ==> db.devices[d].room != Some(r)
    ensures Fixtures(DeleteDevice(db, d, u).db, r) == Fixtures(db, r)
  {
    SameFixtures(db, DeleteDevice(db, d, u).db, r);
  }

  lemma FixturesKept(db: Db, op: Op, r: Id)
    requires References(db) && IdsBelowNext(db)
    requires !Notified(Apply(db, op).sent, r) && r !in SilentRooms(db, op)
    ensures Fixtures(Apply(db, op).db, r) == Fixtures(db, r)
  {
    if !WritesDevices(op) { DevicesUntouched(db, op); }
    else if op.OpDeleteUser? { DeleteUserFixtures(db, op.u, r); }
    else if op.OpDeleteRoom? {
      if Apply(db, op).reply.Done? {
        assert RoomDeleted(op.r) in Apply(db, op).sent;
        DeletionFixtures(db, {op.r}, r);
      }
    }
    else if op.OpUpdateDevice? { UpdateDeviceFixtures(db, op.d, op.u, op.name, op.room, r); }
    else if op.OpCreateDevice? { CreateDeviceFixtures(db, op.u, op.name, op.hw, op.sensors, op.actuators, r); }
    else { DeleteDeviceFixtures(db, op.d, op.u, r); }
  }

  // Active periods: only the requests that write schedules or periods matter.

  lemma DeletionPeriods(db: Db, gone: set<Id>, r: Id)
    requires r !in gone
    ensures ActivePeriods(DropRooms(db, gone), r) == ActivePeriods(db, r)
  {
    SamePeriods(db, DropRooms(db, gone), r);
  }

  lemma CreateSchedulePeriods(db: Db, q: Id, u: Id, name: string, r: Id)
    requires IdsBelowNext(db) && PeriodRefs(db.periods, db.schedules)
    ensures ActivePeriods(CreateSchedule(db, q, u, name).db, r) == ActivePeriods(db, r)
  {
    SamePeriods(db, CreateSchedule(db, q, u, name).db, r);
  }

  lemma RenameSchedulePeriods(db: Db, s: Id, u: Id, name: string, r: Id)
    ensures ActivePeriods(RenameSchedule(db, s, u, name).db, r) == ActivePeriods(db, r)
  {
    SamePeriods(db, RenameSchedule(db, s, u, name).db, r);
  }

  lemma DeleteSchedulePeriods(db: Db, s: Id, u: Id, r: Id)
    requires s in db.schedules ==> db.schedules[s].room != r
    ensures ActivePeriods(DeleteSchedule(db, s, u).db, r) == ActivePeriods(db, r)
  {
    SamePeriods(db, DeleteSchedule(db, s, u).db, r);
  }

  lemma ActivatePeriods(db: Db, s: Id, u: Id, r: Id)
    requires !Notified(Activate(db, s, u).sent, r)
    ensures ActivePeriods(Activate(db, s, u).db, r) == ActivePeriods(db, r)
  {
    var e := Activate(db, s, u);
    if e.reply.Done? { assert ScheduleChanged(db.schedules[s].room) in e.sent; }
    SamePeriods(db, e.db, r);
  }

  lemma DeactivatePeriods(db: Db, s: Id, u: Id, r: Id)
    requires !Notified(Deactivate(db, s, u).sent, r)
    ensures ActivePeriods(Deactivate(db, s, u).db, r) == ActivePeriods(db, r)
  {
    var e := Deactivate(db, s, u);
    if e.reply.Done? { assert ScheduleChanged(db.schedules[s].room) in e.sent; }
    SamePeriods(db, e.db, r);
  }

  lemma ScheduleWritePeriods(db: Db, op: Op, r: Id)
    requires IdsBelowNext(db) && PeriodRefs(db.periods, db.schedules)
    requires op.OpCreateSchedule? || op.OpRenameSchedule? || op.OpDeleteSchedule? || op.OpActivate? || op.OpDeactivate?
    requires !Notified(Apply(db, op).sent, r) && r !in SilentRooms(db, op)
    ensures ActivePeriods(Apply(db, op).db, r) == ActivePeriods(db, r)
  {
    match op
    case OpCreateSchedule(q, u, name) => CreateSchedulePeriods(db, q, u, name, r);
    case OpRenameSchedule(s, u, name) => RenameSchedulePeriods(db, s, u, name, r);
    case OpDeleteSchedule(s, u) => DeleteSchedulePeriods(db, s, u, r);
    case OpActivate(s, u) => ActivatePeriods(db, s, u, r);
    case OpDeactivate(s, u) => DeactivatePeriods(db, s, u, r);
  }

  lemma CreatePeriodPeriods(db: Db, s: Id, u: Id, x: PeriodInput, r: Id)
    requires IdsBelowNext(db)
    requires !Notified(CreatePeriod(db, s, u, x).sent, r)
    ensures ActivePeriods(CreatePeriod(db, s, u, x).db, r) == ActivePeriods(db, r)
  {
    var e := CreatePeriod(db, s, u, x);
    if e.reply.Done? && db.schedules[s].active {
      assert ScheduleChanged(db.schedules[s].room) in e.sent;
    }
    SamePeriods(db, e.db, r);
  }

  lemma UpdatePeriodPeriods(db: Db, p: Id, u: Id, x: PeriodInput, r: Id)
    requires !Notified(UpdatePeriod(db, p, u, x).sent, r)
    ensures ActivePeriods(UpdatePeriod(db, p, u, x).db, r) == ActivePeriods(db, r)
  {
    var e := UpdatePeriod(db, p, u, x);
    if e.reply.Done? && db.schedules[db.periods[p].schedule].active {
      assert ScheduleChanged(db.schedules[db.periods[p].schedule].room) in e.sent;
    }
    SamePeriods(db, e.db, r);
  }

  lemma DeletePeriodPeriods(db: Db, p: Id, u: Id, r: Id)
    requires !Notified(DeletePeriod(db, p, u).sent, r)
    ensures ActivePeriods(DeletePeriod(db, p, u).db, r) == ActivePeriods(db, r)
  {
    var e := DeletePeriod(db, p, u);
    if e.reply.Done? && db.schedules[db.periods[p].schedule].active {
      assert ScheduleChanged(db.schedules[db.periods[p].schedule].room) in e.sent;
    }
    SamePeriods(db, e.db, r);
  }

  lemma PeriodWritePeriods(db: Db, op: Op, r: Id)
    requires IdsBelowNext(db) && ForPeriod(op)
    requires !Notified(Apply(db, op).sent, r)
    ensures ActivePeriods(Apply(db, op).db, r) == ActivePeriods(db, r)
  {
    match op
    case OpCreatePeriod(s, u, x) => CreatePeriodPeriods(db, s, u, x, r);
    case OpUpdatePeriod(p, u, x) => UpdatePeriodPeriods(db, p, u, x, r);
    case OpDeletePeriod(p, u) => DeletePeriodPeriods(db, p, u, r);
  }

  lemma PeriodsKept(db: Db, op: Op, r: Id)
    requires References(db) && IdsBelowNext(db)
    requires !Notified(Apply(db, op).sent, r) && r !in SilentRooms(db, op)
    ensures ActivePeriods(Apply(db, op).db, r) == ActivePeriods(db, r)
  {
    if op.OpCreatePeriod? || op.OpUpdatePeriod? || op.OpDeletePeriod? { PeriodWritePeriods(db, op, r); }
    else if op.OpDeleteUser? { DeletionPeriods(db, RoomsOf(db, op.u), r); }
    else if op.OpDeleteRoom? {
      if Apply(db, op).reply.Done? {
        assert RoomDeleted(op.r) in Apply(db, op).sent;
        DeletionPeriods(db, {op.r}, r);
      }
    }
    else if WritesSchedules(op) { ScheduleWritePeriods(db, op, r); }
    else {
      SchedulesUntouched(db, op);
      PeriodsUntouched(db, op);
    }
  }

  lemma PeriodsUntouched(db: Db, op: Op)
    requires !op.OpCreatePeriod? && !op.OpUpdatePeriod? && !op.OpDeletePeriod?
    requires !op.OpDeleteSchedule? && !op.OpDeleteRoom? && !op.OpDeleteUser?
    ensures Apply(db, op).db.periods == db.periods
  {
  }

  // The room's own row, its owner's timezone and its desired state.

  ghost predicate SameRoom(db: Db, db': Db, r: Id) {
    && (r in db.rooms <==> r in db'.rooms)
    && (r in db.rooms ==>
          && db'.rooms[r] == db.rooms[r]
          && (db.rooms[r].user in db.users <==> db.rooms[r].user in db'.users)
          && (db.rooms[r].user in db.users ==>
                db'.users[db.rooms[r].user].timezone == db.users[db.rooms[r].user].timezone))
    && DesiredOf(db', r) == DesiredOf(db, r)
  }

  lemma UserWriteRoom(db: Db, op: Op, r: Id)
    requires RoomRefs(db.rooms, db.users) && IdsBelowNext(db)
    requires op.OpRegister? || op.OpSetTimezone? || op.OpDeleteUser?
    requires r !in SilentRooms(db, op)
    ensures SameRoom(db, Apply(db, op).db, r)
  {
  }

  lemma RoomWriteRoom(db: Db, op: Op, r: Id)
    requires op.OpCreateRoom? || op.OpUpdateRoom? || op.OpDeleteRoom? || op.OpDesiredState?
    requires !Notified(Apply(db, op).sent, r)
    ensures SameRoom(db, Apply(db, op).db, r)
  {
    var e := Apply(db, op);
    if op.OpCreateRoom? && e.reply.Done? { assert RoomCreated(db.next) in e.sent; }
    if op.OpUpdateRoom? && e.reply.Done? { assert RoomConfigChanged(op.r) in e.sent; }
    if op.OpDeleteRoom? && e.reply.Done? { assert RoomDeleted(op.r) in e.sent; }
    if op.OpDesiredState? && e.reply.Done? { assert DesiredStateChanged(op.r) in e.sent; }
  }

  lemma RoomKept(db: Db, op: Op, r: Id)
    requires RoomRefs(db.rooms, db.users) && IdsBelowNext(db)
    requires !Notified(Apply(db, op).sent, r) && r !in SilentRooms(db, op)
    ensures SameRoom(db, Apply(db, op).db, r)
  {
    if op.OpRegister? || op.OpSetTimezone? || op.OpDeleteUser? { UserWriteRoom(db, op, r); }
    else if op.OpCreateRoom? || op.OpUpdateRoom? || op.OpDeleteRoom? || op.OpDesiredState? { RoomWriteRoom(db, op, r); }
    else {
      UsersUntouched(db, op);
      RoomsUntouched(db, op);
    }
  }

  /** A request that changes what the control service would load for a room
      names that room in an event, unless it is one of the silent writes. */
  lemma ChangesAreNotified(db: Db, op: Op, r: Id)
    requires IdsBelowNext(db) && References(db) && RowsOf(Apply(db, op).db, r) != RowsOf(db, r)
    ensures Notified(Apply(db, op).sent, r) || r in SilentRooms(db, op)
  {
    if !Notified(Apply(db, op).sent, r) && r !in SilentRooms(db, op) {
      RoomKept(db, op, r);
      PeriodsKept(db, op, r);
      FixturesKept(db, op, r);
    }
  }

  /** When a silent write leaves the room's cache entry saying something that
      is no longer so. */
  predicate Outdates(db: Db, op: Op, r: Id)
    requires r in SilentRooms(db, op)
  {
    match op
    case OpSetTimezone(u, tz, _) => u in db.users && db.users[u].timezone != tz
    case OpDeleteUser(_) => true
    case OpDeleteDevice(d, _) => exists a :: a in db.devices[d].actuators && Known(a)
    case OpDeleteSchedule(s, _) => db.schedules[s].active && exists p :: p in db.periods && db.periods[p].schedule == s
    case _ => false
  }

  lemma TimezoneOutdates(db: Db, u: Id, tz: string, zones: set<string>, r: Id)
    requires RoomRefs(db.rooms, db.users) && r in RoomsOf(db, u) && tz in zones
    ensures Current(SetTimezone(db, u, tz, zones).db, r) != Current(db, r) <==> db.users[u].timezone != tz
  {
    SamePeriods(db, SetTimezone(db, u, tz, zones).db, r);
    SameFixtures(db, SetTimezone(db, u, tz, zones).db, r);
  }

  /** A period is in the entry under its own id. */
  lemma PeriodMissed(r: Id, a: map<Id, PeriodRow>, b: map<Id, PeriodRow>, p: Id)
    requires p in a && p !in b
    ensures CachedPeriods(r, a) != CachedPeriods(r, b)
  {
    var c := CachePeriod(PeriodScan(p, r, a[p]));
    assert c in CachedPeriods(r, a) && c.id == p;
    assert forall x :: x in CachedPeriods(r, b) ==> x.id in b;
  }

  lemma ScheduleDeletionOutdates(db: Db, s: Id, u: Id, r: Id)
    requires RoomRefs(db.rooms, db.users) && OwnsSchedule(db, s, u) && db.schedules[s].room == r && r in db.rooms
    ensures Current(DeleteSchedule(db, s, u).db, r) != Current(db, r)
       <==> db.schedules[s].active && exists p :: p in db.periods && db.periods[p].schedule == s
  {
    var db' := DeleteSchedule(db, s, u).db;
    if p :| db.schedules[s].active && p in db.periods && db.periods[p].schedule == s {
      PeriodMissed(r, ActivePeriods(db, r), ActivePeriods(db', r), p);
    } else {
      SamePeriods(db, db', r);
      SameFixtures(db, db', r);
    }
  }

  /** Hardware ids being unique, the deleted device's id leaves exactly the
      lists it was in. */
  lemma FixtureRemoved(db: Db, db': Db, d: Id, r: Id, t: ActuatorType)
    requires UniqueBy(db.devices, HwKey) && d in db.devices && db.devices[d].room == Some(r)
    requires db'.devices == db.devices - {d}
    ensures WithActuator(Fixtures(db', r), t) == WithActuator(Fixtures(db, r), t)
       <==> t !in db.devices[d].actuators
  {
    var fs, fs', hw := Fixtures(db, r), Fixtures(db', r), db.devices[d].hwId;
    assert fs' == fs - {d};
    forall e | e in fs' ensures fs'[e] == fs[e] && fs'[e].hwId != hw {
      assert HwKey(db.devices[e]) != HwKey(db.devices[d]);
    }
    if t in db.devices[d].actuators {
      assert d in fs && hw in WithActuator(fs, t);
    } else {
      assert forall h :: h in WithActuator(fs, t) ==> h in WithActuator(fs', t);
    }
  }

  lemma DeviceDeletionOutdates(db: Db, d: Id, u: Id, r: Id)
    requires RoomRefs(db.rooms, db.users) && UniqueBy(db.devices, HwKey) && r in db.rooms
    requires DeleteDevice(db, d, u).reply.Done? && db.devices[d].room == Some(r)
    ensures Current(DeleteDevice(db, d, u).db, r) != Current(db, r) <==> exists a :: a in db.devices[d].actuators && Known(a)
  {
    var db' := DeleteDevice(db, d, u).db;
    SamePeriods(db, db', r);
    FixtureRemoved(db, db', d, r, Heater);
    FixtureRemoved(db, db', d, r, Humidifier);
    assert Known(Heater) && Known(Humidifier);
  }

  /** The four silent writes leave the stream silent and outdate the room's
      entry exactly under the condition above: the owner's deletion always, a
      new timezone, an active schedule if it has a period, a device if it has
      an actuator of a known type. */
  lemma SilentChangesExactly(db: Db, op: Op, r: Id)
    requires IdsBelowNext(db) && References(db) && UniqueBy(db.devices, HwKey)
    requires r in SilentRooms(db, op) && Apply(db, op).reply.Done?
    ensures Apply(db, op).sent == []
    ensures Current(Apply(db, op).db, r) != Current(db, r) <==> Outdates(db, op, r)
  {
    match op
    case OpSetTimezone(u, tz, zones) => TimezoneOutdates(db, u, tz, zones, r);
    case OpDeleteUser(u) => assert r !in Apply(db, op).db.rooms;
    case OpDeleteDevice(d, u) => DeviceDeletionOutdates(db, d, u, r);
    case OpDeleteSchedule(s, u) => ScheduleDeletionOutdates(db, s, u, r);
    case _ =>
  }

  lemma RoomOpsKeepDeleted(db: Db, op: Op, r: Id)
    requires r < db.next && r !in db.rooms && (ForRoom(op) || op.OpDeleteUser?)
    ensures r !in Apply(db, op).db.rooms
  {
  }

  /** A room that is gone stays gone: ids are not reused. */
  lemma DeletedStaysDeleted(db: Db, op: Op, r: Id)
    requires IdsBelowNext(db) && r < db.next && r !in db.rooms
    ensures r < Apply(db, op).db.next && r !in Apply(db, op).db.rooms
  {
    KeepsIds(db, op);
    if ForRoom(op) || op.OpDeleteUser? { RoomOpsKeepDeleted(db, op, r); } else { OthersKeepRooms(db, op); }
  }

  lemma OnlyDeletionsAnnounced(db: Db, op: Op, r: Id)
    requires RoomDeleted(r) in Apply(db, op).sent
    ensures op.OpDeleteRoom? && op.r == r && DeleteRoom(db, r, op.u).reply.Done?
  {
  }

  /** A room_deleted event is only sent for a room that is gone for good. */
  lemma RoomDeletedIsTrue(db: Db, op: Op, r: Id)
    requires IdsBelowNext(db) && RoomDeleted(r) in Apply(db, op).sent
    ensures r < Apply(db, op).db.next && r !in Apply(db, op).db.rooms
  {
    OnlyDeletionsAnnounced(db, op, r);
    assert Apply(db, op) == DeleteRoom(db, r, op.u);
  }
}
