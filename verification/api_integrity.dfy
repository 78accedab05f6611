/** Every request keeps the tables valid: references, unique keys, one active
    schedule per room, no overlapping periods. */
module ApiIntegrity {
  import opened Base
  import opened Times
  import opened Tables
  import opened Api

  // ---------------------------------------------------------------------
  // One table at a time
  // ---------------------------------------------------------------------

  lemma PutUnique<V, K>(m: map<Id, V>, key: V -> K, k: Id, v: V)
    requires UniqueBy(m, key)
    requires forall a :: a in m && a != k ==> key(m[a]) != key(v)
    ensures UniqueBy(m[k := v], key)
  {
  }

  /** Rows kept, with the same key, stay unique. */
  lemma KeepUnique<V, K>(m: map<Id, V>, m': map<Id, V>, key: V -> K)
    requires UniqueBy(m, key)
    requires forall a :: a in m' ==> a in m && key(m'[a]) == key(m[a])
    ensures UniqueBy(m', key)
  {
    forall a, b | a in m' && b in m' && key(m'[a]) == key(m'[b]) ensures a == b {
      assert key(m[a]) == key(m[b]);
    }
  }

  lemma ActivateOne(schedules: map<Id, ScheduleRow>, schedules': map<Id, ScheduleRow>, s: Id)
    requires OneActive(schedules) && s in schedules && schedules'.Keys == schedules.Keys
    requires forall t :: t in schedules ==>
      schedules'[t] == if t == s then schedules[t].(active := true)
                       else if schedules[t].room == schedules[s].room then schedules[t].(active := false)
                       else schedules[t]
    ensures OneActive(schedules')
  {
  }

  lemma ClashSymmetric(p: PeriodRow, q: PeriodRow)
    ensures Clash(p, q) == Clash(q, p)
  {
    assert p.days * q.days == q.days * p.days;
  }

  lemma PutNoClash(periods: map<Id, PeriodRow>, k: Id, row: PeriodRow)
    requires NoClash(periods)
    requires forall p :: p in periods && p != k && periods[p].schedule == row.schedule ==> !Clash(periods[p], row)
    ensures NoClash(periods[k := row])
  {
    var periods' := periods[k := row];
    forall p, q | p in periods' && q in periods' && p != q && periods'[p].schedule == periods'[q].schedule
      ensures !Clash(periods'[p], periods'[q])
    {
      ClashSymmetric(periods'[p], periods'[q]);
    }
  }

  // ---------------------------------------------------------------------
  // One constraint at a time, over every request
  // ---------------------------------------------------------------------

  predicate ForUser(op: Op) { op.OpRegister? || op.OpSetTimezone? || op.OpDeleteUser? }
  predicate ForRoom(op: Op) { op.OpCreateRoom? || op.OpUpdateRoom? || op.OpDeleteRoom? || op.OpDesiredState? }
  predicate ForDevice(op: Op) { op.OpCreateDevice? || op.OpUpdateDevice? || op.OpDeleteDevice? }
  predicate ForPeriod(op: Op) { op.OpCreatePeriod? || op.OpUpdatePeriod? || op.OpDeletePeriod? }

  ghost predicate IdsKept(db: Db, db': Db) { IdsBelowNext(db') && db.next <= db'.next }

  lemma UserRoomIds(db: Db, op: Op)
    requires IdsBelowNext(db) && (ForUser(op) || ForRoom(op))
    ensures IdsKept(db, Apply(db, op).db)
  {
  }

  lemma DeviceIds(db: Db, op: Op)
    requires IdsBelowNext(db) && ForDevice(op)
    ensures IdsKept(db, Apply(db, op).db)
  {
  }

  lemma SchedulePeriodIds(db: Db, op: Op)
    requires IdsBelowNext(db) && !ForUser(op) && !ForRoom(op) && !ForDevice(op)
    ensures IdsKept(db, Apply(db, op).db)
  {
  }

  lemma KeepsIds(db: Db, op: Op)
    requires IdsBelowNext(db)
    ensures IdsBelowNext(Apply(db, op).db) && db.next <= Apply(db, op).db.next
  {
    if ForUser(op) || ForRoom(op) { UserRoomIds(db, op); }
    else if ForDevice(op) { DeviceIds(db, op); }
    else { SchedulePeriodIds(db, op); }
  }

  lemma UsersUntouched(db: Db, op: Op)
    requires !ForUser(op)
    ensures Apply(db, op).db.users == db.users
  {
  }

  lemma UserEmails(db: Db, op: Op)
    requires UniqueBy(db.users, EmailKey) && ForUser(op)
    ensures UniqueBy(Apply(db, op).db.users, EmailKey)
  {
    var db' := Apply(db, op).db;
    match op
    case OpRegister(email) => if db' != db { PutUnique(db.users, EmailKey, db.next, UserRow(email, "UTC")); }
    case OpSetTimezone(_, _, _) => KeepUnique(db.users, db'.users, EmailKey);
    case OpDeleteUser(_) => KeepUnique(db.users, db'.users, EmailKey);
  }

  lemma KeepsUniqueEmails(db: Db, op: Op)
    requires UniqueBy(db.users, EmailKey)
    ensures UniqueBy(Apply(db, op).db.users, EmailKey)
  {
    if ForUser(op) { UserEmails(db, op); } else { UsersUntouched(db, op); }
  }

  lemma RoomNames(db: Db, op: Op)
    requires UniqueBy(db.rooms, RoomKey) && (ForRoom(op) || op.OpDeleteUser?)
    ensures UniqueBy(Apply(db, op).db.rooms, RoomKey)
  {
    var db' := Apply(db, op).db;
    match op
    case OpCreateRoom(_, _) => if db' != db { PutUnique(db.rooms, RoomKey, db.next, db'.rooms[db.next]); }
    case OpUpdateRoom(r, _, _, _, _) => if db' != db { PutUnique(db.rooms, RoomKey, r, db'.rooms[r]); }
    case OpDeleteRoom(_, _) => KeepUnique(db.rooms, db'.rooms, RoomKey);
    case OpDeleteUser(_) => KeepUnique(db.rooms, db'.rooms, RoomKey);
    case OpDesiredState(_, _, _) =>
  }

  lemma OthersKeepRooms(db: Db, op: Op)
    requires !ForRoom(op) && !op.OpDeleteUser?
    ensures Apply(db, op).db.rooms == db.rooms
  {
  }

  lemma KeepsUniqueRooms(db: Db, op: Op)
    requires UniqueBy(db.rooms, RoomKey)
    ensures UniqueBy(Apply(db, op).db.rooms, RoomKey)
  {
    if ForRoom(op) || op.OpDeleteUser? { RoomNames(db, op); } else { OthersKeepRooms(db, op); }
  }

  predicate WritesDevices(op: Op) {
    op.OpCreateDevice? || op.OpUpdateDevice? || op.OpDeleteDevice? || op.OpDeleteRoom? || op.OpDeleteUser?
  }

  lemma DevicesUntouched(db: Db, op: Op)
    requires !WritesDevices(op)
    ensures Apply(db, op).db.devices == db.devices
  {
  }

  /** Outside CreateDevice and UpdateDevice, a device row is kept, dropped, or
      loses its room. */
  lemma DevicesKept(db: Db, op: Op)
    requires op.OpDeleteDevice? || op.OpDeleteRoom? || op.OpDeleteUser?
    ensures forall d :: d in Apply(db, op).db.devices ==>
      d in db.devices && HwKey(Apply(db, op).db.devices[d]) == HwKey(db.devices[d])
      && DeviceKey(Apply(db, op).db.devices[d]) == DeviceKey(db.devices[d])
  {
  }

  lemma KeepsUniqueDevices(db: Db, op: Op)
    requires UniqueBy(db.devices, HwKey) && UniqueBy(db.devices, DeviceKey)
    ensures UniqueBy(Apply(db, op).db.devices, HwKey) && UniqueBy(Apply(db, op).db.devices, DeviceKey)
  {
    var db' := Apply(db, op).db;
    if !WritesDevices(op) {
      DevicesUntouched(db, op);
    } else if op.OpCreateDevice? {
      CreateDeviceUnique(db, op.u, op.name, op.hw, op.sensors, op.actuators);
    } else if op.OpUpdateDevice? {
      UpdateDeviceUnique(db, op.d, op.u, op.name, op.room);
    } else {
      DevicesKept(db, op);
      KeepUnique(db.devices, db'.devices, HwKey);
      KeepUnique(db.devices, db'.devices, DeviceKey);
    }
  }

  lemma CreateDeviceUnique(db: Db, u: Id, name: string, hw: HwId, sensors: seq<Measure>, actuators: seq<ActuatorType>)
    requires UniqueBy(db.devices, HwKey) && UniqueBy(db.devices, DeviceKey)
    ensures UniqueBy(CreateDevice(db, u, name, hw, sensors, actuators).db.devices, HwKey)
    ensures UniqueBy(CreateDevice(db, u, name, hw, sensors, actuators).db.devices, DeviceKey)
  {
    var db' := CreateDevice(db, u, name, hw, sensors, actuators).db;
    if db' != db {
      PutUnique(db.devices, HwKey, db.next, db'.devices[db.next]);
      PutUnique(db.devices, DeviceKey, db.next, db'.devices[db.next]);
    }
  }

  lemma UpdateDeviceUnique(db: Db, d: Id, u: Id, name: string, room: Option<Id>)
    requires UniqueBy(db.devices, HwKey) && UniqueBy(db.devices, DeviceKey)
    ensures UniqueBy(UpdateDevice(db, d, u, name, room).db.devices, HwKey)
    ensures UniqueBy(UpdateDevice(db, d, u, name, room).db.devices, DeviceKey)
  {
    var db' := UpdateDevice(db, d, u, name, room).db;
    if db' != db {
      KeepUnique(db.devices, db'.devices, HwKey);
      PutUnique(db.devices, DeviceKey, d, db'.devices[d]);
    }
  }

  predicate WritesSchedules(op: Op) {
    op.OpCreateSchedule? || op.OpRenameSchedule? || op.OpDeleteSchedule? || op.OpActivate? || op.OpDeactivate?
    || op.OpDeleteRoom? || op.OpDeleteUser?
  }

  lemma SchedulesUntouched(db: Db, op: Op)
    requires !WritesSchedules(op)
    ensures Apply(db, op).db.schedules == db.schedules
  {
  }

  lemma SchedulesKept(db: Db, op: Op)
    requires op.OpDeleteSchedule? || op.OpActivate? || op.OpDeactivate? || op.OpDeleteRoom? || op.OpDeleteUser?
    ensures forall s :: s in Apply(db, op).db.schedules ==>
      s in db.schedules && ScheduleKey(Apply(db, op).db.schedules[s]) == ScheduleKey(db.schedules[s])
  {
  }

  lemma KeepsUniqueSchedules(db: Db, op: Op)
    requires UniqueBy(db.schedules, ScheduleKey)
    ensures UniqueBy(Apply(db, op).db.schedules, ScheduleKey)
  {
    var db' := Apply(db, op).db;
    if !WritesSchedules(op) {
      SchedulesUntouched(db, op);
    } else if op.OpCreateSchedule? {
      if db' != db { PutUnique(db.schedules, ScheduleKey, db.next, db'.schedules[db.next]); }
    } else if op.OpRenameSchedule? {
      if db' != db { PutUnique(db.schedules, ScheduleKey, op.s, db'.schedules[op.s]); }
    } else {
      SchedulesKept(db, op);
      KeepUnique(db.schedules, db'.schedules, ScheduleKey);
    }
  }

  lemma DropRoomsReferences(db: Db, gone: set<Id>)
    requires References(db)
    ensures References(DropRooms(db, gone))
  {
  }

  lemma DeleteUserReferences(db: Db, u: Id)
    requires References(db)
    ensures References(DeleteUser(db, u).db)
  {
    DropRoomsReferences(db, RoomsOf(db, u));
  }

  lemma UserRoomReferences(db: Db, op: Op)
    requires References(db) && IdsBelowNext(db)
    requires op.OpRegister? || op.OpSetTimezone? || op.OpCreateRoom? || op.OpUpdateRoom? || op.OpDesiredState?
    ensures References(Apply(db, op).db)
  {
  }

  lemma DeviceReferences(db: Db, op: Op)
    requires References(db)
    requires op.OpCreateDevice? || op.OpUpdateDevice? || op.OpDeleteDevice?
    ensures References(Apply(db, op).db)
  {
  }

  lemma ScheduleReferences(db: Db, op: Op)
    requires References(db)
    requires op.OpCreateSchedule? || op.OpRenameSchedule? || op.OpDeleteSchedule? || op.OpActivate? || op.OpDeactivate?
    ensures References(Apply(db, op).db)
  {
  }

  lemma PeriodReferences(db: Db, op: Op)
    requires References(db)
    requires op.OpCreatePeriod? || op.OpUpdatePeriod? || op.OpDeletePeriod?
    ensures References(Apply(db, op).db)
  {
  }

  lemma KeepsReferences(db: Db, op: Op)
    requires References(db) && IdsBelowNext(db)
    ensures References(Apply(db, op).db)
  {
    if op.OpDeleteUser? { DeleteUserReferences(db, op.u); }
    else if op.OpDeleteRoom? { DropRoomsReferences(db, {op.r}); }
    else if op.OpCreateDevice? || op.OpUpdateDevice? || op.OpDeleteDevice? { DeviceReferences(db, op); }
    else if op.OpCreatePeriod? || op.OpUpdatePeriod? || op.OpDeletePeriod? { PeriodReferences(db, op); }
    else if op.OpRegister? || op.OpSetTimezone? || op.OpCreateRoom? || op.OpUpdateRoom? || op.OpDesiredState? {
      UserRoomReferences(db, op);
    } else { ScheduleReferences(db, op); }
  }

  lemma GoodRequestRow(s: Id, x: PeriodInput)
    requires GoodRequest(x) && LexLess(x.start, x.end)
    ensures PeriodChecks(ToRow(s, x))
  {
    assert x.days[0] in ToRow(s, x).days;
  }

  lemma RoomChecks(db: Db, op: Op)
    requires Checks(db) && (op.OpCreateRoom? || op.OpUpdateRoom? || op.OpDesiredState? || op.OpDeleteRoom? || op.OpDeleteUser?)
    ensures Checks(Apply(db, op).db)
  {
  }

  lemma RoomsUntouched(db: Db, op: Op)
    requires !(op.OpCreateRoom? || op.OpUpdateRoom? || op.OpDesiredState? || op.OpDeleteRoom? || op.OpDeleteUser?)
    ensures Apply(db, op).db.rooms == db.rooms && Apply(db, op).db.desired == db.desired
  {
  }

  lemma KeepsChecks(db: Db, op: Op)
    requires Checks(db)
    ensures Checks(Apply(db, op).db)
  {
    if op.OpCreateRoom? || op.OpUpdateRoom? || op.OpDesiredState? || op.OpDeleteRoom? || op.OpDeleteUser? {
      RoomChecks(db, op);
    } else {
      RoomsUntouched(db, op);
      if op.OpCreatePeriod? {
        if CreatePeriod(db, op.s, op.u, op.x).reply.Done? { GoodRequestRow(op.s, op.x); }
      } else if op.OpUpdatePeriod? {
        if UpdatePeriod(db, op.p, op.u, op.x).reply.Done? { GoodRequestRow(db.periods[op.p].schedule, op.x); }
      } else {
        OthersOnlyDropPeriods(db, op);
      }
    }
  }

  lemma DeletionOneActive(db: Db, op: Op)
    requires OneActive(db.schedules) && (op.OpDeleteUser? || op.OpDeleteRoom? || op.OpDeleteSchedule?)
    ensures OneActive(Apply(db, op).db.schedules)
  {
  }

  lemma ScheduleOneActive(db: Db, op: Op)
    requires OneActive(db.schedules) && db.next !in db.schedules
    requires op.OpCreateSchedule? || op.OpRenameSchedule? || op.OpActivate? || op.OpDeactivate?
    ensures OneActive(Apply(db, op).db.schedules)
  {
    if op.OpActivate? && Activate(db, op.s, op.u).reply.Done? {
      ActivateOne(db.schedules, Apply(db, op).db.schedules, op.s);
    }
  }

  lemma KeepsOneActive(db: Db, op: Op)
    requires OneActive(db.schedules) && db.next !in db.schedules
    ensures OneActive(Apply(db, op).db.schedules)
  {
    if !WritesSchedules(op) { SchedulesUntouched(db, op); }
    else if op.OpDeleteUser? || op.OpDeleteRoom? || op.OpDeleteSchedule? { DeletionOneActive(db, op); }
    else { ScheduleOneActive(db, op); }
  }

  lemma KeepsNoClash(db: Db, op: Op)
    requires NoClash(db.periods) && db.next !in db.periods
    ensures NoClash(Apply(db, op).db.periods)
  {
    if op.OpCreatePeriod? {
      if CreatePeriod(db, op.s, op.u, op.x).reply.Done? { PutNoClash(db.periods, db.next, ToRow(op.s, op.x)); }
    } else if op.OpUpdatePeriod? {
      if UpdatePeriod(db, op.p, op.u, op.x).reply.Done? {
        PutNoClash(db.periods, op.p, ToRow(db.periods[op.p].schedule, op.x));
      }
    } else {
      OthersOnlyDropPeriods(db, op);
      FewerNoClash(db.periods, Apply(db, op).db.periods);
    }
  }

  lemma OthersOnlyDropPeriods(db: Db, op: Op)
    requires !op.OpCreatePeriod? && !op.OpUpdatePeriod?
    ensures forall p :: p in Apply(db, op).db.periods ==> p in db.periods && Apply(db, op).db.periods[p] == db.periods[p]
  {
  }

  lemma FewerNoClash(periods: map<Id, PeriodRow>, periods': map<Id, PeriodRow>)
    requires NoClash(periods)
    requires forall p :: p in periods' ==> p in periods && periods'[p] == periods[p]
    ensures NoClash(periods')
  {
  }

  lemma RefusedChangesNothing(db: Db, op: Op)
    requires Apply(db, op).reply.Failed?
    ensures Apply(db, op).db == db && Apply(db, op).sent == []
  {
  }

  /** Any request, accepted or refused, keeps the tables valid. */
  lemma ApplyValid(db: Db, op: Op)
    requires Valid(db)
    ensures Valid(Apply(db, op).db)
  {
    KeepsIds(db, op);
    KeepsUniqueEmails(db, op);
    KeepsUniqueRooms(db, op);
    KeepsUniqueDevices(db, op);
    KeepsUniqueSchedules(db, op);
    KeepsReferences(db, op);
    KeepsChecks(db, op);
    KeepsOneActive(db, op);
    KeepsNoClash(db, op);
  }

  /** ... so every run from an empty database does. */
  lemma {:induction false} RunValid(db: Db, ops: seq<Op>)
    requires Valid(db)
    ensures Valid(Run(db, ops))
    decreases |ops|
  {
    if ops != [] {
      ApplyValid(db, ops[0]);
      RunValid(Apply(db, ops[0]).db, ops[1..]);
    }
  }
}
