/** Exactly which requests are accepted, in terms of the tables alone: no order
    of checks, no early exits; and which requests undo which. */
module ApiExact {
  import opened Base
  import opened Times
  import opened Tables
  import opened Api
  import opened ApiService

  /** The targets a room must be able to serve under manual AUTO control. */
  predicate Servable(db: Db, r: Id, x: DesiredRow) {
    (x.manualActive && x.mode == Auto) ==> x.targets != NO_TARGETS && Backed(db, r, x.targets)
  }

  /** A desired state is accepted exactly when the room is the caller's, every
      target is in range, and manual AUTO control has something to aim at that
      the room can serve; then the room's row is the one requested. */
  lemma DesiredStateExactly(db: Db, r: Id, u: Id, x: DesiredRow)
    requires References(db)
    ensures var e := UpdateDesiredState(db, r, u, x);
      && (e.reply.Done? <==> OwnsRoom(db, r, u) && InRange(x.targets) && Servable(db, r, x))
      && (e.reply.Done? ==> e.db == db.(desired := db.desired[r := x]) && e.sent == [DesiredStateChanged(r)])
  {
  }

  /** A room is created exactly when its owner exists and has no room of that
      name; it starts switched off, with the default deadbands. */
  lemma RoomCreationExactly(db: Db, u: Id, name: string)
    ensures var e := CreateRoom(db, u, name);
      && (e.reply.Done? <==> u in db.users && forall q :: q in db.rooms && db.rooms[q].user == u ==> db.rooms[q].name != name)
      && (e.reply.Done? ==>
            var r := e.reply.id;
            && r == db.next && e.db.rooms == db.rooms[r := e.db.rooms[r]] && e.db.desired == db.desired[r := e.db.desired[r]]
            && e.db == db.(rooms := e.db.rooms, desired := e.db.desired, next := db.next + 1)
            && e.db.rooms[r].user == u && e.db.rooms[r].name == name
            && e.db.rooms[r].deadbandTemp == 0.5 && e.db.rooms[r].deadbandHum == 2.0
            && e.db.desired[r].mode == Off && !e.db.desired[r].manualActive
            && e.db.desired[r].targets == NO_TARGETS && e.db.desired[r].until == None
            && e.sent == [RoomCreated(r)])
  {
  }

  /** A room's update is accepted exactly when the room is the caller's, no
      other room of theirs has the name, and both deadbands end up positive;
      then the room has the name and each deadband given, keeps a deadband not
      given, and no other row changes. */
  lemma RoomUpdateExactly(db: Db, r: Id, u: Id, name: string, dbTemp: Option<real>, dbHum: Option<real>)
    requires r in db.rooms
    ensures var e, was := UpdateRoom(db, r, u, name, dbTemp, dbHum), db.rooms[r];
      && (e.reply.Done? <==>
            && was.user == u
            && (forall q :: q in db.rooms && q != r && db.rooms[q].user == u ==> db.rooms[q].name != name)
            && (if dbTemp.Some? then dbTemp.value > 0.0 else was.deadbandTemp > 0.0)
            && (if dbHum.Some? then dbHum.value > 0.0 else was.deadbandHum > 0.0))
      && (e.reply.Done? ==>
            var row := e.db.rooms[r];
            && e.db == db.(rooms := db.rooms[r := row]) && row.user == was.user && row.name == name
            && (dbTemp.Some? ==> row.deadbandTemp == dbTemp.value) && (dbTemp.None? ==> row.deadbandTemp == was.deadbandTemp)
            && (dbHum.Some? ==> row.deadbandHum == dbHum.value) && (dbHum.None? ==> row.deadbandHum == was.deadbandHum)
            && e.sent == [RoomConfigChanged(r)])
  {
  }

  /** The row holds what the request says. */
  predicate Says(row: PeriodRow, s: Id, x: PeriodInput) {
    && row.schedule == s && (forall d :: d in x.days ==> d in row.days) && (forall d :: d in row.days ==> d in x.days)
    && row.start == x.start && row.end == x.end && row.mode == x.mode
    && row.targets.temp == x.targets.temp && row.targets.hum == x.targets.hum
  }

  /** Some other period of the schedule shares a day with the request, and each
      starts, as text, before the other ends. */
  predicate Overlapped(db: Db, s: Id, x: PeriodInput, except: Option<Id>) {
    exists p :: p in db.periods && db.periods[p].schedule == s && Some(p) != except
      && (exists d :: d in x.days && d in db.periods[p].days)
      && LexLess(db.periods[p].start, x.end) && LexLess(x.start, db.periods[p].end)
  }

  lemma OverlappedExactly(db: Db, s: Id, x: PeriodInput, except: Option<Id>)
    ensures HasOverlap(db, s, ToRow(s, x), except) <==> Overlapped(db, s, x, except)
  {
    var row := ToRow(s, x);
    forall p | p in db.periods ensures db.periods[p].days * row.days != {} <==> exists d :: d in x.days && d in db.periods[p].days {
      if db.periods[p].days * row.days != {} {
        var d := SomeMember(db.periods[p].days * row.days);
        assert d in x.days;
      }
      if d :| d in x.days && d in db.periods[p].days { assert d in db.periods[p].days * row.days; }
    }
  }

  /** A period is created exactly when the request is well formed, the schedule
      the caller's, the times in text order and no period overlaps; the new row
      holds the request, and the room is told exactly if the schedule is
      active. */
  lemma PeriodCreationExactly(db: Db, s: Id, u: Id, x: PeriodInput)
    requires s in db.schedules
    ensures var e := CreatePeriod(db, s, u, x);
      && (e.reply.Done? <==>
            GoodRequest(x) && db.schedules[s].user == u && LexLess(x.start, x.end) && !Overlapped(db, s, x, None))
      && (e.reply.Done? ==>
            && e.reply.id == db.next && Says(e.db.periods[db.next], s, x)
            && e.db == db.(periods := db.periods[db.next := e.db.periods[db.next]], next := db.next + 1)
            && e.sent == if db.schedules[s].active then [ScheduleChanged(db.schedules[s].room)] else [])
  {
    OverlappedExactly(db, s, x, None);
  }

  /** The same for an update, which may overlap the period's own old times. */
  lemma PeriodUpdateExactly(db: Db, p: Id, u: Id, x: PeriodInput)
    requires p in db.periods && db.periods[p].schedule in db.schedules
    ensures var e, s := UpdatePeriod(db, p, u, x), db.periods[p].schedule;
      && (e.reply.Done? <==>
            GoodRequest(x) && db.schedules[s].user == u && LexLess(x.start, x.end) && !Overlapped(db, s, x, Some(p)))
      && (e.reply.Done? ==>
            && Says(e.db.periods[p], s, x) && e.db == db.(periods := db.periods[p := e.db.periods[p]])
            && e.sent == if db.schedules[s].active then [ScheduleChanged(db.schedules[s].room)] else [])
  {
    OverlappedExactly(db, db.periods[p].schedule, x, Some(p));
  }

  /** Every target of `t` has a sensor and an actuator besides device `d`. */
  predicate ServedWithout(db: Db, r: Id, d: Id, t: Targets) {
    && (t.temp.Some? ==> HasCapability(db, r, Temperature, Heater, Some(d)))
    && (t.hum.Some? ==> HasCapability(db, r, Humidity, Humidifier, Some(d)))
  }

  /** The conflict check says yes exactly when the room's desired state or some
      period of its active schedule needs the device. */
  lemma ConflictExactly(db: Db, r: Id, d: Id)
    ensures ConflictAfterRemoval(db, r, d) <==>
            || (r in db.desired && !ServedWithout(db, r, d, db.desired[r].targets))
            || exists p :: p in db.periods && IsActivePeriod(db, p, r) && !ServedWithout(db, r, d, db.periods[p].targets)
  {
    var temp := HasCapability(db, r, Temperature, Heater, Some(d));
    var hum := HasCapability(db, r, Humidity, Humidifier, Some(d));
    assert forall t: Targets :: Strands(t, temp, hum) <==> !ServedWithout(db, r, d, t);
  }

  /** A device is registered exactly when its lists name known types once each
      and its hardware id and name are free; then it has just those types and
      no room. */
  lemma DeviceCreationExactly(db: Db, u: Id, name: string, hw: HwId, ss: seq<Measure>, as_: seq<ActuatorType>)
    ensures var e := CreateDevice(db, u, name, hw, ss, as_);
      && (e.reply.Done? <==>
            && Distinct(ss) && Distinct(as_) && (forall k :: 0 <= k < |as_| ==> Known(as_[k]))
            && (forall d :: d in db.devices ==> db.devices[d].hwId != hw)
            && u in db.users && !DeviceNameTaken(db, u, name, None))
      && (e.reply.Done? ==>
            && e.db.devices == db.devices[db.next := DeviceRow(u, name, hw, None, set m | m in ss, set a | a in as_)]
            && e.reply.id == db.next && e.sent == [])
  {
    ListErrorExactly(ss, 0, AnyMeasure(), InvalidSensor, DuplicateSensor);
    ListErrorExactly(as_, 0, KnownType(), InvalidActuator, DuplicateActuator);
  }

  /** A schedule is activated exactly when it is the caller's, inactive, and the
      room serves every target of its periods; then it is the room's only
      active one, and no other room is touched. */
  lemma ActivationExactly(db: Db, s: Id, u: Id)
    requires s in db.schedules
    ensures var e, r := Activate(db, s, u), db.schedules[s].room;
      && (e.reply.Done? <==>
            && db.schedules[s].user == u && !db.schedules[s].active
            && forall p :: p in db.periods && db.periods[p].schedule == s ==> Backed(db, r, db.periods[p].targets))
      && (e.reply.Done? ==>
            && e.db.schedules.Keys == db.schedules.Keys && e.db == db.(schedules := e.db.schedules)
            && (forall t :: t in db.schedules ==>
                  && e.db.schedules[t] == db.schedules[t].(active := e.db.schedules[t].active)
                  && (e.db.schedules[t].active <==> t == s || (db.schedules[t].active && db.schedules[t].room != r)))
            && e.sent == [ScheduleChanged(r)])
  {
  }

  /** What the control service loads as the room's periods after an activation:
      exactly the schedule's own. */
  lemma ActivationLoads(db: Db, s: Id, u: Id)
    requires s in db.schedules && Activate(db, s, u).reply.Done?
    ensures ActivePeriods(Activate(db, s, u).db, db.schedules[s].room)
         == map p | p in db.periods && db.periods[p].schedule == s :: db.periods[p]
  {
    ActivationExactly(db, s, u);
  }

  /** A schedule is deactivated exactly when it is the caller's and active; then
      only its flag changes, and its room, in which no other schedule was
      active, has no period left to load. */
  lemma DeactivationExactly(db: Db, s: Id, u: Id)
    requires s in db.schedules && OneActive(db.schedules)
    ensures var e, was := Deactivate(db, s, u), db.schedules[s];
      && (e.reply.Done? <==> was.user == u && was.active)
      && (e.reply.Done? ==>
            && e.db == db.(schedules := db.schedules[s := was.(active := false)])
            && ActivePeriods(e.db, was.room) == map[] && e.sent == [ScheduleChanged(was.room)])
  {
    var e, r := Deactivate(db, s, u), db.schedules[s].room;
    if e.reply.Done? {
      forall p | p in e.db.periods ensures !IsActivePeriod(e.db, p, r) {}
    }
  }

  /** A schedule is renamed exactly when it is the caller's and no other schedule
      of the room has the name. Renaming changes nothing the control service
      loads, for any room, and tells nothing. */
  lemma RenameExactly(db: Db, s: Id, u: Id, name: string)
    requires s in db.schedules
    ensures var e, was := RenameSchedule(db, s, u, name), db.schedules[s];
      && (e.reply.Done? <==>
            was.user == u && forall t :: t in db.schedules && t != s && db.schedules[t].room == was.room ==> db.schedules[t].name != name)
      && (e.reply.Done? ==> e.db == db.(schedules := db.schedules[s := was.(name := name)]))
      && e.sent == [] && forall r :: RowsOf(e.db, r) == RowsOf(db, r)
  {
    var e := RenameSchedule(db, s, u, name);
    forall r ensures ActivePeriods(e.db, r) == ActivePeriods(db, r) {
      assert forall p :: p in db.periods ==> IsActivePeriod(e.db, p, r) == IsActivePeriod(db, p, r);
    }
  }

  // ---------------------------------------------------------------------
  // What one request does, another undoes
  // ---------------------------------------------------------------------

  /** A change of a device can be taken back exactly when the room it went to,
      if any, can do without it again; then the tables are as before. Going
      back needs no other check: the old room is still the caller's and the
      old name still free. */
  lemma DeviceMoveUndone(db: Db, d: Id, u: Id, name: string, room: Option<Id>)
    requires References(db) && UniqueBy(db.devices, DeviceKey) && UpdateDevice(db, d, u, name, room).reply.Done?
    ensures var db', was := UpdateDevice(db, d, u, name, room).db, db.devices[d];
      var back := UpdateDevice(db', d, u, was.name, was.room);
      && (back.reply.Done? <==> (room.Some? && room != was.room ==> !ConflictAfterRemoval(db', room.value, d)))
      && (back.reply.Done? ==> back.db == db)
  {
    var db', was := UpdateDevice(db, d, u, name, room).db, db.devices[d];
    forall e | e in db.devices && e != d ensures DeviceKey(db.devices[e]) != DeviceKey(was) {}
    assert !DeviceNameTaken(db', u, was.name, Some(d));
    var row := db'.devices[d].(name := was.name, room := was.room);
    assert row == was && db'.devices[d := row] == db.devices;
  }

  /** A room created and deleted leaves nothing but its id used up. */
  lemma RoomCreationUndone(db: Db, u: Id, name: string)
    requires IdsBelowNext(db) && References(db) && CreateRoom(db, u, name).reply.Done?
    ensures var e := CreateRoom(db, u, name);
      DeleteRoom(e.db, e.reply.id, u).reply.Done? && DeleteRoom(e.db, e.reply.id, u).db == db.(next := db.next + 1)
  {
    var row := RoomRow(u, name, DEFAULT_TEMP_DEADBAND, DEFAULT_HUM_DEADBAND);
    FreshRoomDropped(db, row, DesiredRow(Off, false, NO_TARGETS, None));
  }

  lemma FreshRoomDropped(db: Db, row: RoomRow, want: DesiredRow)
    requires IdsBelowNext(db) && References(db)
    ensures var r := db.next;
      DropRooms(db.(rooms := db.rooms[r := row], desired := db.desired[r := want], next := r + 1), {r}) == db.(next := r + 1)
  {
    var r := db.next;
    var d := DropRooms(db.(rooms := db.rooms[r := row], desired := db.desired[r := want], next := r + 1), {r});
    assert r !in db.rooms && r !in db.desired;
    assert d.rooms == db.rooms && d.desired == db.desired;
    assert d.devices == db.devices;
    assert d.schedules == db.schedules;
    assert d.periods == db.periods;
  }

  /** A period created and deleted leaves nothing but its id used up, and can
      be created again. */
  lemma PeriodCreationUndone(db: Db, s: Id, u: Id, x: PeriodInput)
    requires IdsBelowNext(db) && CreatePeriod(db, s, u, x).reply.Done?
    ensures var e := CreatePeriod(db, s, u, x);
      var back := DeletePeriod(e.db, e.reply.id, u);
      && back.reply.Done? && back.db == db.(next := db.next + 1) && back.sent == e.sent
      && CreatePeriod(back.db, s, u, x).reply.Done?
  {
    var e := CreatePeriod(db, s, u, x);
    assert db.next !in db.periods;
    assert e.db.periods - {db.next} == db.periods;
  }

  /** A period's update can always be taken back: no overlap can have come in
      between. */
  lemma PeriodUpdateUndone(db: Db, p: Id, u: Id, x: PeriodInput, y: PeriodInput)
    requires Checks(db) && NoClash(db.periods) && UpdatePeriod(db, p, u, x).reply.Done?
    requires GoodRequest(y) && db.periods[p] == ToRow(db.periods[p].schedule, y)
    ensures var back := UpdatePeriod(UpdatePeriod(db, p, u, x).db, p, u, y);
      back.reply.Done? && back.db == db
  {
    var s, db' := db.periods[p].schedule, UpdatePeriod(db, p, u, x).db;
    assert db' == db.(periods := db.periods[p := ToRow(s, x)]);
    StillFits(db, p, ToRow(s, x));
    assert db'.periods[p := db.periods[p]] == db.periods;
  }

  lemma StillFits(db: Db, p: Id, row: PeriodRow)
    requires Checks(db) && NoClash(db.periods) && p in db.periods
    ensures PeriodError(db.(periods := db.periods[p := row]), db.periods[p].schedule, db.periods[p], Some(p)).None?
  {
    assert PeriodChecks(db.periods[p]);
  }
}
