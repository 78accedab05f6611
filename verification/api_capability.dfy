/** Targets stay served: what the capability checks of three services keep
    true between them. */
module ApiCapability {
  import opened Base
  import opened Tables
  import opened Api
  import opened ApiIntegrity

  /** A room under manual AUTO control has a target, in range, that its devices
      can serve. */
  predicate DesiredServed(db: Db, r: Id)
    requires r in db.desired
  {
    (db.desired[r].manualActive && db.desired[r].mode == Auto) ==>
      && db.desired[r].targets != NO_TARGETS
      && InRange(db.desired[r].targets)
      && Backed(db, r, db.desired[r].targets)
  }

  predicate ScheduleServed(db: Db, s: Id)
    requires s in db.schedules
  {
    PeriodsHaveCapability(db, s, db.schedules[s].room)
  }

  /** Schedules edited (a period created or updated) since they were last
      activated, as a history of the run. */
  function Edited(db: Db, op: Op, edited: set<Id>): set<Id> {
    if Apply(db, op).reply.Failed? then edited
    else
      match op
      case OpCreatePeriod(s, _, _) => edited + {s}
      case OpUpdatePeriod(p, _, _) => edited + (if p in db.periods then {db.periods[p].schedule} else {})
      case OpActivate(s, _) => edited - {s}
      case _ => edited
  }

  ghost predicate Served(db: Db, edited: set<Id>) {
    && (forall r :: r in db.desired ==> DesiredServed(db, r))
    && (forall s :: s in db.schedules && db.schedules[s].active && s !in edited ==> ScheduleServed(db, s))
  }

  /** No device of room `r` that is still there lost a sensor, actuator or its
      place. */
  ghost predicate DevicesStay(db: Db, db': Db, r: Id) {
    forall d :: d in db.devices && db.devices[d].room == Some(r) ==>
      d in db'.devices && db'.devices[d].room == Some(r)
      && db.devices[d].sensors == db'.devices[d].sensors && db.devices[d].actuators == db'.devices[d].actuators
  }

  lemma CapabilityStays(db: Db, db': Db, r: Id, m: Measure, a: ActuatorType)
    requires DevicesStay(db, db', r) && HasCapability(db, r, m, a, None)
    ensures HasCapability(db', r, m, a, None)
  {
    var d :| d in db.devices && db.devices[d].room == Some(r) && m in db.devices[d].sensors;
    assert d in db'.devices && db'.devices[d].room == Some(r) && m in db'.devices[d].sensors;
    var e :| e in db.devices && db.devices[e].room == Some(r) && a in db.devices[e].actuators;
    assert e in db'.devices && db'.devices[e].room == Some(r) && a in db'.devices[e].actuators;
  }

  lemma BackedStays(db: Db, db': Db, r: Id, t: Targets)
    requires DevicesStay(db, db', r) && Backed(db, r, t)
    ensures Backed(db', r, t)
  {
    if t.temp.Some? { CapabilityStays(db, db', r, Temperature, Heater); }
    if t.hum.Some? { CapabilityStays(db, db', r, Humidity, Humidifier); }
  }

  /** After device `x` left room `r`, what it did not serve alone is still
      served. */
  lemma CapabilityWithout(db: Db, db': Db, r: Id, x: Id, m: Measure, a: ActuatorType)
    requires HasCapability(db, r, m, a, Some(x))
    requires forall d :: d in db.devices && d != x && db.devices[d].room == Some(r) ==> d in db'.devices && db'.devices[d] == db.devices[d]
    ensures HasCapability(db', r, m, a, None)
  {
    var d :| d in db.devices && db.devices[d].room == Some(r) && Some(d) != Some(x) && m in db.devices[d].sensors;
    assert d in db'.devices && db'.devices[d].room == Some(r) && m in db'.devices[d].sensors;
    var e :| e in db.devices && db.devices[e].room == Some(r) && Some(e) != Some(x) && a in db.devices[e].actuators;
    assert e in db'.devices && db'.devices[e].room == Some(r) && a in db'.devices[e].actuators;
  }

  /** A removal that passes the conflict check strands no target. */
  lemma BackedWithout(db: Db, db': Db, r: Id, x: Id, t: Targets)
    requires Backed(db, r, t)
    requires forall d :: d in db.devices && d != x && db.devices[d].room == Some(r) ==> d in db'.devices && db'.devices[d] == db.devices[d]
    requires !Strands(t, HasCapability(db, r, Temperature, Heater, Some(x)), HasCapability(db, r, Humidity, Humidifier, Some(x)))
    ensures Backed(db', r, t)
  {
    if t.temp.Some? { CapabilityWithout(db, db', r, x, Temperature, Heater); }
    if t.hum.Some? { CapabilityWithout(db, db', r, x, Humidity, Humidifier); }
  }

  /** The check covers every target in force. */
  lemma NoConflictNoStranding(db: Db, r: Id, x: Id)
    requires !ConflictAfterRemoval(db, r, x)
    ensures r in db.desired ==>
      !Strands(db.desired[r].targets, HasCapability(db, r, Temperature, Heater, Some(x)), HasCapability(db, r, Humidity, Humidifier, Some(x)))
    ensures forall p :: p in db.periods && IsActivePeriod(db, p, r) ==>
      !Strands(db.periods[p].targets, HasCapability(db, r, Temperature, Heater, Some(x)), HasCapability(db, r, Humidity, Humidifier, Some(x)))
  {
  }

  /** Removing `x` from wherever it was, after the check, with every other
      device, desired state, schedule and period left alone. */
  lemma RemovalServed(db: Db, db': Db, x: Id, edited: set<Id>)
    requires References(db) && Served(db, edited) && x in db.devices
    requires db.devices[x].room.Some? && (x !in db'.devices || db'.devices[x].room != db.devices[x].room)
             ==> !ConflictAfterRemoval(db, db.devices[x].room.value, x)
    requires x in db'.devices ==> db'.devices[x].sensors == db.devices[x].sensors && db'.devices[x].actuators == db.devices[x].actuators
    requires forall d :: d in db.devices && d != x ==> d in db'.devices && db'.devices[d] == db.devices[d]
    requires db'.desired == db.desired && db'.schedules == db.schedules && db'.periods == db.periods
    ensures Served(db', edited)
  {
    forall r: Id, t | Backed(db, r, t) && (db.devices[x].room != Some(r) || (x in db'.devices && db'.devices[x].room == Some(r)))
      ensures Backed(db', r, t)
    {
      BackedStays(db, db', r, t);
    }
    if db.devices[x].room.Some? {
      var r0 := db.devices[x].room.value;
      if x !in db'.devices || db'.devices[x].room != Some(r0) {
        NoConflictNoStranding(db, r0, x);
        forall r | r in db'.desired ensures DesiredServed(db', r) {
          assert DesiredServed(db, r);
          if r == r0 && db.desired[r].manualActive && db.desired[r].mode == Auto { BackedWithout(db, db', r0, x, db.desired[r].targets); }
        }
        forall s | s in db'.schedules && db'.schedules[s].active && s !in edited ensures ScheduleServed(db', s) {
          assert ScheduleServed(db, s);
          forall p | p in db'.periods && db'.periods[p].schedule == s ensures Backed(db', db.schedules[s].room, db'.periods[p].targets) {
            if db.schedules[s].room == r0 {
              assert IsActivePeriod(db, p, r0);
              BackedWithout(db, db', r0, x, db.periods[p].targets);
            }
          }
        }
      }
    }
  }

  /** A request that moves no device keeps everything served that it does not
      itself re-decide. */
  lemma StayServed(db: Db, db': Db, edited: set<Id>, edited': set<Id>)
    requires Served(db, edited)
    requires forall r :: r in db'.desired ==> DesiredServed(db', r) || (r in db.desired && db'.desired[r] == db.desired[r] && DevicesStay(db, db', r))
    requires forall s :: s in db'.schedules && db'.schedules[s].active && s !in edited' ==>
      ScheduleServed(db', s)
      || (s in db.schedules && db.schedules[s].active && s !in edited
          && db'.schedules[s].room == db.schedules[s].room && DevicesStay(db, db', db.schedules[s].room)
          && forall p :: p in db'.periods && db'.periods[p].schedule == s ==> p in db.periods && db.periods[p] == db'.periods[p])
    ensures Served(db', edited')
  {
    forall r | r in db'.desired && !DesiredServed(db', r) ensures false {
      assert DesiredServed(db, r);
      BackedStays(db, db', r, db.desired[r].targets);
    }
    forall s | s in db'.schedules && db'.schedules[s].active && s !in edited' ensures ScheduleServed(db', s) {
      if !ScheduleServed(db', s) {
        assert ScheduleServed(db, s);
        forall p | p in db'.periods && db'.periods[p].schedule == s ensures Backed(db', db.schedules[s].room, db'.periods[p].targets) {
          BackedStays(db, db', db.schedules[s].room, db.periods[p].targets);
        }
      }
    }
  }

  lemma DesiredStateServed(db: Db, r: Id, u: Id, row: DesiredRow, edited: set<Id>)
    requires Served(db, edited)
    ensures Served(UpdateDesiredState(db, r, u, row).db, edited)
  {
    var db' := UpdateDesiredState(db, r, u, row).db;
    StayServed(db, db', edited, edited);
  }

  lemma ActivateServed(db: Db, s: Id, u: Id, edited: set<Id>)
    requires Served(db, edited)
    ensures Served(Activate(db, s, u).db, Edited(db, OpActivate(s, u), edited))
  {
    var db' := Activate(db, s, u).db;
    if db' != db {
      assert ScheduleServed(db', s) by {
        forall p | p in db'.periods && db'.periods[p].schedule == s
          ensures Backed(db', db'.schedules[s].room, db'.periods[p].targets)
        {
          BackedStays(db, db', db.schedules[s].room, db.periods[p].targets);
        }
      }
    }
    StayServed(db, db', edited, Edited(db, OpActivate(s, u), edited));
  }

  lemma RoomDeletionServed(db: Db, gone: set<Id>, edited: set<Id>)
    requires References(db) && Served(db, edited)
    ensures Served(DropRooms(db, gone), edited)
  {
    var db' := DropRooms(db, gone);
    forall r | r in db'.desired ensures DevicesStay(db, db', r) {}
    forall s | s in db'.schedules ensures DevicesStay(db, db', db'.schedules[s].room) {}
    StayServed(db, db', edited, edited);
  }

  lemma UserDeletionServed(db: Db, u: Id, edited: set<Id>)
    requires References(db) && Served(db, edited)
    ensures Served(DeleteUser(db, u).db, edited)
  {
    if u in db.users {
      var kept, db' := DropRooms(db, RoomsOf(db, u)), DeleteUser(db, u).db;
      RoomDeletionServed(db, RoomsOf(db, u), edited);
      DropRoomsReferences(db, RoomsOf(db, u));
      forall r | r in db'.desired ensures DevicesStay(kept, db', r) {}
      forall s | s in db'.schedules ensures DevicesStay(kept, db', db'.schedules[s].room) {}
      StayServed(kept, db', edited, edited);
    }
  }

  /** Schedules and periods written, devices and desired states left alone:
      each schedule now active and unedited was so before, with the same or
      fewer periods. */
  ghost predicate SchedulesWritten(db: Db, db': Db, edited: set<Id>, edited': set<Id>) {
    && db'.devices == db.devices && db'.desired == db.desired
    && (forall s :: s in db'.schedules && db'.schedules[s].active && s !in edited' ==>
          s in db.schedules && db.schedules[s].active && s !in edited && db'.schedules[s].room == db.schedules[s].room)
    && (forall p :: p in db'.periods ==>
          db'.periods[p].schedule in edited' || (p in db.periods && db.periods[p] == db'.periods[p]))
  }

  lemma SchedulesWrittenServed(db: Db, db': Db, edited: set<Id>, edited': set<Id>)
    requires Served(db, edited) && SchedulesWritten(db, db', edited, edited')
    ensures Served(db', edited')
  {
    forall r: Id ensures DevicesStay(db, db', r) {}
    StayServed(db, db', edited, edited');
  }

  lemma CreationWrites(db: Db, r: Id, u: Id, name: string, edited: set<Id>)
    ensures SchedulesWritten(db, CreateSchedule(db, r, u, name).db, edited, edited)
  {
  }

  lemma RenamingWrites(db: Db, s: Id, u: Id, name: string, edited: set<Id>)
    ensures SchedulesWritten(db, RenameSchedule(db, s, u, name).db, edited, edited)
  {
  }

  lemma DeletionWrites(db: Db, s: Id, u: Id, edited: set<Id>)
    ensures SchedulesWritten(db, DeleteSchedule(db, s, u).db, edited, edited)
  {
  }

  lemma DeactivationWrites(db: Db, s: Id, u: Id, edited: set<Id>)
    ensures SchedulesWritten(db, Deactivate(db, s, u).db, edited, edited)
  {
  }

  lemma ScheduleEdit(db: Db, op: Op, edited: set<Id>)
    requires op.OpCreateSchedule? || op.OpRenameSchedule? || op.OpDeleteSchedule? || op.OpDeactivate?
    ensures SchedulesWritten(db, Apply(db, op).db, edited, edited)
  {
    match op
    case OpCreateSchedule(r, u, name) => CreationWrites(db, r, u, name, edited);
    case OpRenameSchedule(s, u, name) => RenamingWrites(db, s, u, name, edited);
    case OpDeleteSchedule(s, u) => DeletionWrites(db, s, u, edited);
    case OpDeactivate(s, u) => DeactivationWrites(db, s, u, edited);
  }

  /** The three period requests leave schedules alone and write at most one
      row, of the schedule they note as edited. */
  lemma PeriodWrites(db: Db, op: Op, edited: set<Id>)
    requires ForPeriod(op)
    ensures var db', edited' := Apply(db, op).db, Edited(db, op, edited);
      && db'.schedules == db.schedules && db'.devices == db.devices && db'.desired == db.desired && edited <= edited'
      && (forall p :: p in db'.periods ==>
            db'.periods[p].schedule in edited' || (p in db.periods && db.periods[p] == db'.periods[p]))
  {
  }

  lemma PeriodEdit(db: Db, op: Op, edited: set<Id>)
    requires ForPeriod(op)
    ensures SchedulesWritten(db, Apply(db, op).db, edited, Edited(db, op, edited))
  {
    PeriodWrites(db, op, edited);
  }

  /** Requests that touch neither schedules nor periods, keep every device
      where it is and set no desired state. */
  lemma UnrelatedServed(db: Db, db': Db, edited: set<Id>)
    requires Served(db, edited) && db'.schedules == db.schedules && db'.periods == db.periods
    requires forall d :: d in db.devices ==> d in db'.devices && db'.devices[d] == db.devices[d]
    requires forall r :: r in db'.desired ==> (r in db.desired && db'.desired[r] == db.desired[r]) || !db'.desired[r].manualActive
    ensures Served(db', edited)
  {
    forall r ensures DevicesStay(db, db', r) {}
    StayServed(db, db', edited, edited);
  }

  lemma OtherServed(db: Db, op: Op, edited: set<Id>)
    requires IdsBelowNext(db) && Served(db, edited)
    requires op.OpRegister? || op.OpSetTimezone? || op.OpCreateRoom? || op.OpUpdateRoom? || op.OpCreateDevice?
    ensures Served(Apply(db, op).db, edited)
  {
    UnrelatedServed(db, Apply(db, op).db, edited);
  }

  /** One request, over all three services. */
  lemma ApplyServed(db: Db, op: Op, edited: set<Id>)
    requires IdsBelowNext(db) && References(db) && Served(db, edited)
    ensures Served(Apply(db, op).db, Edited(db, op, edited))
  {
    if op.OpDesiredState? { DesiredStateServed(db, op.r, op.u, op.desired, edited); }
    else if op.OpActivate? { ActivateServed(db, op.s, op.u, edited); }
    else if op.OpDeleteRoom? { RoomDeletionServed(db, {op.r}, edited); }
    else if op.OpDeleteUser? { UserDeletionServed(db, op.u, edited); }
    else if op.OpUpdateDevice? {
      if Apply(db, op).reply.Done? { RemovalServed(db, Apply(db, op).db, op.d, edited); }
    } else if op.OpDeleteDevice? {
      if Apply(db, op).reply.Done? { RemovalServed(db, Apply(db, op).db, op.d, edited); }
    } else if op.OpRegister? || op.OpSetTimezone? || op.OpCreateRoom? || op.OpUpdateRoom? || op.OpCreateDevice? {
      OtherServed(db, op, edited);
    } else if op.OpCreatePeriod? || op.OpUpdatePeriod? || op.OpDeletePeriod? {
      PeriodEdit(db, op, edited);
      SchedulesWrittenServed(db, Apply(db, op).db, edited, Edited(db, op, edited));
    } else {
      ScheduleEdit(db, op, edited);
      SchedulesWrittenServed(db, Apply(db, op).db, edited, edited);
    }
  }

  function EditedRun(db: Db, ops: seq<Op>, edited: set<Id>): set<Id>
    decreases |ops|
  {
    if ops == [] then edited else EditedRun(Apply(db, ops[0]).db, ops[1..], Edited(db, ops[0], edited))
  }

  /** After any sequence of requests, every room under manual AUTO control has
      a served in-range target, and so has every active schedule that was not
      edited since its activation. */
  lemma {:induction false} RunServed(db: Db, ops: seq<Op>, edited: set<Id>)
    requires Valid(db) && Served(db, edited)
    ensures Served(Run(db, ops), EditedRun(db, ops, edited))
    decreases |ops|
  {
    if ops != [] {
      ApplyValid(db, ops[0]);
      ApplyServed(db, ops[0], edited);
      RunServed(Apply(db, ops[0]).db, ops[1..], Edited(db, ops[0], edited));
    }
  }

  lemma PutServed(db: Db, db': Db, s: Id, p: Id, row: PeriodRow)
    requires s in db.schedules && db'.schedules == db.schedules && db'.devices == db.devices
    requires row.schedule == s && db'.periods == db.periods[p := row]
    ensures ScheduleServed(db', s) <==> Backed(db, db.schedules[s].room, row.targets) && OthersServed(db, s, p)
  {
    var r := db.schedules[s].room;
    assert forall t :: Backed(db', r, t) <==> Backed(db, r, t);
    assert p in db'.periods && db'.periods[p] == row;
    assert forall q :: q in db.periods && q != p ==> q in db'.periods && db'.periods[q] == db.periods[q];
  }

  /** The schedule's periods other than `p` are served. */
  predicate OthersServed(db: Db, s: Id, p: Id)
    requires s in db.schedules
  {
    forall q :: q in db.periods && q != p && db.periods[q].schedule == s ==>
      Backed(db, db.schedules[s].room, db.periods[q].targets)
  }

  /** Why edits are excepted: a created period leaves its schedule served
      exactly when it was and the room's devices serve the new targets, which
      the API does not check. */
  lemma CreatePeriodServedExactly(db: Db, s: Id, u: Id, x: PeriodInput)
    requires IdsBelowNext(db) && CreatePeriod(db, s, u, x).reply.Done?
    ensures ScheduleServed(CreatePeriod(db, s, u, x).db, s) <==> ScheduleServed(db, s) && Backed(db, db.schedules[s].room, x.targets)
  {
    PutServed(db, CreatePeriod(db, s, u, x).db, s, db.next, ToRow(s, x));
  }

  /** An updated period leaves its schedule served exactly when the room serves
      the new targets and those of the other periods; what the period asked
      for before does not matter, so an update can also repair. */
  lemma UpdatePeriodServedExactly(db: Db, p: Id, u: Id, x: PeriodInput)
    requires p in db.periods && UpdatePeriod(db, p, u, x).reply.Done?
    ensures var s := db.periods[p].schedule;
      ScheduleServed(UpdatePeriod(db, p, u, x).db, s) <==> Backed(db, db.schedules[s].room, x.targets) && OthersServed(db, s, p)
  {
    PutServed(db, UpdatePeriod(db, p, u, x).db, db.periods[p].schedule, p, ToRow(db.periods[p].schedule, x));
  }
}
