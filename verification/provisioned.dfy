/** What a complete run leaves, said of the tables and of the controller: every
    configured room holds its desired state until the end of the year 9999 and
    runs its schedule, and every new device is as declared. */
module Provisioned {
  import opened Base
  import opened Times
  import opened Tables
  import opened Api
  import opened ApiCapability
  import opened Identity
  import opened Provisioning
  import opened ProvisionPlan
  import ApiExact
  import Appdb
  import Cache
  import Control

  // ---------------------------------------------------------------------
  // Which rooms and devices are configured
  // ---------------------------------------------------------------------

  function UsersBefore(groups: seq<Group>): nat {
    if groups == [] then 0 else UsersBefore(groups[..|groups| - 1]) + groups[|groups| - 1].count
  }

  function RoomsBefore(defs: seq<RoomDef>): nat {
    if defs == [] then 0 else RoomsBefore(defs[..|defs| - 1]) + defs[|defs| - 1].count
  }

  function DevicesBefore(defs: seq<DeviceDef>): nat {
    if defs == [] then 0 else DevicesBefore(defs[..|defs| - 1]) + defs[|defs| - 1].count
  }

  // Every copy of every definition has a number of its own, in order: group
  // `k`'s user `i` comes after all users of the groups before.

  lemma {:induction false} UsersCounted(groups: seq<Group>)
    ensures |Users(groups)| == UsersBefore(groups)
  {
    if groups != [] { UsersCounted(groups[..|groups| - 1]); }
  }

  lemma {:induction false} UsersNumbered(groups: seq<Group>, k: nat, i: nat)
    requires k < |groups| && i < groups[k].count
    ensures UsersBefore(groups[..k]) + i < |Users(groups)| && Users(groups)[UsersBefore(groups[..k]) + i] == Rooms(groups[k].rooms)
  {
    var n := |groups| - 1;
    UsersCounted(groups[..n]);
    if k < n {
      assert groups[..n][..k] == groups[..k];
      UsersNumbered(groups[..n], k, i);
    }
  }

  lemma {:induction false} RoomsCounted(defs: seq<RoomDef>)
    ensures |Rooms(defs)| == RoomsBefore(defs)
  {
    if defs != [] { RoomsCounted(defs[..|defs| - 1]); }
  }

  lemma {:induction false} RoomsNumbered(defs: seq<RoomDef>, k: nat, i: nat)
    requires k < |defs| && i < defs[k].count
    ensures RoomsBefore(defs[..k]) + i < |Rooms(defs)| && Rooms(defs)[RoomsBefore(defs[..k]) + i] == defs[k]
  {
    var n := |defs| - 1;
    RoomsCounted(defs[..n]);
    if k < n {
      assert defs[..n][..k] == defs[..k];
      RoomsNumbered(defs[..n], k, i);
    }
  }

  lemma {:induction false} DevicesCounted(defs: seq<DeviceDef>)
    ensures |Devices(defs)| == DevicesBefore(defs)
  {
    if defs != [] { DevicesCounted(defs[..|defs| - 1]); }
  }

  lemma {:induction false} DevicesNumbered(defs: seq<DeviceDef>, k: nat, i: nat)
    requires k < |defs| && i < defs[k].count
    ensures DevicesBefore(defs[..k]) + i < |Devices(defs)| && Devices(defs)[DevicesBefore(defs[..k]) + i] == Copy(defs[k], i)
  {
    var n := |defs| - 1;
    DevicesCounted(defs[..n]);
    if k < n {
      assert defs[..n][..k] == defs[..k];
      DevicesNumbered(defs[..n], k, i);
    }
  }

  /** The places of a configuration: copy `h` of room definition `j` for user
      `i` of group `k`, whichever these are. */
  lemma EveryCopyHasItsPlace(cfg: Config, k: nat, i: nat, j: nat, h: nat)
    requires k < |cfg.groups| && i < cfg.groups[k].count
    requires j < |cfg.groups[k].rooms| && h < cfg.groups[k].rooms[j].count
    ensures IsPlace(cfg, Place(
      cfg.sim, cfg.domain, UsersBefore(cfg.groups[..k]) + i, RoomsBefore(cfg.groups[k].rooms[..j]) + h, cfg.groups[k].rooms[j]))
  {
    UsersNumbered(cfg.groups, k, i);
    RoomsNumbered(cfg.groups[k].rooms, j, h);
  }

  // ---------------------------------------------------------------------
  // What a run leaves
  // ---------------------------------------------------------------------

  /** Every entry for the room resolves to these targets under AUTO, as a manual
      override, whatever period was in force last, until the last second of the
      year 9999. */
  ghost predicate KeepsTo(db: Db, r: Id, t: Targets) {
    RowsOf(db, r).Some? && forall c, last, now: Control.Now ::
      Appdb.Describes(c, r, RowsOf(db, r).value) && now.instant < 253402300799_000000000 ==>
        Control.Resolve(c, last, now) == Control.Effective(Auto, t, Control.ManualOverride, None)
  }

  ghost predicate DesiredInForce(db: Db, at: Place) {
    var r := RoomAt(db, Email(at), RoomName(at));
    at.def.desired.Some? ==>
      r.Some? && KeepsTo(db, r.value, at.def.desired.value) && Backed(db, r.value, at.def.desired.value)
  }

  /** The stored period shares a day with the configured one, and each starts,
      as text, before the other ends. */
  predicate Overlaps(row: PeriodRow, x: PeriodInput) {
    (exists d :: d in x.days && d in row.days) && LexLess(row.start, x.end) && LexLess(x.start, row.end)
  }

  /** The schedule has a period overlapping the configured one; it was there
      before the run, or it holds what one of the configured periods says. */
  ghost predicate PeriodKept(start: Db, db: Db, sid: Id, s: ScheduleDef, x: PeriodInput) {
    exists p :: p in db.periods && db.periods[p].schedule == sid && Overlaps(db.periods[p], x)
      && (p in start.periods || exists y :: y in s.periods && ApiExact.Says(db.periods[p], sid, y))
  }

  /** It is the schedule of that name in that room, the only active one there,
      with each configured period kept. */
  ghost predicate RunsAs(start: Db, db: Db, r: Id, sid: Id, s: ScheduleDef) {
    && sid in db.schedules && db.schedules[sid].room == r && db.schedules[sid].name == s.name
    && (forall t :: t in db.schedules && db.schedules[t].room == r ==> (db.schedules[t].active <==> t == sid))
    && forall x :: x in s.periods ==> PeriodKept(start, db, sid, s, x)
  }

  ghost predicate ScheduleInForce(start: Db, db: Db, at: Place) {
    var r := RoomAt(db, Email(at), RoomName(at));
    at.def.schedule.Some? ==> r.Some? && exists sid :: RunsAs(start, db, r.value, sid, at.def.schedule.value)
  }

  /** Device `n` of the place is the user's, in the place's room, under its own
      name; a device new in this run senses and drives what it declares. */
  ghost predicate DeviceThere(start: Db, db: Db, at: Place, n: nat)
    requires n < |Devices(at.def.devices)|
  {
    var d, r, c := DeviceAt(db, Email(at), HwIdAt(at, n)), RoomAt(db, Email(at), RoomName(at)), Devices(at.def.devices)[n];
    && d.Some? && r.Some? && db.devices[d.value].room == r && db.devices[d.value].name == DeviceName(at, c)
    && (d.value !in start.devices ==> Declares(db.devices[d.value], c.def.sensors, c.def.actuators))
  }

  ghost predicate Declares(row: DeviceRow, sensors: seq<Measure>, actuators: seq<ActuatorType>) {
    (forall m :: m in row.sensors <==> m in sensors) && (forall a :: a in row.actuators <==> a in actuators)
  }

  ghost predicate InPlace(start: Db, db: Db, at: Place) {
    && RoomAt(db, Email(at), RoomName(at)).Some? && DesiredInForce(db, at) && ScheduleInForce(start, db, at)
    && forall n: nat :: n < |Devices(at.def.devices)| ==> DeviceThere(start, db, at, n)
  }

  // ---------------------------------------------------------------------
  // Rows that are new come from the calls
  // ---------------------------------------------------------------------

  lemma NewPeriod(db: Db, c: Call, d: Db, p: Id)
    requires Perform(db, c) == Some(d) && p in d.periods && p !in db.periods
    ensures c.EnsurePeriod? && ScheduleAt(db, c.email, c.room, c.schedule) == Some(d.periods[p].schedule)
    ensures ApiExact.Says(d.periods[p], d.periods[p].schedule, c.period)
  {
  }

  lemma NewDeclared(db: Db, c: Call, d: Db, x: Id)
    requires Perform(db, c) == Some(d) && x in d.devices && x !in db.devices
    ensures c.EnsureDevice? && c.hw == d.devices[x].hwId && Declares(d.devices[x], c.sensors, c.actuators)
  {
  }

  ghost predicate MakesPeriod(db: Db, c: Call, row: PeriodRow) {
    c.EnsurePeriod? && ScheduleAt(db, c.email, c.room, c.schedule) == Some(row.schedule)
    && ApiExact.Says(row, row.schedule, c.period)
  }

  lemma LastMakes(m: Db, c: Call, d: Db, p: Id)
    requires Ready(m) && Perform(m, c) == Some(d) && p in d.periods && p !in m.periods
    ensures MakesPeriod(d, c, d.periods[p])
  {
    Settles(m, c);
    NewPeriod(m, c, d, p);
    ScheduleStays(m, d, c.email, c.room, c.schedule);
  }

  lemma StillMade(m: Db, c: Call, d: Db, c0: Call, p: Id)
    requires Ready(m) && Perform(m, c) == Some(d) && p in m.periods && MakesPeriod(m, c0, m.periods[p])
    ensures p in d.periods && MakesPeriod(d, c0, d.periods[p])
  {
    Settles(m, c);
    ScheduleStays(m, d, c0.email, c0.room, c0.schedule);
  }

  lemma {:induction false} PeriodFromCall(db: Db, plan: seq<Call>, d: Db, p: Id) returns (i: nat)
    requires Ready(db) && RunCalls(db, plan) == Some(d) && p in d.periods && p !in db.periods
    ensures i < |plan| && MakesPeriod(d, plan[i], d.periods[p])
    decreases |plan|
  {
    var n := |plan| - 1;
    var m := RunCalls(db, plan[..n]).value;
    RunGrows(db, plan[..n]);
    if p in m.periods {
      i := PeriodFromCall(db, plan[..n], m, p);
      StillMade(m, plan[n], d, plan[i], p);
    } else {
      i := n;
      LastMakes(m, plan[n], d, p);
    }
  }

  lemma {:induction false} DeviceFromCall(db: Db, plan: seq<Call>, x: Id) returns (i: nat)
    requires Ready(db) && RunCalls(db, plan).Some? && x in RunCalls(db, plan).value.devices && x !in db.devices
    ensures i < |plan| && plan[i].EnsureDevice?
    ensures var row := RunCalls(db, plan).value.devices[x];
      row.hwId == plan[i].hw && Declares(row, plan[i].sensors, plan[i].actuators)
    decreases |plan|
  {
    var n := |plan| - 1;
    var m := RunCalls(db, plan[..n]).value;
    RunGrows(db, plan[..n]);
    Settles(m, plan[n]);
    if x in m.devices {
      i := DeviceFromCall(db, plan[..n], x);
    } else {
      i := n;
      NewDeclared(m, plan[n], RunCalls(db, plan).value, x);
    }
  }

  // ---------------------------------------------------------------------
  // Facts that hold at the end, place by place
  // ---------------------------------------------------------------------

  lemma PartsHold(db: Db, a: seq<Call>, b: seq<Call>)
    requires AllHold(db, a + b)
    ensures AllHold(db, a) && AllHold(db, b)
  {
    forall i | 0 <= i < |a| ensures Holds(db, a[i]) { assert (a + b)[i] == a[i]; }
    forall i | 0 <= i < |b| ensures Holds(db, b[i]) { assert (a + b)[|a| + i] == b[i]; }
  }

  lemma {:induction false} PartHolds(db: Db, parts: seq<seq<Call>>, i: nat)
    requires AllHold(db, Flat(parts)) && i < |parts|
    ensures AllHold(db, parts[i])
  {
    var n := |parts| - 1;
    PartsHold(db, Flat(parts[..n]), parts[n]);
    if i < n { PartHolds(db, parts[..n], i); }
  }

  lemma PlaceHolds(db: Db, cfg: Config, at: Place)
    requires AllHold(db, Whole(cfg)) && IsPlace(cfg, at)
    ensures AllHold(db, RoomCalls(at))
  {
    var rooms := Users(cfg.groups)[at.user];
    PartHolds(db, UserParts(cfg), at.user);
    PartsHold(db, [EnsureUser(EmailOf(cfg.sim, at.user, cfg.domain))], RoomsCalls(cfg, at.user, rooms));
    PartHolds(db, RoomParts(cfg, at.user, rooms), at.room);
    assert PlaceOf(cfg, at.user, rooms, at.room) == at;
  }

  lemma DesiredHolds(db: Db, at: Place)
    requires Ready(db) && AllHold(db, DesiredCalls(at))
    ensures DesiredInForce(db, at)
  {
    if at.def.desired.Some? {
      assert Holds(db, DesiredCalls(at)[0]);
      var r, t := RoomAt(db, Email(at), RoomName(at)).value, at.def.desired.value;
      assert DesiredServed(db, r);
      forall c, last, now: Control.Now | Appdb.Describes(c, r, RowsOf(db, r).value) && now.instant < 253402300799_000000000
        ensures Control.Resolve(c, last, now) == Control.Effective(Auto, t, Control.ManualOverride, None)
      {
        assert c.desired == db.desired[r];
      }
    }
  }

  /** Two schedules found under the keys of two places are the same only if the
      places are. */
  lemma OnePlace(cfg: Config, db: Db, a: Place, b: Place, s: string, t: string)
    requires IsPlace(cfg, a) && IsPlace(cfg, b)
    requires ScheduleAt(db, Email(a), RoomName(a), s).Some?
    requires ScheduleAt(db, Email(b), RoomName(b), t) == ScheduleAt(db, Email(a), RoomName(a), s)
    ensures a == b
  {
    UserOf(db, Email(a), Email(b));
    SamePlace(cfg, a, b);
  }

  /** A period the run added to the place's schedule is a configured one. */
  lemma AddedIsConfigured(cfg: Config, start: Db, db: Db, at: Place, s: ScheduleDef, sid: Id, p: Id)
    requires Ready(start) && RunCalls(start, Whole(cfg)) == Some(db) && IsPlace(cfg, at) && at.def.schedule == Some(s)
    requires ScheduleAt(db, Email(at), RoomName(at), s.name) == Some(sid)
    requires p in db.periods && db.periods[p].schedule == sid && p !in start.periods
    ensures exists y :: y in s.periods && ApiExact.Says(db.periods[p], sid, y)
  {
    var i := PeriodFromCall(start, Whole(cfg), db, p);
    var c := Whole(cfg)[i];
    WholePlanned(cfg);
    assert Planned(cfg, c);
    var b: Place :| IsPlace(cfg, b) && c.email == Email(b) && c.room == RoomName(b)
      && b.def.schedule.Some? && b.def.schedule.value.name == c.schedule && c.period in b.def.schedule.value.periods;
    OnePlace(cfg, db, at, b, s.name, c.schedule);
  }

  lemma OverlapFound(db: Db, sid: Id, x: PeriodInput) returns (p: Id)
    requires HasOverlap(db, sid, ToRow(sid, x), None)
    ensures p in db.periods && db.periods[p].schedule == sid && Overlaps(db.periods[p], x)
  {
    p :| p in db.periods && db.periods[p].schedule == sid && Some(p) != None && Clash(db.periods[p], ToRow(sid, x));
    var d := SomeMember(db.periods[p].days * ToRow(sid, x).days);
    assert d in x.days && d in db.periods[p].days;
  }

  lemma PeriodHolds(cfg: Config, start: Db, db: Db, at: Place, s: ScheduleDef, sid: Id, x: PeriodInput)
    requires Ready(start) && RunCalls(start, Whole(cfg)) == Some(db) && IsPlace(cfg, at) && at.def.schedule == Some(s)
    requires ScheduleAt(db, Email(at), RoomName(at), s.name) == Some(sid) && Holds(db, EnsurePeriod(Email(at), RoomName(at), s.name, x))
    ensures PeriodKept(start, db, sid, s, x)
  {
    var p := OverlapFound(db, sid, x);
    if p !in start.periods { AddedIsConfigured(cfg, start, db, at, s, sid, p); }
  }

  lemma ScheduleHolds(cfg: Config, start: Db, db: Db, at: Place)
    requires Ready(start) && RunCalls(start, Whole(cfg)) == Some(db) && IsPlace(cfg, at)
    requires Ready(db) && AllHold(db, OptionalSchedule(at))
    ensures ScheduleInForce(start, db, at)
  {
    if at.def.schedule.Some? {
      var s := at.def.schedule.value;
      var mid, last := Map(s.periods, PeriodCall(at, s)), ActivateSchedule(Email(at), RoomName(at), s.name);
      PartsHold(db, [EnsureSchedule(Email(at), RoomName(at), s.name)], PeriodCalls(at, s));
      PartsHold(db, mid, [last]);
      assert Holds(db, [last][0]);
      var sid := ScheduleAt(db, Email(at), RoomName(at), s.name).value;
      forall x | x in s.periods ensures PeriodKept(start, db, sid, s, x) {
        var i :| 0 <= i < |s.periods| && s.periods[i] == x;
        assert Holds(db, mid[i]);
        PeriodHolds(cfg, start, db, at, s, sid, x);
      }
      assert RunsAs(start, db, RoomAt(db, Email(at), RoomName(at)).value, sid, s);
    }
  }

  lemma NewIsDeclared(cfg: Config, start: Db, db: Db, at: Place, n: nat, x: Id)
    requires Ready(start) && RunCalls(start, Whole(cfg)) == Some(db) && IsPlace(cfg, at) && n < |Devices(at.def.devices)|
    requires x in db.devices && db.devices[x].hwId == HwIdAt(at, n) && x !in start.devices
    ensures Declares(db.devices[x], Devices(at.def.devices)[n].def.sensors, Devices(at.def.devices)[n].def.actuators)
  {
    var i := DeviceFromCall(start, Whole(cfg), x);
    var c := Whole(cfg)[i];
    WholePlanned(cfg);
    assert Planned(cfg, c);
    var b: Place, e: nat :| IsPlace(cfg, b) && e < |Devices(b.def.devices)| && c == DeviceCall(b, Devices(b.def.devices)[e], e);
    HwIdsDiffer(cfg.sim, at.user, at.room, n, cfg.sim, b.user, b.room, e);
    assert at == b;
  }

  lemma DeviceHolds(cfg: Config, start: Db, db: Db, at: Place, n: nat)
    requires Ready(start) && RunCalls(start, Whole(cfg)) == Some(db) && IsPlace(cfg, at) && n < |Devices(at.def.devices)|
    requires AllHold(db, AllDevices(at))
    ensures DeviceThere(start, db, at, n)
  {
    PartHolds(db, DeviceParts(at), n);
    var calls := OneDevice(at, Devices(at.def.devices)[n], n);
    assert Holds(db, calls[1]);
    var x := DeviceAt(db, Email(at), HwIdAt(at, n)).value;
    if x !in start.devices { NewIsDeclared(cfg, start, db, at, n, x); }
  }

  lemma PlaceInOrder(cfg: Config, start: Db, db: Db, at: Place)
    requires Ready(start) && RunCalls(start, Whole(cfg)) == Some(db) && IsPlace(cfg, at)
    requires Ready(db) && AllHold(db, RoomCalls(at))
    ensures InPlace(start, db, at)
  {
    var first := [EnsureRoom(Email(at), RoomName(at))];
    PartsHold(db, first, FurnishCalls(at));
    PartsHold(db, AllDevices(at), ControlCalls(at));
    PartsHold(db, DesiredCalls(at), OptionalSchedule(at));
    assert Holds(db, first[0]);
    DesiredHolds(db, at);
    ScheduleHolds(cfg, start, db, at);
    forall n: nat | n < |Devices(at.def.devices)| ensures DeviceThere(start, db, at, n) {
      DeviceHolds(cfg, start, db, at, n);
    }
  }

  /** After a complete run every place of the configuration has its room, its
      desired state in force and served by the room's devices, its schedule
      active with each configured period kept, and its devices. */
  lemma RunLeaves(cfg: Config, start: Db, db: Db)
    requires Ready(start) && RunCalls(start, Whole(cfg)) == Some(db)
    ensures forall at :: IsPlace(cfg, at) ==> InPlace(start, db, at)
  {
    PlanCompatible(cfg);
    RunHolds(start, Whole(cfg));
    forall at | IsPlace(cfg, at) ensures InPlace(start, db, at) {
      PlaceHolds(db, cfg, at);
      PlaceInOrder(cfg, start, db, at);
    }
  }

  // ---------------------------------------------------------------------
  // A schedule that is new
  // ---------------------------------------------------------------------

  predicate Apart(x: PeriodInput, y: PeriodInput) {
    (forall d :: d in x.days ==> d !in y.days) || !LexLess(x.start, y.end) || !LexLess(y.start, x.end)
  }

  ghost predicate AllApart(s: ScheduleDef) { forall x, y :: x in s.periods && y in s.periods && x != y ==> Apart(x, y) }

  lemma SaysTheOverlapped(row: PeriodRow, sid: Id, x: PeriodInput, y: PeriodInput)
    requires Overlaps(row, x) && ApiExact.Says(row, sid, y) && (x != y ==> Apart(x, y))
    ensures ApiExact.Says(row, sid, x)
  {
    var d :| d in x.days && d in row.days;
    assert d in y.days;
  }

  /** If the schedule has no period from before the run and its configured
      periods do not overlap, each of them is there as configured: days, times,
      mode and targets. */
  lemma PeriodAsConfigured(start: Db, db: Db, sid: Id, s: ScheduleDef, x: PeriodInput) returns (p: Id)
    requires x in s.periods && PeriodKept(start, db, sid, s, x) && AllApart(s)
    requires forall q :: q in start.periods && q in db.periods ==> db.periods[q].schedule != sid
    ensures p in db.periods && ApiExact.Says(db.periods[p], sid, x)
  {
    p :| p in db.periods && db.periods[p].schedule == sid && Overlaps(db.periods[p], x)
      && (p in start.periods || exists y :: y in s.periods && ApiExact.Says(db.periods[p], sid, y));
    var y :| y in s.periods && ApiExact.Says(db.periods[p], sid, y);
    SaysTheOverlapped(db.periods[p], sid, x, y);
  }
}
