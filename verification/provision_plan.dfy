/** The provisioner's calls as its configuration generates them: they never
    undo each other, so a run can be repeated or resumed. */
module ProvisionPlan {
  import opened Base
  import opened Tables
  import opened Api
  import opened Identity
  import opened Provisioning

  datatype DeviceDef = DeviceDef(prefix: string, count: nat, sensors: seq<Measure>, actuators: seq<ActuatorType>)
  datatype ScheduleDef = ScheduleDef(name: string, periods: seq<PeriodInput>)
  datatype RoomDef = RoomDef(
    prefix: string, count: nat, devices: seq<DeviceDef>, desired: Option<Targets>, schedule: Option<ScheduleDef>)
  datatype Group = Group(count: nat, rooms: seq<RoomDef>)
  datatype Config = Config(sim: string, domain: string, groups: seq<Group>)

  /** A device definition with the number of this copy of it. */
  datatype Copy = Copy(def: DeviceDef, i: nat)

  // Definitions with their counts unrolled; a position in the list is the
  // index the provisioner numbers by.

  function Devices(defs: seq<DeviceDef>): seq<Copy> {
    if defs == [] then []
    else Devices(defs[..|defs| - 1]) + seq(defs[|defs| - 1].count, i requires i >= 0 => Copy(defs[|defs| - 1], i))
  }

  function Rooms(defs: seq<RoomDef>): seq<RoomDef> {
    if defs == [] then []
    else Rooms(defs[..|defs| - 1]) + seq(defs[|defs| - 1].count, i => defs[|defs| - 1])
  }

  function Users(groups: seq<Group>): seq<seq<RoomDef>> {
    if groups == [] then []
    else Users(groups[..|groups| - 1]) + seq(groups[|groups| - 1].count, i => Rooms(groups[|groups| - 1].rooms))
  }

  /** Where a call is for: the simulation, the user and the room. */
  datatype Place = Place(sim: string, domain: string, user: nat, room: nat, def: RoomDef)

  function Email(at: Place): string { EmailOf(at.sim, at.user, at.domain) }
  function RoomName(at: Place): string { RoomNameOf(at.def.prefix, at.room) }
  function HwIdAt(at: Place, d: nat): HwId { HwIdOf(at.sim, at.user, at.room, d) }

  function DeviceName(at: Place, c: Copy): string { RoomName(at) + "-" + c.def.prefix + "-" + Digits(c.i) }

  function DeviceCall(at: Place, c: Copy, d: nat): Call {
    EnsureDevice(Email(at), DeviceName(at, c), HwIdAt(at, d), c.def.sensors, c.def.actuators)
  }

  function AssignCall(at: Place, c: Copy, d: nat): Call {
    Assign(Email(at), DeviceName(at, c), HwIdAt(at, d), RoomName(at))
  }

  /** One device: create, then assign. */
  function OneDevice(at: Place, c: Copy, d: nat): seq<Call> { [DeviceCall(at, c, d), AssignCall(at, c, d)] }

  /** One part after the other: what a loop over the parts calls. */
  function Flat(parts: seq<seq<Call>>): seq<Call> {
    if parts == [] then [] else Flat(parts[..|parts| - 1]) + parts[|parts| - 1]
  }

  function DeviceParts(at: Place): (r: seq<seq<Call>>)
    ensures |r| == |Devices(at.def.devices)|
  {
    var copies := Devices(at.def.devices);
    seq(|copies|, d requires 0 <= d < |copies| => OneDevice(at, copies[d], d))
  }

  /** provisionDevices. */
  function AllDevices(at: Place): seq<Call> { Flat(DeviceParts(at)) }

  function PeriodCall(at: Place, s: ScheduleDef): PeriodInput -> Call {
    (x: PeriodInput) => EnsurePeriod(Email(at), RoomName(at), s.name, x)
  }

  function PeriodCalls(at: Place, s: ScheduleDef): seq<Call> {
    Map(s.periods, PeriodCall(at, s)) + [ActivateSchedule(Email(at), RoomName(at), s.name)]
  }

  /** provisionSchedule. */
  function ScheduleCalls(at: Place, s: ScheduleDef): seq<Call> {
    [EnsureSchedule(Email(at), RoomName(at), s.name)] + PeriodCalls(at, s)
  }

  function DesiredCalls(at: Place): seq<Call> {
    if at.def.desired.Some? then [SetDesired(Email(at), RoomName(at), at.def.desired.value)] else []
  }

  function OptionalSchedule(at: Place): seq<Call> {
    if at.def.schedule.Some? then ScheduleCalls(at, at.def.schedule.value) else []
  }

  function ControlCalls(at: Place): seq<Call> { DesiredCalls(at) + OptionalSchedule(at) }

  /** What follows the room itself. */
  function FurnishCalls(at: Place): seq<Call> { AllDevices(at) + ControlCalls(at) }

  /** One room of provisionRooms. */
  function RoomCalls(at: Place): seq<Call> {
    [EnsureRoom(Email(at), RoomName(at))] + FurnishCalls(at)
  }

  function PlaceOf(cfg: Config, u: nat, rooms: seq<RoomDef>, r: nat): Place
    requires r < |rooms|
  {
    Place(cfg.sim, cfg.domain, u, r, rooms[r])
  }

  function RoomParts(cfg: Config, u: nat, rooms: seq<RoomDef>): (r: seq<seq<Call>>)
    ensures |r| == |rooms|
  {
    seq(|rooms|, r requires 0 <= r < |rooms| => RoomCalls(PlaceOf(cfg, u, rooms, r)))
  }

  /** provisionRooms for user `u`. */
  function RoomsCalls(cfg: Config, u: nat, rooms: seq<RoomDef>): seq<Call> { Flat(RoomParts(cfg, u, rooms)) }

  function UserCalls(cfg: Config, u: nat, rooms: seq<RoomDef>): seq<Call> {
    [EnsureUser(EmailOf(cfg.sim, u, cfg.domain))] + RoomsCalls(cfg, u, rooms)
  }

  function UserParts(cfg: Config): (r: seq<seq<Call>>)
    ensures |r| == |Users(cfg.groups)|
  {
    var users := Users(cfg.groups);
    seq(|users|, u requires 0 <= u < |users| => UserCalls(cfg, u, users[u]))
  }

  /** Run. */
  function Whole(cfg: Config): seq<Call> { Flat(UserParts(cfg)) }

  // ---------------------------------------------------------------------
  // The calls of a plan never undo each other
  // ---------------------------------------------------------------------

  ghost predicate IsPlace(cfg: Config, at: Place) {
    && at.sim == cfg.sim && at.domain == cfg.domain
    && at.user < |Users(cfg.groups)|
    && at.room < |Users(cfg.groups)[at.user]|
    && at.def == Users(cfg.groups)[at.user][at.room]
  }

  /** The call is one the configuration asks for somewhere. */
  ghost predicate Planned(cfg: Config, c: Call) {
    match c
    case Assign(_, _, _, _) =>
      exists at: Place, d: nat :: IsPlace(cfg, at) && d < |Devices(at.def.devices)| && c == AssignCall(at, Devices(at.def.devices)[d], d)
    case EnsureDevice(_, _, _, _, _) =>
      exists at: Place, d: nat :: IsPlace(cfg, at) && d < |Devices(at.def.devices)| && c == DeviceCall(at, Devices(at.def.devices)[d], d)
    case EnsurePeriod(email, room, s, x) =>
      exists at: Place :: IsPlace(cfg, at) && email == Email(at) && room == RoomName(at)
        && at.def.schedule.Some? && at.def.schedule.value.name == s && x in at.def.schedule.value.periods
    case SetDesired(email, room, t) =>
      exists at: Place :: IsPlace(cfg, at) && email == Email(at) && room == RoomName(at) && at.def.desired == Some(t)
    case ActivateSchedule(email, room, s) =>
      exists at: Place :: IsPlace(cfg, at) && email == Email(at) && room == RoomName(at)
        && at.def.schedule.Some? && at.def.schedule.value.name == s
    case _ => true
  }

  ghost predicate AllPlanned(cfg: Config, s: seq<Call>) { forall i :: 0 <= i < |s| ==> Planned(cfg, s[i]) }

  lemma {:induction false} PlannedFlat(cfg: Config, parts: seq<seq<Call>>)
    requires forall i :: 0 <= i < |parts| ==> AllPlanned(cfg, parts[i])
    ensures AllPlanned(cfg, Flat(parts))
  {
    if parts != [] {
      var n := |parts| - 1;
      PlannedFlat(cfg, parts[..n]);
      PlannedConcat(cfg, Flat(parts[..n]), parts[n]);
    }
  }

  lemma DevicesPlanned(cfg: Config, at: Place)
    requires IsPlace(cfg, at)
    ensures AllPlanned(cfg, AllDevices(at))
  {
    var copies, parts := Devices(at.def.devices), DeviceParts(at);
    forall d | 0 <= d < |parts| ensures AllPlanned(cfg, parts[d]) {
      assert Planned(cfg, DeviceCall(at, copies[d], d)) && Planned(cfg, AssignCall(at, copies[d], d));
    }
    PlannedFlat(cfg, parts);
  }

  lemma PlannedConcat(cfg: Config, a: seq<Call>, b: seq<Call>)
    requires AllPlanned(cfg, a) && AllPlanned(cfg, b)
    ensures AllPlanned(cfg, a + b)
  {
    forall i | 0 <= i < |a + b| ensures Planned(cfg, (a + b)[i]) {
      assert (a + b)[i] == if i < |a| then a[i] else b[i - |a|];
    }
  }

  lemma ScheduleCallsPlanned(cfg: Config, at: Place, s: ScheduleDef)
    requires IsPlace(cfg, at) && at.def.schedule == Some(s)
    ensures AllPlanned(cfg, ScheduleCalls(at, s))
  {
    var first, last := EnsureSchedule(Email(at), RoomName(at), s.name), ActivateSchedule(Email(at), RoomName(at), s.name);
    assert Planned(cfg, last);
    var mid := Map(s.periods, PeriodCall(at, s));
    forall i | 0 <= i < |mid| ensures Planned(cfg, mid[i]) { assert s.periods[i] in s.periods; }
    assert AllPlanned(cfg, [first]) && AllPlanned(cfg, mid) && AllPlanned(cfg, [last]);
    PlannedConcat(cfg, mid, [last]);
    PlannedConcat(cfg, [first], mid + [last]);
  }

  lemma RoomCallsPlanned(cfg: Config, at: Place)
    requires IsPlace(cfg, at)
    ensures AllPlanned(cfg, RoomCalls(at))
  {
    var first := EnsureRoom(Email(at), RoomName(at));
    assert AllPlanned(cfg, [first]);
    DevicesPlanned(cfg, at);
    if at.def.desired.Some? { assert Planned(cfg, SetDesired(Email(at), RoomName(at), at.def.desired.value)); }
    if at.def.schedule.Some? { ScheduleCallsPlanned(cfg, at, at.def.schedule.value); }
    PlannedConcat(cfg, DesiredCalls(at), OptionalSchedule(at));
    PlannedConcat(cfg, AllDevices(at), ControlCalls(at));
    PlannedConcat(cfg, [first], FurnishCalls(at));
  }

  lemma UserCallsPlanned(cfg: Config, u: nat)
    requires u < |Users(cfg.groups)|
    ensures AllPlanned(cfg, UserCalls(cfg, u, Users(cfg.groups)[u]))
  {
    var rooms, first := Users(cfg.groups)[u], EnsureUser(EmailOf(cfg.sim, u, cfg.domain));
    forall r | 0 <= r < |rooms| ensures AllPlanned(cfg, RoomParts(cfg, u, rooms)[r]) {
      RoomCallsPlanned(cfg, PlaceOf(cfg, u, rooms, r));
    }
    PlannedFlat(cfg, RoomParts(cfg, u, rooms));
    assert AllPlanned(cfg, [first]);
    PlannedConcat(cfg, [first], RoomsCalls(cfg, u, rooms));
  }

  lemma WholePlanned(cfg: Config)
    ensures AllPlanned(cfg, Whole(cfg))
  {
    forall u | 0 <= u < |UserParts(cfg)| ensures AllPlanned(cfg, UserParts(cfg)[u]) { UserCallsPlanned(cfg, u); }
    PlannedFlat(cfg, UserParts(cfg));
  }

  /** Places with the same email and room name are the same place. */
  lemma SamePlace(cfg: Config, a: Place, b: Place)
    requires IsPlace(cfg, a) && IsPlace(cfg, b) && Email(a) == Email(b) && RoomName(a) == RoomName(b)
    ensures a == b
  {
    EmailsDiffer(cfg.sim, cfg.domain, a.user, b.user);
    RoomNamesDiffer(a.def.prefix, a.room, b.def.prefix, b.room);
  }

  lemma AssignedOnce(cfg: Config, c: Call, c': Call)
    requires Planned(cfg, c) && Planned(cfg, c') && c.Assign? && c'.Assign? && c.hw == c'.hw
    ensures c == c'
  {
    var a: Place, d: nat :| IsPlace(cfg, a) && d < |Devices(a.def.devices)| && c == AssignCall(a, Devices(a.def.devices)[d], d);
    var b: Place, e: nat :| IsPlace(cfg, b) && e < |Devices(b.def.devices)| && c' == AssignCall(b, Devices(b.def.devices)[e], e);
    HwIdsDiffer(cfg.sim, a.user, a.room, d, cfg.sim, b.user, b.room, e);
    assert a == b;
  }

  lemma DesiredOnce(cfg: Config, c: Call, c': Call)
    requires Planned(cfg, c) && Planned(cfg, c') && c.SetDesired? && c'.SetDesired? && c.email == c'.email && c.room == c'.room
    ensures c == c'
  {
    var a: Place :| IsPlace(cfg, a) && c.email == Email(a) && c.room == RoomName(a) && a.def.desired == Some(c.targets);
    var b: Place :| IsPlace(cfg, b) && c'.email == Email(b) && c'.room == RoomName(b) && b.def.desired == Some(c'.targets);
    SamePlace(cfg, a, b);
  }

  lemma ActivatedOnce(cfg: Config, c: Call, c': Call)
    requires Planned(cfg, c) && Planned(cfg, c') && c.ActivateSchedule? && c'.ActivateSchedule?
    requires c.email == c'.email && c.room == c'.room
    ensures c == c'
  {
    var a: Place :| IsPlace(cfg, a) && c.email == Email(a) && c.room == RoomName(a)
      && a.def.schedule.Some? && a.def.schedule.value.name == c.schedule;
    var b: Place :| IsPlace(cfg, b) && c'.email == Email(b) && c'.room == RoomName(b)
      && b.def.schedule.Some? && b.def.schedule.value.name == c'.schedule;
    SamePlace(cfg, a, b);
  }

  lemma PlannedCompatible(cfg: Config, c: Call, c': Call)
    requires Planned(cfg, c) && Planned(cfg, c')
    ensures Compatible(c, c')
  {
    if c.Assign? && c'.Assign? && c.hw == c'.hw { AssignedOnce(cfg, c, c'); }
    if c.SetDesired? && c'.SetDesired? && c.email == c'.email && c.room == c'.room { DesiredOnce(cfg, c, c'); }
    if c.ActivateSchedule? && c'.ActivateSchedule? && c.email == c'.email && c.room == c'.room { ActivatedOnce(cfg, c, c'); }
  }

  lemma PlanCompatible(cfg: Config)
    ensures CompatiblePlan(Whole(cfg))
  {
    var plan := Whole(cfg);
    WholePlanned(cfg);
    forall i, j | 0 <= i < |plan| && 0 <= j < |plan| ensures Compatible(plan[i], plan[j]) {
      PlannedCompatible(cfg, plan[i], plan[j]);
    }
  }

  /** Whatever the configuration: a run cut after any of its calls and done
      again ends as the uncut run does, and a complete run done again changes
      nothing. */
  lemma ProvisioningResumes(cfg: Config, db: Db, k: nat)
    requires Ready(db) && k <= |Whole(cfg)| && RunCalls(db, Whole(cfg)[..k]).Some?
    ensures RunCalls(RunCalls(db, Whole(cfg)[..k]).value, Whole(cfg)) == RunCalls(db, Whole(cfg))
  {
    PlanCompatible(cfg);
    Resumable(db, Whole(cfg), k);
  }
}
