/** Device entries beside the protocol's steps: only device events and a restart
    reload them. */
module DeviceSync {
  import opened Base
  import opened Tables
  import opened Api
  import opened ApiIntegrity
  import opened Stream

  /** What a device's entry says. */
  datatype DeviceEntry = DeviceEntry(id: Id, room: Option<Id>, sensors: set<Measure>, actuators: set<ActuatorType>)

  predicate Has(db: Db, d: Id, hw: HwId) { d in db.devices && db.devices[d].hwId == hw }

  function RowEntry(db: Db, d: Id): DeviceEntry
    requires d in db.devices
  {
    var row := db.devices[d];
    DeviceEntry(d, row.room, row.sensors, row.actuators)
  }

  /** What ReloadDevice finds under a hardware id. */
  ghost function Found(db: Db, hw: HwId): Option<DeviceEntry> {
    if exists d :: Has(db, d, hw) then
      var d :| Has(db, d, hw);
      Some(RowEntry(db, d))
    else None
  }

  /** Telemetry goes by an entry only if it names a room. */
  function Routed(x: Option<DeviceEntry>): Option<DeviceEntry> {
    if x.Some? && x.value.room.Some? then x else None
  }

  lemma FoundIs(db: Db, d: Id, hw: HwId)
    requires UniqueBy(db.devices, HwKey) && Has(db, d, hw)
    ensures Found(db, hw) == Some(RowEntry(db, d))
  {
    forall e | Has(db, e, hw) ensures e == d { assert HwKey(db.devices[e]) == HwKey(db.devices[d]); }
  }

  /** The device is in a room. */
  predicate Placed(db: Db, d: Id, hw: HwId) { Has(db, d, hw) && db.devices[d].room.Some? }

  lemma RoutedIsPlaced(db: Db, hw: HwId)
    requires UniqueBy(db.devices, HwKey)
    ensures Routed(Found(db, hw)).Some? <==> exists d :: Placed(db, d, hw)
  {
    if d :| Has(db, d, hw) {
      FoundIs(db, d, hw);
      assert Placed(db, d, hw) <==> db.devices[d].room.Some?;
    }
    if d :| Placed(db, d, hw) { FoundIs(db, d, hw); }
  }

  lemma SameRouting(db: Db, db': Db, hw: HwId)
    requires UniqueBy(db.devices, HwKey) && UniqueBy(db'.devices, HwKey)
    requires forall d :: Placed(db, d, hw) ==> Placed(db', d, hw) && RowEntry(db', d) == RowEntry(db, d)
    requires forall d :: Placed(db', d, hw) ==> Placed(db, d, hw)
    ensures Routed(Found(db', hw)) == Routed(Found(db, hw))
  {
    RoutedIsPlaced(db, hw);
    RoutedIsPlaced(db', hw);
    if d :| Placed(db, d, hw) {
      FoundIs(db, d, hw);
      FoundIs(db', d, hw);
    }
  }

  // ---------------------------------------------------------------------
  // Which requests announce a device
  // ---------------------------------------------------------------------

  predicate Tells(e: Event, hw: HwId) { (e.DeviceAssigned? || e.DeviceUnassigned?) && e.hwId == hw }

  predicate Told(sent: seq<Event>, hw: HwId) { exists e :: e in sent && Tells(e, hw) }

  function PlacedIn(db: Db, rooms: set<Id>): set<HwId> {
    set d | d in db.devices && db.devices[d].room.Some? && db.devices[d].room.value in rooms :: db.devices[d].hwId
  }

  /** Devices that a request takes out of their rooms without a device event:
      deleting the device, its room or its owner. */
  function Displaced(db: Db, op: Op): set<HwId> {
    match op
    case OpDeleteDevice(d, _) => if d in db.devices && db.devices[d].room.Some? then {db.devices[d].hwId} else {}
    case OpDeleteRoom(r, _) => PlacedIn(db, {r})
    case OpDeleteUser(u) => PlacedIn(db, RoomsOf(db, u))
    case _ => {}
  }

  lemma UpdateTells(db: Db, d: Id, u: Id, name: string, room: Option<Id>, hw: HwId)
    requires UniqueBy(db.devices, HwKey) && UniqueBy(UpdateDevice(db, d, u, name, room).db.devices, HwKey)
    requires !Told(UpdateDevice(db, d, u, name, room).sent, hw)
    ensures Routed(Found(UpdateDevice(db, d, u, name, room).db, hw)) == Routed(Found(db, hw))
  {
    var e := UpdateDevice(db, d, u, name, room);
    if e.reply.Done? {
      var prev, id := db.devices[d].room, db.devices[d].hwId;
      if prev.Some? && room != prev { assert DeviceUnassigned(prev.value, id) in e.sent; }
      if room.Some? && room != prev { assert DeviceAssigned(room.value, id) in e.sent; }
      assert e.db.devices == db.devices[d := db.devices[d].(name := name, room := room)];
    }
    SameRouting(db, e.db, hw);
  }

  lemma CreateSilent(db: Db, op: Op, hw: HwId)
    requires op.OpCreateDevice? && IdsBelowNext(db) && UniqueBy(db.devices, HwKey) && UniqueBy(Apply(db, op).db.devices, HwKey)
    ensures Routed(Found(Apply(db, op).db, hw)) == Routed(Found(db, hw))
  {
    SameRouting(db, Apply(db, op).db, hw);
  }

  lemma DeletionRouting(db: Db, op: Op, hw: HwId)
    requires op.OpDeleteDevice? || op.OpDeleteRoom? || op.OpDeleteUser?
    requires References(db) && UniqueBy(db.devices, HwKey) && UniqueBy(Apply(db, op).db.devices, HwKey)
    requires hw !in Displaced(db, op)
    ensures Routed(Found(Apply(db, op).db, hw)) == Routed(Found(db, hw))
  {
    forall d | Placed(db, d, hw) ensures Placed(Apply(db, op).db, d, hw) && RowEntry(Apply(db, op).db, d) == RowEntry(db, d) {
      if op.OpDeleteUser? { assert db.devices[d].room.value !in RoomsOf(db, op.u); }
    }
    SameRouting(db, Apply(db, op).db, hw);
  }

  /** A request that changes where a device's telemetry goes tells of it, or is
      one of those three deletions. */
  lemma RoutingChangesAreTold(db: Db, op: Op, hw: HwId)
    requires IdsBelowNext(db) && References(db) && UniqueBy(db.devices, HwKey) && UniqueBy(db.devices, DeviceKey)
    requires Routed(Found(Apply(db, op).db, hw)) != Routed(Found(db, hw))
    ensures Told(Apply(db, op).sent, hw) || hw in Displaced(db, op)
  {
    KeepsUniqueDevices(db, op);
    if !Told(Apply(db, op).sent, hw) && hw !in Displaced(db, op) {
      if !WritesDevices(op) { DevicesUntouched(db, op); SameRouting(db, Apply(db, op).db, hw); }
      else if op.OpUpdateDevice? { UpdateTells(db, op.d, op.u, op.name, op.room, hw); }
      else if op.OpCreateDevice? { CreateSilent(db, op, hw); }
      else { DeletionRouting(db, op, hw); }
    }
  }

  /** No device of the id is left in a room. */
  lemma DisplacedGone(db: Db, op: Op, hw: HwId, d: Id)
    requires UniqueBy(db.devices, HwKey) && Apply(db, op).reply.Done? && Placed(db, d, hw)
    requires op.OpDeleteDevice? || op.OpDeleteRoom? || op.OpDeleteUser?
    requires op.OpDeleteDevice? ==> d == op.d
    requires op.OpDeleteRoom? ==> db.devices[d].room.value == op.r
    requires op.OpDeleteUser? ==> db.devices[d].room.value in RoomsOf(db, op.u)
    ensures forall e :: !Placed(Apply(db, op).db, e, hw)
  {
    forall e | e in db.devices && e != d ensures !Has(db, e, hw) {
      assert HwKey(db.devices[e]) != HwKey(db.devices[d]);
    }
  }

  /** And those three do change it, untold. */
  lemma DisplacedExactly(db: Db, op: Op, hw: HwId)
    requires UniqueBy(db.devices, HwKey) && UniqueBy(db.devices, DeviceKey)
    requires hw in Displaced(db, op) && Apply(db, op).reply.Done?
    ensures !Told(Apply(db, op).sent, hw)
    ensures Routed(Found(db, hw)).Some? && Routed(Found(Apply(db, op).db, hw)) == None
  {
    KeepsUniqueDevices(db, op);
    var d :| Placed(db, d, hw)
      && (op.OpDeleteDevice? ==> d == op.d)
      && (op.OpDeleteRoom? ==> db.devices[d].room.value == op.r)
      && (op.OpDeleteUser? ==> db.devices[d].room.value in RoomsOf(db, op.u));
    RoutedIsPlaced(db, hw);
    RoutedIsPlaced(Apply(db, op).db, hw);
    DisplacedGone(db, op, hw, d);
  }

  // ---------------------------------------------------------------------
  // The devices beside the protocol
  // ---------------------------------------------------------------------

  /** `devices` are the store's; `held` is the entry ReloadDevice has built for
      the device event at hand but not installed. `adrift` is not part of the
      program: devices displaced untold, and not reloaded since. */
  datatype Host = Host(
    s: System, devices: map<HwId, DeviceEntry>, held: Option<(HwId, Option<DeviceEntry>)>, adrift: set<HwId>)

  const BOOT := Host(START, map[], None, {})

  /** For a device event the device is read first; dispatch then installs it
      and goes on to the room. */
  datatype HostStep = ReadDevice | Of(step: Step)

  /** The device the next entry is about. */
  function NextDevice(s: System): Option<HwId>
    requires WellFormed(s)
  {
    match NextEntry(s)
    case Some(DeviceAssigned(_, hw)) => Some(hw)
    case Some(DeviceUnassigned(_, hw)) => Some(hw)
    case _ => None
  }

  function Lookup(devices: map<HwId, DeviceEntry>, hw: HwId): Option<DeviceEntry> {
    if hw in devices then Some(devices[hw]) else None
  }

  function Put(devices: map<HwId, DeviceEntry>, hw: HwId, x: Option<DeviceEntry>): map<HwId, DeviceEntry> {
    if x.Some? then devices[hw := x.value] else devices - {hw}
  }

  /** WarmCache: the devices that are in a room. */
  ghost function WarmDevices(db: Db): map<HwId, DeviceEntry> {
    map hw | hw in PlacedIn(db, db.rooms.Keys) && Found(db, hw).Some? :: Found(db, hw).value
  }

  /** Without a device read, only a failed dispatch takes a device event. */
  ghost function Dispatched(h: Host, ok: bool): Host
    requires WellFormed(h.s)
  {
    if NextDevice(h.s).Some? && h.held.None? && ok then h
    else
      h.(s := DoDispatch(h.s, ok), held := None,
         devices := if h.held.Some? then Put(h.devices, h.held.value.0, h.held.value.1) else h.devices)
  }

  ghost function Advance(h: Host, x: HostStep): Host
    requires WellFormed(h.s)
  {
    match x
    case ReadDevice =>
      (match NextDevice(h.s)
       case Some(hw) => h.(held := Some((hw, Found(h.s.db, hw))), adrift := h.adrift - {hw})
       case None => h)
    case Of(Dispatch(ok)) => Dispatched(h, ok)
    case Of(Restart) => Host(Next(h.s, Restart), WarmDevices(h.s.db), None, {})
    case Of(Call(op)) =>
      h.(s := Next(h.s, Call(op)),
         adrift := if Apply(h.s.db, op).reply.Done? then h.adrift + Displaced(h.s.db, op) else h.adrift)
    case Of(step) => h.(s := Next(h.s, step))
  }

  lemma AdvanceWellFormed(h: Host, x: HostStep)
    requires WellFormed(h.s)
    ensures WellFormed(Advance(h, x).s)
  {
    if x.Of? { NextWellFormed(h.s, x.step); }
  }

  ghost function Run(h: Host, steps: seq<HostStep>): Host
    requires WellFormed(h.s)
    decreases |steps|
  {
    if steps == [] then h
    else
      AdvanceWellFormed(h, steps[0]);
      Run(Advance(h, steps[0]), steps[1..])
  }

  /** What the entry will say once what is held is installed. */
  function Arriving(h: Host, hw: HwId): Option<DeviceEntry> {
    if h.held.Some? && h.held.value.0 == hw then h.held.value.1 else Lookup(h.devices, hw)
  }

  ghost predicate RightlyRouted(h: Host, hw: HwId) { Routed(Lookup(h.devices, hw)) == Routed(Found(h.s.db, hw)) }

  /** The stream entry whose device has been read. */
  function ReadFor(h: Host): Option<nat> {
    if h.held.Some? && h.s.batch != [] then Some(h.s.batch[0])
    else if h.s.work.Idle? then None
    else Some(h.s.work.i)
  }

  /** A device event naming the device is owed, unread or unacknowledged. */
  predicate ToldOf(s: System, hw: HwId, except: Option<nat>) {
    || (exists e :: e in s.owed && Tells(e, hw))
    || exists i :: 0 <= i < |s.stream| && Waiting(s, i) && Some(i) != except && Tells(s.stream[i], hw)
  }

  ghost predicate Tracked(h: Host, hw: HwId) {
    && (Routed(Arriving(h, hw)) != Routed(Found(h.s.db, hw)) ==> ToldOf(h.s, hw, ReadFor(h)) || hw in h.adrift)
    && (hw in h.adrift ==>
          ToldOf(h.s, hw, ReadFor(h)) || (Routed(Arriving(h, hw)).Some? && Routed(Found(h.s.db, hw)) == None))
  }

  ghost predicate HostInv(h: Host) {
    && Inv(h.s)
    && (h.held.Some? ==> NextDevice(h.s) == Some(h.held.value.0))
    && forall hw :: Tracked(h, hw)
  }

  /** Entries that tell of the device and wait keep waiting. */
  lemma ToldKept(s: System, s': System, hw: HwId, except: Option<nat>, except': Option<nat>)
    requires s.stream <= s'.stream
    requires forall e :: e in s.owed && Tells(e, hw) ==>
      e in s'.owed || (|s'.stream| > |s.stream| && s'.stream[|s.stream|] == e && Waiting(s', |s.stream|) && Some(|s.stream|) != except')
    requires forall i :: Waiting(s, i) && Tells(s.stream[i], hw) && Some(i) != except ==> Waiting(s', i) && Some(i) != except'
    ensures ToldOf(s, hw, except) ==> ToldOf(s', hw, except')
  {
    if e :| e in s.owed && Tells(e, hw) {
    } else if ToldOf(s, hw, except) {
      var i :| 0 <= i < |s.stream| && Waiting(s, i) && Some(i) != except && Tells(s.stream[i], hw);
      assert s'.stream[i] == s.stream[i];
    }
  }

  lemma CallTracked(h: Host, op: Op, hw: HwId)
    requires HostInv(h)
    ensures Tracked(Advance(h, Of(Call(op))), hw)
  {
    var s, h' := h.s, Advance(h, Of(Call(op)));
    var e := Apply(s.db, op);
    assert Tracked(h, hw);
    ToldKept(s, h'.s, hw, ReadFor(h), ReadFor(h'));
    if e.reply.Failed? {
      RefusedChangesNothing(s.db, op);
    } else if Told(e.sent, hw) {
      var x :| x in e.sent && Tells(x, hw);
      assert x in h'.s.owed;
    } else {
      if Routed(Found(e.db, hw)) != Routed(Found(s.db, hw)) { RoutingChangesAreTold(s.db, op, hw); }
      if hw in Displaced(s.db, op) { DisplacedExactly(s.db, op, hw); }
    }
  }

  lemma ReadTracked(h: Host, hw: HwId)
    requires HostInv(h) && NextDevice(h.s).Some?
    ensures Tracked(Advance(h, ReadDevice), hw)
  {
    var h' := Advance(h, ReadDevice);
    assert Tracked(h, hw);
    assert h.s.batch[0] in h.s.batch;
    if hw != NextDevice(h.s).value { ToldKept(h.s, h'.s, hw, ReadFor(h), ReadFor(h')); }
  }

  lemma DispatchKept(h: Host, ok: bool, hw: HwId)
    requires HostInv(h) && NextEntry(h.s).Some?
    ensures ToldOf(h.s, hw, ReadFor(h)) ==> ToldOf(Dispatched(h, ok).s, hw, ReadFor(Dispatched(h, ok)))
  {
    var s, h' := h.s, Dispatched(h, ok);
    var i := s.batch[0];
    assert i in s.batch && s.stream[i] == NextEntry(s).value;
    if h' != h {
      DispatchShape(s, ok);
      ToldKept(s, h'.s, hw, ReadFor(h), ReadFor(h'));
    }
  }

  lemma DispatchTracked(h: Host, ok: bool, hw: HwId)
    requires HostInv(h) && NextEntry(h.s).Some?
    ensures Tracked(Advance(h, Of(Dispatch(ok))), hw)
  {
    var h' := Dispatched(h, ok);
    assert Tracked(h, hw);
    DispatchKept(h, ok, hw);
    assert h.s.batch[0] in h.s.batch;
    DispatchShape(h.s, ok);
    assert h'.s.db == h.s.db && Arriving(h', hw) == Arriving(h, hw);
  }

  /** Steps that leave tables and devices alone. */
  predicate Neutral(step: Step) { !step.Call? && !step.Dispatch? && !step.Restart? }

  lemma ReadForBelow(h: Host)
    requires HostInv(h)
    ensures ReadFor(h).Some? ==> ReadFor(h).value < |h.s.stream|
  {
    if h.s.batch != [] { assert h.s.batch[0] in h.s.batch; }
  }

  lemma AppendTracked(h: Host, e: Event, hw: HwId)
    requires HostInv(h)
    ensures Tracked(Advance(h, Of(Append(e))), hw)
  {
    var h' := Advance(h, Of(Append(e)));
    assert Tracked(h, hw);
    ReadForBelow(h);
    assert h'.s == DoAppend(h.s, e) && ReadFor(h') == ReadFor(h);
    ToldKept(h.s, h'.s, hw, ReadFor(h), ReadFor(h'));
  }

  lemma InjectTracked(h: Host, e: Event, hw: HwId)
    requires HostInv(h)
    ensures Tracked(Advance(h, Of(Inject(e))), hw)
  {
    var h' := Advance(h, Of(Inject(e)));
    assert Tracked(h, hw);
    ReadForBelow(h);
    assert h'.s == DoInject(h.s, e) && ReadFor(h') == ReadFor(h);
    ToldKept(h.s, h'.s, hw, ReadFor(h), ReadFor(h'));
  }

  lemma ReadNewTracked(h: Host, n: nat, hw: HwId)
    requires HostInv(h)
    ensures Tracked(Advance(h, Of(ReadNew(n))), hw)
  {
    var s, h' := h.s, Advance(h, Of(ReadNew(n)));
    assert Tracked(h, hw);
    forall i | s.read <= i < s.read + n ensures i in Range(s.read, n) { assert Range(s.read, n)[i - s.read] == i; }
    ToldKept(s, h'.s, hw, ReadFor(h), ReadFor(h'));
  }

  lemma AcknowledgeTracked(h: Host, ok: bool, hw: HwId)
    requires HostInv(h)
    ensures Tracked(Advance(h, Of(Acknowledge(ok))), hw)
  {
    var h' := Advance(h, Of(Acknowledge(ok)));
    assert Tracked(h, hw);
    ToldKept(h.s, h'.s, hw, ReadFor(h), ReadFor(h'));
  }

  lemma QuietTracked(h: Host, step: Step, hw: HwId)
    requires HostInv(h) && Neutral(step) && !step.Append? && !step.Inject? && !step.ReadNew? && !step.Acknowledge?
    ensures Tracked(Advance(h, Of(step)), hw)
  {
    var s, h' := h.s, Advance(h, Of(step));
    assert Tracked(h, hw);
    assert h'.s.stream == s.stream && h'.s.owed == s.owed && h'.s.read == s.read && h'.s.pel == s.pel && h'.s.db == s.db;
    assert ReadFor(h') == ReadFor(h);
    ToldKept(s, h'.s, hw, ReadFor(h), ReadFor(h'));
  }

  lemma WarmRouting(db: Db, hw: HwId)
    requires UniqueBy(db.devices, HwKey) && DeviceRefs(db.devices, db.rooms, db.users)
    ensures Routed(Lookup(WarmDevices(db), hw)) == Routed(Found(db, hw))
  {
    RoutedIsPlaced(db, hw);
    if d :| Placed(db, d, hw) { FoundIs(db, d, hw); }
  }

  lemma RestartTracked(h: Host, hw: HwId)
    requires HostInv(h)
    ensures Tracked(Advance(h, Of(Restart)), hw)
  {
    WarmRouting(h.s.db, hw);
  }

  lemma StepTracked(h: Host, step: Step, hw: HwId)
    requires HostInv(h)
    ensures Tracked(Advance(h, Of(step)), hw)
  {
    assert Tracked(h, hw);
    match step
    case Call(op) => CallTracked(h, op, hw);
    case Append(e) => AppendTracked(h, e, hw);
    case Inject(e) => InjectTracked(h, e, hw);
    case ReadNew(n) => ReadNewTracked(h, n, hw);
    case Dispatch(ok) => if NextEntry(h.s).Some? { DispatchTracked(h, ok, hw); }
    case Acknowledge(ok) => AcknowledgeTracked(h, ok, hw);
    case Restart => RestartTracked(h, hw);
    case _ => QuietTracked(h, step, hw);
  }

  /** What is held is for the next entry. */
  lemma HeldForNext(h: Host, step: Step)
    requires HostInv(h)
    ensures var h' := Advance(h, Of(step)); WellFormed(h'.s) && (h'.held.Some? ==> NextDevice(h'.s) == Some(h'.held.value.0))
  {
    NextWellFormed(h.s, step);
    if h.held.Some? && !step.Restart? && !step.Dispatch? { StillNext(h.s, step); }
  }

  /** While an entry is next, only its dispatch and a restart take it away. */
  lemma StillNext(s: System, step: Step)
    requires WellFormed(s) && NextEntry(s).Some? && !step.Restart? && !step.Dispatch?
    ensures WellFormed(Next(s, step)) && NextEntry(Next(s, step)) == NextEntry(s)
  {
    NextWellFormed(s, step);
    assert s.batch[0] in s.batch;
    assert Next(s, step).batch == s.batch && Next(s, step).work == s.work && s.stream <= Next(s, step).stream;
  }

  lemma AdvanceKeeps(h: Host, x: HostStep)
    requires HostInv(h)
    ensures HostInv(Advance(h, x))
  {
    match x
    case ReadDevice =>
      if NextDevice(h.s).Some? { forall hw ensures Tracked(Advance(h, x), hw) { ReadTracked(h, hw); } }
    case Of(step) =>
      NextKeepsInv(h.s, step);
      HeldForNext(h, step);
      forall hw ensures Tracked(Advance(h, x), hw) { StepTracked(h, step, hw); }
  }

  lemma {:induction false} RunKeeps(h: Host, steps: seq<HostStep>)
    requires HostInv(h)
    ensures HostInv(Run(h, steps))
    decreases |steps|
  {
    if steps != [] {
      AdvanceKeeps(h, steps[0]);
      RunKeeps(Advance(h, steps[0]), steps[1..]);
    }
  }

  lemma BootInv()
    ensures HostInv(BOOT)
  {
    forall hw ensures Tracked(BOOT, hw) { assert Found(EMPTY_DB, hw) == None; }
  }

  /** After every run: a device whose telemetry goes elsewhere than the tables
      say has a device event naming it owed, unread or unacknowledged, or was
      displaced untold. */
  lemma MisroutedImpliesPending(steps: seq<HostStep>, hw: HwId)
    ensures var h := Run(BOOT, steps); !RightlyRouted(h, hw) ==> ToldOf(h.s, hw, None) || hw in h.adrift
  {
    BootInv();
    RunKeeps(BOOT, steps);
    var h := Run(BOOT, steps);
    assert Tracked(h, hw);
    ToldKept(h.s, h.s, hw, ReadFor(h), None);
    HeldIsPending(h);
  }

  /** The event a device has been read for is unacknowledged. */
  lemma HeldIsPending(h: Host)
    requires HostInv(h)
    ensures h.held.Some? ==> h.s.pel != {} && ToldOf(h.s, h.held.value.0, None)
  {
    if h.held.Some? { NextIsTold(h.s, h.held.value.0); }
  }

  lemma NextIsTold(s: System, hw: HwId)
    requires Inv(s) && NextDevice(s) == Some(hw)
    ensures s.pel != {} && ToldOf(s, hw, None)
  {
    assert s.batch[0] in s.batch;
    assert Waiting(s, s.batch[0]) && Tells(s.stream[s.batch[0]], hw);
  }

  /** With nothing pending, exactly the devices displaced untold and not
      reloaded since are wrongly routed: they keep the room they had. */
  lemma DrainedRoutingExactly(steps: seq<HostStep>, hw: HwId)
    requires Drained(Run(BOOT, steps).s)
    ensures var h := Run(BOOT, steps);
      && (!RightlyRouted(h, hw) <==> hw in h.adrift)
      && (hw in h.adrift ==> Routed(Lookup(h.devices, hw)).Some? && Routed(Found(h.s.db, hw)) == None)
  {
    BootInv();
    RunKeeps(BOOT, steps);
    var h := Run(BOOT, steps);
    assert Tracked(h, hw);
    HeldIsPending(h);
    assert !ToldOf(h.s, hw, ReadFor(h));
  }

  // ---------------------------------------------------------------------
  // What nobody repairs
  // ---------------------------------------------------------------------

  /** With nothing pending about the device, a request that tells nothing of it
      leaves it wrongly routed exactly if it displaces it. */
  lemma UntoldExactly(h: Host, op: Op, hw: HwId)
    requires HostInv(h) && !ToldOf(h.s, hw, None) && hw !in h.adrift
    requires Apply(h.s.db, op).reply.Done? && !Told(Apply(h.s.db, op).sent, hw)
    ensures var h' := Advance(h, Of(Call(op)));
      && !ToldOf(h'.s, hw, None)
      && (!RightlyRouted(h', hw) <==> hw in Displaced(h.s.db, op))
  {
    var s, h' := h.s, Advance(h, Of(Call(op)));
    NoNewTold(s, h'.s, hw);
    AdvanceKeeps(h, Of(Call(op)));
    assert Tracked(h', hw);
    HeldIsPending(h');
    ToldKept(h'.s, h'.s, hw, ReadFor(h'), None);
  }

  /** Nothing is told of the device that was not. */
  lemma NoNewTold(s: System, s': System, hw: HwId)
    requires s.stream <= s'.stream && forall e :: e in s'.owed && Tells(e, hw) ==> e in s.owed
    requires forall i :: |s.stream| <= i < |s'.stream| && Tells(s'.stream[i], hw) ==> s'.stream[i] in s.owed
    requires forall i :: 0 <= i < |s.stream| && Waiting(s', i) ==> Waiting(s, i)
    ensures ToldOf(s', hw, None) ==> ToldOf(s, hw, None)
  {
    if e :| e in s'.owed && Tells(e, hw) {
    } else if ToldOf(s', hw, None) {
      var i :| 0 <= i < |s'.stream| && Waiting(s', i) && Tells(s'.stream[i], hw);
      if i < |s.stream| { assert s.stream[i] == s'.stream[i]; }
    }
  }

  /** Not a restart, and not a request that tells of the device. */
  predicate LeavesAlone(s: System, x: HostStep, hw: HwId) {
    x.Of? ==> !x.step.Restart? && (x.step.Call? ==> !Told(Apply(s.db, x.step.op).sent, hw))
  }

  lemma StepNoNewTold(s: System, step: Step, hw: HwId)
    requires WellFormed(s) && LeavesAlone(s, Of(step), hw)
    ensures ToldOf(Next(s, step), hw, None) ==> ToldOf(s, hw, None)
  {
    if step.Dispatch? { DispatchNoNewTold(s, step.ok, hw); }
    else if step.ReadNew? { ReadNoNewTold(s, step.n, hw); }
    else if step.Append? { NoNewTold(s, DoAppend(s, step.e), hw); }
    else if step.Inject? { NoNewTold(s, DoInject(s, step.e), hw); }
    else if step.Call? { NoNewTold(s, Next(s, step), hw); }
    else { QuietNoNewTold(s, step, hw); }
  }

  lemma QuietNoNewTold(s: System, step: Step, hw: HwId)
    requires WellFormed(s) && Neutral(step) && !step.Append? && !step.Inject? && !step.ReadNew?
    ensures ToldOf(Next(s, step), hw, None) ==> ToldOf(s, hw, None)
  {
    var s' := Next(s, step);
    assert s'.stream == s.stream && s'.owed == s.owed && s'.read == s.read && s'.pel <= s.pel;
    NoNewTold(s, s', hw);
  }

  lemma ReadNoNewTold(s: System, n: nat, hw: HwId)
    requires WellFormed(s)
    ensures ToldOf(DoReadNew(s, n), hw, None) ==> ToldOf(s, hw, None)
  {
    assert forall i :: i in Range(s.read, n) ==> i >= s.read;
    NoNewTold(s, DoReadNew(s, n), hw);
  }

  lemma DispatchNoNewTold(s: System, ok: bool, hw: HwId)
    requires WellFormed(s)
    ensures ToldOf(DoDispatch(s, ok), hw, None) ==> ToldOf(s, hw, None)
  {
    if NextEntry(s).Some? {
      assert s.batch[0] in s.batch;
      DispatchShape(s, ok);
      NoNewTold(s, DoDispatch(s, ok), hw);
    }
  }

  lemma AdriftStep(h: Host, x: HostStep, hw: HwId)
    requires HostInv(h) && hw in h.adrift && !ToldOf(h.s, hw, None) && LeavesAlone(h.s, x, hw)
    ensures hw in Advance(h, x).adrift && !ToldOf(Advance(h, x).s, hw, None)
  {
    match x
    case ReadDevice =>
      if NextDevice(h.s) == Some(hw) { NextIsTold(h.s, hw); }
    case Of(step) => StepNoNewTold(h.s, step, hw);
  }

  ghost predicate LeftAlone(h: Host, steps: seq<HostStep>, hw: HwId)
    requires WellFormed(h.s)
    decreases |steps|
  {
    steps == [] ||
    (AdvanceWellFormed(h, steps[0]); LeavesAlone(h.s, steps[0], hw) && LeftAlone(Advance(h, steps[0]), steps[1..], hw))
  }

  /** No refresh, and no event about its room, ever repairs such a device. */
  lemma {:induction false} AdriftStays(h: Host, steps: seq<HostStep>, hw: HwId)
    requires HostInv(h) && hw in h.adrift && !ToldOf(h.s, hw, None) && LeftAlone(h, steps, hw)
    ensures !RightlyRouted(Run(h, steps), hw)
    decreases |steps|
  {
    if steps == [] {
      assert Tracked(h, hw);
      HeldIsPending(h);
      ToldKept(h.s, h.s, hw, ReadFor(h), None);
    } else {
      AdriftStep(h, steps[0], hw);
      AdvanceKeeps(h, steps[0]);
      AdriftStays(Advance(h, steps[0]), steps[1..], hw);
    }
  }
}
