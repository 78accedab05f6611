/** The stream consumer on the heap: dispatch and its handlers against the
    store and the scheduler. */
module Consuming {
  import opened Base
  import opened Tables
  import opened Api
  import opened Cache
  import opened Appdb
  import opened Loading
  import opened Scheduling
  import opened Stream
  import Loops
  import DeviceSync
  import opened Wire

  /** What one dispatch finds outside: the tables, the loadable timezones,
      whether the database answers, and whether the XACK goes through. */
  datatype World = World(db: Db, zones: set<string>, dbOk: bool, ackOk: bool)

  predicate CanReload(w: World, r: Id) { w.dbOk && CanLoad(w.db, r, w.zones) }

  /** The handler returns no error, so the entry is acknowledged. */
  predicate Handled(e: Event, w: World) {
    match e
    case NoEventField => true
    case UnknownEvent => true
    case NoHwId => false
    case BadRoomId => false
    case RoomDeleted(_) => true
    case _ => CanReload(w, e.room)
  }

  /** The store's room entries say what the abstract cache says. */
  ghost predicate Agrees(rooms: map<Id, RoomCache>, cache: map<Id, Content>) {
    rooms.Keys == cache.Keys && forall r :: r in rooms ==> Holds(rooms[r].config, r, cache[r])
  }

  /** The abstract cache after an event is handled, or fails to be. */
  function Handle(cache: map<Id, Content>, e: Event, w: World): map<Id, Content> {
    match e
    case NoEventField => cache
    case UnknownEvent => cache
    case NoHwId => cache
    case BadRoomId => cache
    case RoomDeleted(r) => cache - {r}
    case _ => if CanReload(w, e.room) then Load(cache, e.room, Current(w.db, e.room)) else cache
  }

  /** The rooms with live loops after an event. */
  function HandleLoops(active: set<Id>, e: Event, w: World): set<Id> {
    if e.RoomDeleted? then active - {e.room}
    else if e.RoomCreated? && CanReload(w, e.room) then active + {e.room}
    else active
  }

  /** What the store's entry of a device says. */
  function DeviceSays(devices: map<HwId, DeviceCache>, hw: HwId): Option<DeviceSync.DeviceEntry> {
    if hw in devices then
      var dc := devices[hw];
      Some(DeviceSync.DeviceEntry(dc.deviceId, dc.room, dc.sensors, dc.actuators))
    else None
  }

  /** The device whose entry the event reloads. */
  function Reloads(e: Event, w: World): Option<HwId> {
    if w.dbOk && (e.DeviceAssigned? || e.DeviceUnassigned?) then Some(e.hwId) else None
  }

  /** Exactly that device's entry is the row's afterwards, even when the room's
      reload then fails. */
  ghost predicate DevicesHandled(before: map<HwId, DeviceCache>, after: map<HwId, DeviceCache>, db: Db, reloaded: Option<HwId>) {
    forall hw :: DeviceSays(after, hw) == if reloaded == Some(hw) then DeviceSync.Found(db, hw) else DeviceSays(before, hw)
  }

  /** It is what the protocol's dispatch and install steps do. */
  lemma StreamHandles(s: System, w: World)
    requires WellFormed(s) && s.batch != [] && s.work.Idle? && w.db == s.db
    requires s.batch[0] in s.batch
    ensures var e := s.stream[s.batch[0]];
      var ok := Foreign(e) || CanReload(w, e.room);
      && DoInstall(DoDispatch(s, ok)).cache == Handle(s.cache, e, w)
      && (DoInstall(DoDispatch(s, ok)).work.Acking? <==> Handled(e, w))
  {
  }

  /** And to the rooms with loops. */
  lemma LoopsHandle(h: Loops.Host, w: World)
    requires WellFormed(h.s) && w.db == h.s.db && NextEntry(h.s).Some?
    ensures var e := NextEntry(h.s).value;
      var mid := Loops.Advance(h, Dispatch(Foreign(e) || CanReload(w, e.room)));
      WellFormed(mid.s) && Loops.Advance(mid, Install).active == HandleLoops(h.active, e, w)
  {
    NextWellFormed(h.s, Dispatch(Foreign(NextEntry(h.s).value) || CanReload(w, NextEntry(h.s).value.room)));
  }

  class Consumer {
    const store: Store
    const sched: Scheduler
    /** The server's pending-entries list of this consumer. */
    var pel: set<nat>
    ghost var dispatched: seq<nat>

    ghost predicate Valid()
      reads this, sched, sched.started
    {
      sched.Valid()
    }

    constructor (st: Store, sc: Scheduler, pending: set<nat>)
      requires sc.Valid()
      ensures store == st && sched == sc && pel == pending && dispatched == [] && Valid()
    {
      store, sched, pel, dispatched := st, sc, pending, [];
    }

    method ReloadRoomOrFail(w: World, r: Id, ghost cache: map<Id, Content>) returns (ok: bool)
      requires UniqueBy(w.db.devices, HwKey) && Agrees(store.rooms, cache)
      modifies store`rooms
      ensures ok == CanReload(w, r)
      ensures Agrees(store.rooms, if ok then Load(cache, r, Current(w.db, r)) else cache)
    {
      if !w.dbOk { return false; }
      ok := ReloadRoom(w.db, w.zones, store, r);
    }

    method OnRoomCreated(w: World, r: Id, ghost cache: map<Id, Content>) returns (ok: bool)
      requires Valid() && UniqueBy(w.db.devices, HwKey) && Agrees(store.rooms, cache)
      modifies store`rooms, sched, set c | c in sched.started
      ensures Valid() && ok == CanReload(w, r)
      ensures Agrees(store.rooms, if ok then Load(cache, r, Current(w.db, r)) else cache)
      ensures sched.activeRooms.Keys == old(sched.activeRooms.Keys) + if ok then {r} else {}
      ensures forall c :: c in sched.started ==> c in old(sched.started) || fresh(c)
    {
      ok := ReloadRoomOrFail(w, r, cache);
      if !ok { return; }
      ghost var before := sched.started;
      sched.AddRoom(r);
      assert sched.started == before + [sched.started[|before|]];
    }

    method OnRoomDeleted(r: Id, ghost cache: map<Id, Content>)
      requires Valid() && Agrees(store.rooms, cache)
      modifies store`rooms, sched, set c | c in sched.started
      ensures Valid() && Agrees(store.rooms, cache - {r})
      ensures sched.activeRooms.Keys == old(sched.activeRooms.Keys) - {r} && sched.started == old(sched.started)
    {
      sched.RemoveRoom(r);
      store.DeleteRoom(r);
    }

    method ReloadOneDevice(db: Db, hw: HwId)
      requires UniqueBy(db.devices, HwKey)
      modifies store`devices
      ensures DevicesHandled(old(store.devices), store.devices, db, Some(hw))
    {
      ghost var before := store.devices;
      ReloadDevice(db, store, hw);
      if d :| DeviceSync.Has(db, d, hw) {
        DeviceSync.FoundIs(db, d, hw);
        assert DescribesDevice(store.devices[hw], db, d);
      } else {
        assert forall d :: d in db.devices ==> !DeviceSync.Has(db, d, hw);
      }
    }

    method OnDeviceChanged(w: World, hw: HwId, r: Id, ghost cache: map<Id, Content>) returns (ok: bool)
      requires UniqueBy(w.db.devices, HwKey) && Agrees(store.rooms, cache)
      modifies store
      ensures ok == CanReload(w, r)
      ensures Agrees(store.rooms, if ok then Load(cache, r, Current(w.db, r)) else cache)
      ensures DevicesHandled(old(store.devices), store.devices, w.db, if w.dbOk then Some(hw) else None)
    {
      if !w.dbOk { return false; }
      ReloadOneDevice(w.db, hw);
      ok := ReloadRoomOrFail(w, r, cache);
    }

    /** dispatch: read the entry's fields, route, and acknowledge unless the
        handler failed. */
    method Dispatch(i: nat, f: Fields, parse: Parser, w: World, ghost cache: map<Id, Content>)
      requires Valid() && UniqueBy(w.db.devices, HwKey) && Agrees(store.rooms, cache)
      modifies this, store, sched, set c | c in sched.started
      ensures Valid() && Agrees(store.rooms, Handle(cache, Decode(f, parse), w))
      ensures DevicesHandled(old(store.devices), store.devices, w.db, Reloads(Decode(f, parse), w))
      ensures pel == if Handled(Decode(f, parse), w) && w.ackOk then old(pel) - {i} else old(pel)
      ensures sched.activeRooms.Keys == HandleLoops(old(sched.activeRooms.Keys), Decode(f, parse), w)
      ensures forall c :: c in sched.started ==> c in old(sched.started) || fresh(c)
      ensures dispatched == old(dispatched) + [i]
    {
      Route(i, Decode(f, parse), w, cache);
    }

    method Route(i: nat, e: Event, w: World, ghost cache: map<Id, Content>)
      requires Valid() && UniqueBy(w.db.devices, HwKey) && Agrees(store.rooms, cache)
      modifies this, store, sched, set c | c in sched.started
      ensures Valid() && Agrees(store.rooms, Handle(cache, e, w))
      ensures DevicesHandled(old(store.devices), store.devices, w.db, Reloads(e, w))
      ensures pel == if Handled(e, w) && w.ackOk then old(pel) - {i} else old(pel)
      ensures sched.activeRooms.Keys == HandleLoops(old(sched.activeRooms.Keys), e, w)
      ensures forall c :: c in sched.started ==> c in old(sched.started) || fresh(c)
      ensures dispatched == old(dispatched) + [i]
    {
      dispatched := dispatched + [i];
      var ok := HandleEvent(e, w, cache);
      if ok && w.ackOk { pel := pel - {i}; }
    }

    method HandleEvent(e: Event, w: World, ghost cache: map<Id, Content>) returns (ok: bool)
      requires Valid() && UniqueBy(w.db.devices, HwKey) && Agrees(store.rooms, cache)
      modifies store, sched, set c | c in sched.started
      ensures Valid() && ok == Handled(e, w) && Agrees(store.rooms, Handle(cache, e, w))
      ensures DevicesHandled(old(store.devices), store.devices, w.db, Reloads(e, w))
      ensures sched.activeRooms.Keys == HandleLoops(old(sched.activeRooms.Keys), e, w)
      ensures forall c :: c in sched.started ==> c in old(sched.started) || fresh(c)
    {
      match e
      case NoEventField | UnknownEvent => ok := true;
      case NoHwId | BadRoomId => ok := false;
      case RoomCreated(r) => ok := OnRoomCreated(w, r, cache);
      case RoomDeleted(r) =>
        OnRoomDeleted(r, cache);
        ok := true;
      case RoomConfigChanged(_) | DesiredStateChanged(_) | ScheduleChanged(_) => ok := ReloadRoomOrFail(w, e.room, cache);
      case DeviceAssigned(_, _) | DeviceUnassigned(_, _) => ok := OnDeviceChanged(w, e.hwId, e.room, cache);
    }
  }
}
