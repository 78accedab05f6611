/** The control service's in-memory store. Configuration is fixed when a cache
    entry is built; the runtime maps are references, shared between the entry
    and those that replace it. */
module Cache {
  import opened Base
  import opened Tables

  datatype Reading = Reading(value: real, ts: int)

  datatype PeriodCache = PeriodCache(
    id: Id, days: set<int>, startMinutes: int, endMinutes: int, mode: Mode, targets: Targets)

  /** The fields of a cache entry derived from the database. */
  datatype RoomConfig = RoomConfig(
    roomId: Id, timezone: string, deadbandTemp: real, deadbandHum: real, desired: DesiredRow,
    periods: seq<PeriodCache>, actuators: map<ActuatorType, seq<HwId>>)

  /** The hardware ids listed under a type; a missing key reads as nil. */
  function HwIds(c: RoomConfig, t: ActuatorType): seq<HwId> {
    if t in c.actuators then c.actuators[t] else []
  }

  /** A Go map is a reference: two entries may hold the same one. */
  class ReadingMap {
    var m: map<Measure, seq<Reading>>
    constructor ()
      ensures m == map[]
    {
      m := map[];
    }
  }

  class StateMap {
    var m: map<ActuatorType, bool>
    constructor ()
      ensures m == map[]
    {
      m := map[];
    }
  }

  class RoomCache {
    const config: RoomConfig
    var states: StateMap
    var readings: ReadingMap
    var lastPeriod: Option<PeriodCache>

    /** A freshly built entry has runtime maps of its own. */
    constructor (c: RoomConfig)
      ensures config == c && lastPeriod == None
      ensures fresh(states) && fresh(readings) && states.m == map[] && readings.m == map[]
    {
      config := c;
      lastPeriod := None;
      states := new StateMap();
      readings := new ReadingMap();
    }
  }

  class DeviceCache {
    const deviceId: Id
    const hwId: HwId
    const sensors: set<Measure>
    const actuators: set<ActuatorType>
    const room: Option<Id>

    constructor (id: Id, hw: HwId, r: Option<Id>, ss: set<Measure>, as_: set<ActuatorType>)
      ensures deviceId == id && hwId == hw && room == r && sensors == ss && actuators == as_
    {
      deviceId, hwId, room, sensors, actuators := id, hw, r, ss, as_;
    }
  }

  class Store {
    var rooms: map<Id, RoomCache>
    var devices: map<HwId, DeviceCache>

    constructor ()
      ensures rooms == map[] && devices == map[]
    {
      rooms, devices := map[], map[];
    }

    method AddRoom(r: Id, rc: RoomCache)
      modifies this`rooms
      ensures rooms == old(rooms)[r := rc]
    {
      rooms := rooms[r := rc];
    }

    method DeleteRoom(r: Id)
      modifies this`rooms
      ensures rooms == old(rooms) - {r}
    {
      rooms := rooms - {r};
    }

    method AddDevice(hw: HwId, dc: DeviceCache)
      modifies this`devices
      ensures devices == old(devices)[hw := dc]
    {
      devices := devices[hw := dc];
    }

    method DeleteDevice(hw: HwId)
      modifies this`devices
      ensures devices == old(devices) - {hw}
    {
      devices := devices - {hw};
    }
  }
}
