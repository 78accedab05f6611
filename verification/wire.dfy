/** Stream entries as they travel: the fields the API writes, and the event the
    consumer makes of any entry. */
module Wire {
  import opened Base
  import opened Api
  import Tables

  /** The client library hands out a field's value as `any`. */
  datatype Value = Text(s: string) | NotText
  type Fields = map<string, Value>

  /** How a room id is read; several texts may stand for one id. */
  type Parser = string -> Option<Id>

  function ExtractString(f: Fields, key: string): Option<string> {
    if key in f && f[key].Text? then Some(f[key].s) else None
  }

  function ExtractRoomId(f: Fields, parse: Parser): Option<Id> {
    match ExtractString(f, "room_id")
    case None => None
    case Some(s) => parse(s)
  }

  datatype Kind = Created | Deleted | ConfigChanged | DesiredChanged | PeriodsChanged | Assigned | Unassigned

  function NameOf(k: Kind): string {
    match k
    case Created => "room_created"
    case Deleted => "room_deleted"
    case ConfigChanged => "room_config_changed"
    case DesiredChanged => "desired_state_changed"
    case PeriodsChanged => "schedule_changed"
    case Assigned => "device_assigned"
    case Unassigned => "device_unassigned"
  }

  predicate OfDevice(k: Kind) { k.Assigned? || k.Unassigned? }

  /** dispatch's switch. */
  function KindOf(name: string): Option<Kind> {
    if name == NameOf(Created) then Some(Created)
    else if name == NameOf(Deleted) then Some(Deleted)
    else if name == NameOf(ConfigChanged) then Some(ConfigChanged)
    else if name == NameOf(DesiredChanged) then Some(DesiredChanged)
    else if name == NameOf(PeriodsChanged) then Some(PeriodsChanged)
    else if name == NameOf(Assigned) then Some(Assigned)
    else if name == NameOf(Unassigned) then Some(Unassigned)
    else None
  }

  function RoomEvent(k: Kind, r: Id): Event
    requires !OfDevice(k)
  {
    match k
    case Created => RoomCreated(r)
    case Deleted => RoomDeleted(r)
    case ConfigChanged => RoomConfigChanged(r)
    case DesiredChanged => DesiredStateChanged(r)
    case PeriodsChanged => ScheduleChanged(r)
  }

  /** What the handler reads first: for device events hw_id, then room_id. */
  function Read(f: Fields, k: Kind, parse: Parser): Event {
    if OfDevice(k) then
      match ExtractString(f, "hw_id")
      case None => NoHwId
      case Some(hw) =>
        match ExtractRoomId(f, parse)
        case None => BadRoomId
        case Some(r) => if k.Assigned? then DeviceAssigned(r, hw) else DeviceUnassigned(r, hw)
    else
      match ExtractRoomId(f, parse)
      case None => BadRoomId
      case Some(r) => RoomEvent(k, r)
  }

  function Decode(f: Fields, parse: Parser): Event {
    match ExtractString(f, "event")
    case None => NoEventField
    case Some(name) =>
      match KindOf(name)
      case None => UnknownEvent
      case Some(k) => Read(f, k, parse)
  }

  /** The notify functions. */
  function Encode(e: Event, write: Id -> string): Fields
    requires !Foreign(e)
  {
    var k := KindOfEvent(e);
    var head := map["event" := Text(NameOf(k)), "room_id" := Text(write(e.room))];
    if OfDevice(k) then head["hw_id" := Text(e.hwId)] else head
  }

  function KindOfEvent(e: Event): Kind
    requires !Foreign(e)
  {
    match e
    case RoomCreated(_) => Created
    case RoomDeleted(_) => Deleted
    case RoomConfigChanged(_) => ConfigChanged
    case DesiredStateChanged(_) => DesiredChanged
    case ScheduleChanged(_) => PeriodsChanged
    case DeviceAssigned(_, _) => Assigned
    case DeviceUnassigned(_, _) => Unassigned
  }

  /** What the API announces is what the consumer hears, if ids are read back
      as they were written. */
  lemma EventsArrive(e: Event, write: Id -> string, parse: Parser)
    requires !Foreign(e) && parse(write(e.room)) == Some(e.room)
    ensures Decode(Encode(e, write), parse) == e
  {
  }

  /** An entry of a known event that its handler cannot read: the room id is
      missing or does not parse, or a device event names no device. */
  predicate Unreadable(f: Fields, parse: Parser) {
    var name := ExtractString(f, "event");
    && name.Some? && KindOf(name.value).Some?
    && (ExtractRoomId(f, parse).None? || (OfDevice(KindOf(name.value).value) && ExtractString(f, "hw_id").None?))
  }

  lemma MalformedExactly(f: Fields, parse: Parser)
    ensures Malformed(Decode(f, parse)) <==> Unreadable(f, parse)
  {
  }

  /** No event the API sends is unreadable, and none is skipped. */
  lemma SentIsReadable(db: Tables.Db, op: Op, write: Id -> string, parse: Parser)
    requires forall r: Id :: parse(write(r)) == Some(r)
    ensures forall e :: e in Apply(db, op).sent ==> !Foreign(e) && !Unreadable(Encode(e, write), parse)
  {
    forall e | e in Apply(db, op).sent ensures !Foreign(e) && !Unreadable(Encode(e, write), parse) {
      SentIsKnown(db, op, e);
      EventsArrive(e, write, parse);
      MalformedExactly(Encode(e, write), parse);
    }
  }

  lemma SentIsKnown(db: Tables.Db, op: Op, e: Event)
    requires e in Apply(db, op).sent
    ensures !Foreign(e)
  {
  }

  function Decoded(entries: seq<Fields>, parse: Parser): seq<Event> {
    Map(entries, (f: Fields) => Decode(f, parse))
  }

  lemma DecodedMalformed(entries: seq<Fields>, parse: Parser)
    ensures forall i :: 0 <= i < |entries| ==> (Malformed(Decoded(entries, parse)[i]) <==> Unreadable(entries[i], parse))
  {
    forall i | 0 <= i < |entries| ensures Malformed(Decoded(entries, parse)[i]) <==> Unreadable(entries[i], parse) {
      MalformedExactly(entries[i], parse);
    }
  }
}
