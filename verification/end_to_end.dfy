/** From an accepted request to a command: what the API's capability checks are
    worth to the controller. */
module EndToEnd {
  import opened Base
  import opened Tables
  import opened Api
  import opened ApiIntegrity
  import opened ApiCapability
  import opened Cache
  import opened Control
  import opened ControlRows
  import Appdb

  /** A device of this hardware id with such an actuator stands in the room. */
  ghost predicate Equipped(db: Db, r: Id, hw: HwId, t: ActuatorType) {
    exists d :: d in db.devices && db.devices[d].room == Some(r) && t in db.devices[d].actuators && db.devices[d].hwId == hw
  }

  /** A commanded state reaches every actuator of the type in the room. */
  lemma CommandReaches(db: Db, r: Id, v: View, commands: seq<Command>, now: Now, stale: int, t: ActuatorType, hw: HwId)
    requires RowsOf(db, r).Some? && Appdb.Describes(v.config, r, RowsOf(db, r).value)
    requires CommandsMatch(commands, v, now, stale) && Known(t) && Equipped(db, r, hw, t)
    ensures Command(hw, t, Commanded(v, now, stale, t)) in commands
  {
    EntryByRow(db, r, v.config);
    assert hw in HwIds(v.config, t);
    assert multiset(HwIds(v.config, t))[hw] > 0;
    assert Sent(commands, hw, t, Commanded(v, now, stale, t)) > 0;
    assert Command(hw, t, Commanded(v, now, stale, t)) in multiset(commands);
  }

  /** Under a manual override to AUTO with these targets, a fresh mean below the
      band switches on every actuator of its type in the room. */
  lemma ColdMeansOn(db: Db, r: Id, v: View, commands: seq<Command>, now: Now, stale: int)
    requires RowsOf(db, r).Some? && Appdb.Describes(v.config, r, RowsOf(db, r).value) && CommandsMatch(commands, v, now, stale)
    requires r in db.desired && db.desired[r].manualActive && db.desired[r].mode == Auto
    requires db.desired[r].until.Some? && now.instant < db.desired[r].until.value
    ensures var target, mean := db.desired[r].targets.temp, AverageOf(v, Temperature, now, stale);
      target.Some? && mean.Some? && mean.value.mean < target.value - db.rooms[r].deadbandTemp ==>
        forall hw :: Equipped(db, r, hw, Heater) ==> Command(hw, Heater, true) in commands
    ensures var target, mean := db.desired[r].targets.hum, AverageOf(v, Humidity, now, stale);
      target.Some? && mean.Some? && mean.value.mean < target.value - db.rooms[r].deadbandHum ==>
        forall hw :: Equipped(db, r, hw, Humidifier) ==> Command(hw, Humidifier, true) in commands
  {
    EntryByRow(db, r, v.config);
    CommandedExactly(v, now, stale);
    forall hw, t | Known(t) && Equipped(db, r, hw, t) ensures Command(hw, t, Commanded(v, now, stale, t)) in commands {
      CommandReaches(db, r, v, commands, now, stale, t, hw);
    }
  }

  /** The room can measure and reach the target, and a fresh mean below the band
      switches on everything that reaches it. */
  ghost predicate Reached(
    db: Db, r: Id, m: Measure, t: ActuatorType, target: real, deadband: real, mean: Option<Average>, commands: seq<Command>)
  {
    && (exists d :: d in db.devices && db.devices[d].room == Some(r) && m in db.devices[d].sensors)
    && (exists hw :: Equipped(db, r, hw, t))
    && (mean.Some? && mean.value.mean < target - deadband ==>
          forall hw :: Equipped(db, r, hw, t) ==> Command(hw, t, true) in commands)
  }

  /** After any run of requests: a room under a manual override to AUTO has a
      target, and for each target a sensor to measure it and an actuator to
      reach it; a tick that measures too little switches every such actuator
      on. No run of accepted requests, moves and deletions of devices among
      them, leaves such a room cold for want of a heater. */
  lemma OverriddenRoomIsServed(ops: seq<Op>, r: Id, v: View, commands: seq<Command>, now: Now, stale: int)
    requires var db := Run(EMPTY_DB, ops);
      && RowsOf(db, r).Some? && Appdb.Describes(v.config, r, RowsOf(db, r).value) && CommandsMatch(commands, v, now, stale)
      && r in db.desired && db.desired[r].manualActive && db.desired[r].mode == Auto
      && db.desired[r].until.Some? && now.instant < db.desired[r].until.value
    ensures var db := Run(EMPTY_DB, ops);
      var t, room := db.desired[r].targets, db.rooms[r];
      && t != NO_TARGETS
      && (t.temp.Some? ==>
            Reached(db, r, Temperature, Heater, t.temp.value, room.deadbandTemp, AverageOf(v, Temperature, now, stale), commands))
      && (t.hum.Some? ==>
            Reached(db, r, Humidity, Humidifier, t.hum.value, room.deadbandHum, AverageOf(v, Humidity, now, stale), commands))
  {
    var db := Run(EMPTY_DB, ops);
    RunServed(EMPTY_DB, ops, {});
    assert DesiredServed(db, r);
    ColdMeansOn(db, r, v, commands, now, stale);
    if db.desired[r].targets.temp.Some? { var hw := SomeActuator(db, r, Temperature, Heater); }
    if db.desired[r].targets.hum.Some? { var hw := SomeActuator(db, r, Humidity, Humidifier); }
  }

  lemma SomeActuator(db: Db, r: Id, m: Measure, t: ActuatorType) returns (hw: HwId)
    requires HasCapability(db, r, m, t, None)
    ensures Equipped(db, r, hw, t)
  {
    var d :| d in db.devices && db.devices[d].room == Some(r) && t in db.devices[d].actuators;
    hw := db.devices[d].hwId;
  }
}
