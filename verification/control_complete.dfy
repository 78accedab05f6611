/** Every tick commands every actuator of the room, once, and logs what it
    commanded. */
module ControlComplete {
  import opened Base
  import opened Tables
  import opened Cache
  import opened Appdb
  import opened Control

  /** The actuators the database places in the room. */
  ghost predicate Installed(rows: RoomRows, hw: HwId, t: ActuatorType) {
    Known(t) && hw in WithActuator(rows.fixtures, t)
  }

  lemma ListedOnce(c: RoomConfig, r: Id, rows: RoomRows, hw: HwId, t: ActuatorType)
    requires Describes(c, r, rows)
    ensures multiset(HwIds(c, t))[hw] == if Installed(rows, hw, t) then 1 else 0
  {
    if Known(t) {
      DistinctCount(HwIds(c, t), hw);
    }
  }

  /** For an entry built from the room's rows, in either mode: each installed
      actuator gets exactly one command, nothing else gets any. */
  lemma CompleteCommandSet(commands: seq<Command>, v: View, now: Now, stale: int, r: Id, rows: RoomRows)
    requires Describes(v.config, r, rows) && CommandsMatch(commands, v, now, stale)
    ensures forall hw, t ::
      Sent(commands, hw, t, true) + Sent(commands, hw, t, false) == if Installed(rows, hw, t) then 1 else 0
    ensures forall i :: 0 <= i < |commands| ==> commands[i].state == Commanded(v, now, stale, commands[i].kind)
  {
    forall hw, t
      ensures Sent(commands, hw, t, true) + Sent(commands, hw, t, false) == if Installed(rows, hw, t) then 1 else 0
    {
      ListedOnce(v.config, r, rows, hw, t);
    }
    forall i | 0 <= i < |commands| ensures commands[i].state == Commanded(v, now, stale, commands[i].kind) {
      var c := commands[i];
      assert c in multiset(commands);
      assert Sent(commands, c.hwId, c.kind, c.state) > 0;
    }
  }

  /** The logged cmd field of a type is nil exactly when the room has no such
      actuator, and otherwise the state its actuators were commanded into. */
  lemma LogTellsTheCommands(commands: seq<Command>, v: View, now: Now, stale: int, r: Id, rows: RoomRows)
    requires Describes(v.config, r, rows) && CommandsMatch(commands, v, now, stale)
    ensures LogOf(v, now, stale).heaterCmd.None? <==> WithActuator(rows.fixtures, Heater) == {}
    ensures LogOf(v, now, stale).humidifierCmd.None? <==> WithActuator(rows.fixtures, Humidifier) == {}
    ensures forall i :: 0 <= i < |commands| && commands[i].kind == Heater ==>
      LogOf(v, now, stale).heaterCmd == Some(Bit(commands[i].state))
    ensures forall i :: 0 <= i < |commands| && commands[i].kind == Humidifier ==>
      LogOf(v, now, stale).humidifierCmd == Some(Bit(commands[i].state))
  {
    CompleteCommandSet(commands, v, now, stale, r, rows);
    PresentExactly(v.config, r, rows, Heater);
    PresentExactly(v.config, r, rows, Humidifier);
    forall i | 0 <= i < |commands| ensures commands[i].kind in v.config.actuators {
      var c := commands[i];
      assert Sent(commands, c.hwId, c.kind, c.state) > 0;
      assert multiset(HwIds(v.config, c.kind))[c.hwId] > 0;
    }
  }

  lemma PresentExactly(c: RoomConfig, r: Id, rows: RoomRows, t: ActuatorType)
    requires Describes(c, r, rows) && Known(t)
    ensures t in c.actuators <==> WithActuator(rows.fixtures, t) != {}
  {
    if t in c.actuators { assert HwIds(c, t)[0] in WithActuator(rows.fixtures, t); }
    if WithActuator(rows.fixtures, t) != {} {
      var hw :| hw in WithActuator(rows.fixtures, t);
      assert hw in HwIds(c, t);
    }
  }

  /** A room without a target or without fresh readings is commanded off, never
      left as it was. */
  lemma NoTargetOrReadingMeansOff(v: View, now: Now, stale: int, t: ActuatorType)
    requires Known(t)
    requires var es := Resolve(v.config, v.last, now);
      (t == Heater && (es.targets.temp.None? || forall x :: x in ReadingsIn(v.readings, Temperature) ==> !IsFresh(x, now.instant, stale)))
      || (t == Humidifier && (es.targets.hum.None? || forall x :: x in ReadingsIn(v.readings, Humidity) ==> !IsFresh(x, now.instant, stale)))
    ensures !Commanded(v, now, stale, t)
  {
    var k := if t == Heater then Temperature else Humidity;
    var rs := ReadingsIn(v.readings, k);
    if forall x :: x in rs ==> !IsFresh(x, now.instant, stale) {
      FilterNone(rs, x => IsFresh(x, now.instant, stale));
    }
  }
}
