/** One control tick: the effective state, the averages, the commands and the
    log row. */
module Control {
  import opened Base
  import opened Tables
  import opened Cache

  // ---------------------------------------------------------------------
  // Effective state
  // ---------------------------------------------------------------------

  /** The instant of a tick with its weekday (1 = Monday) and minute of the day
      in the owner's timezone. */
  datatype Now = Now(instant: int, day: int, minute: int)

  datatype Source = ManualOverride | Schedule | GracePeriod | NoSource

  datatype Effective = Effective(mode: Mode, targets: Targets, source: Source, period: Option<PeriodCache>)

  predicate Matches(p: PeriodCache, now: Now) {
    now.day in p.days && p.startMinutes <= now.minute < p.endMinutes
  }

  function FirstMatch(periods: seq<PeriodCache>, now: Now): Option<PeriodCache> {
    if periods == [] then None
    else if Matches(periods[0], now) then Some(periods[0])
    else FirstMatch(periods[1..], now)
  }

  lemma {:induction false} FirstMatchFinds(periods: seq<PeriodCache>, now: Now)
    ensures FirstMatch(periods, now).Some? ==> FirstMatch(periods, now).value in periods && Matches(FirstMatch(periods, now).value, now)
    ensures FirstMatch(periods, now).None? ==> forall i :: 0 <= i < |periods| ==> !Matches(periods[i], now)
  {
    if periods != [] && !Matches(periods[0], now) {
      FirstMatchFinds(periods[1..], now);
      assert periods == [periods[0]] + periods[1..];
    }
  }

  predicate Overridden(d: DesiredRow, now: Now) {
    d.manualActive && d.until.Some? && d.until.value > now.instant
  }

  /** The minute right after the last period that was in force. */
  predicate InGrace(last: Option<PeriodCache>, now: Now) {
    last.Some? && now.day in last.value.days && now.minute == last.value.endMinutes
  }

  function Resolve(c: RoomConfig, last: Option<PeriodCache>, now: Now): Effective {
    if Overridden(c.desired, now) then Effective(c.desired.mode, c.desired.targets, ManualOverride, None)
    else
      match FirstMatch(c.periods, now)
      case Some(p) => Effective(p.mode, p.targets, Schedule, Some(p))
      case None =>
        if InGrace(last, now) then Effective(last.value.mode, last.value.targets, GracePeriod, last)
        else Effective(Off, NO_TARGETS, NoSource, None)
  }

  /** resolveEffectiveState, with its search loop. */
  method ResolveEffectiveState(c: RoomConfig, last: Option<PeriodCache>, now: Now) returns (es: Effective)
    ensures es == Resolve(c, last, now)
  {
    if c.desired.manualActive && c.desired.until.Some? {
      if c.desired.until.value > now.instant {
        return Effective(c.desired.mode, c.desired.targets, ManualOverride, None);
      }
    }
    for i := 0 to |c.periods|
      invariant FirstMatch(c.periods, now) == FirstMatch(c.periods[i..], now)
    {
      var p := c.periods[i];
      assert c.periods[i..][1..] == c.periods[i + 1..];
      if now.day !in p.days { continue; }
      if now.minute < p.startMinutes || now.minute >= p.endMinutes { continue; }
      return Effective(p.mode, p.targets, Schedule, Some(p));
    }
    if last.Some? {
      if now.day in last.value.days {
        var sinceEnd := now.minute - last.value.endMinutes;
        if sinceEnd >= 0 && sinceEnd < 1 {
          return Effective(last.value.mode, last.value.targets, GracePeriod, last);
        }
      }
    }
    return Effective(Off, NO_TARGETS, NoSource, None);
  }

  // ---------------------------------------------------------------------
  // Averages
  // ---------------------------------------------------------------------

  predicate IsFresh(r: Reading, now: int, threshold: int) { now - r.ts <= threshold }

  function Fresh(readings: seq<Reading>, now: int, threshold: int): seq<Reading> {
    Filter(readings, r => IsFresh(r, now, threshold))
  }

  function ValueOf(r: Reading): real { r.value }

  datatype Average = Average(mean: real, count: nat)

  function Mean(rs: seq<Reading>): Option<Average> {
    if rs == [] then None else Some(Average(Sum(Map(rs, ValueOf)) / (|rs| as real), |rs|))
  }

  function FreshMean(readings: seq<Reading>, now: int, threshold: int): Option<Average> {
    Mean(Fresh(readings, now, threshold))
  }

  method FreshAverage(readings: seq<Reading>, now: int, threshold: int) returns (a: Option<Average>)
    ensures a == FreshMean(readings, now, threshold)
  {
    var sum: real, count: nat := 0.0, 0;
    for i := 0 to |readings|
      invariant count == |Fresh(readings[..i], now, threshold)|
      invariant sum == Sum(Map(Fresh(readings[..i], now, threshold), ValueOf))
    {
      var r := readings[i];
      assert readings[..i + 1] == readings[..i] + [r];
      FilterConcat(readings[..i], [r], x => IsFresh(x, now, threshold));
      ghost var before := Fresh(readings[..i], now, threshold);
      if now - r.ts <= threshold {
        assert Fresh(readings[..i + 1], now, threshold) == before + [r];
        assert Map(before + [r], ValueOf) == Map(before, ValueOf) + [r.value];
        assert (Map(before, ValueOf) + [r.value])[..|before|] == Map(before, ValueOf);
        sum := sum + r.value;
        count := count + 1;
      } else {
        assert Fresh(readings[..i + 1], now, threshold) == before;
      }
    }
    assert readings[..|readings|] == readings;
    if count == 0 { return None; }
    return Some(Average(sum / (count as real), count));
  }

  // ---------------------------------------------------------------------
  // Decision per actuator type
  // ---------------------------------------------------------------------

  function BangBang(avg: real, target: real, deadband: real, current: bool): bool {
    if avg < target - deadband then true
    else if avg > target + deadband then false
    else current
  }

  function Decide(target: Option<real>, avg: Option<Average>, deadband: real, current: bool): bool {
    target.Some? && avg.Some? && BangBang(avg.value.mean, target.value, deadband, current)
  }

  function StateIn(m: map<ActuatorType, bool>, t: ActuatorType): bool { t in m && m[t] }
  function ReadingsIn(m: map<Measure, seq<Reading>>, k: Measure): seq<Reading> { if k in m then m[k] else [] }

  /** Everything a tick reads. */
  datatype View = View(
    config: RoomConfig, states: map<ActuatorType, bool>, readings: map<Measure, seq<Reading>>, last: Option<PeriodCache>)

  function AverageOf(v: View, k: Measure, now: Now, stale: int): Option<Average> {
    FreshMean(ReadingsIn(v.readings, k), now.instant, stale)
  }

  /** The state every actuator of type `t` is told to be in. */
  function Commanded(v: View, now: Now, stale: int, t: ActuatorType): bool {
    var es := Resolve(v.config, v.last, now);
    es.mode == Auto &&
    match t
    case Heater => Decide(es.targets.temp, AverageOf(v, Temperature, now, stale), v.config.deadbandTemp, StateIn(v.states, t))
    case Humidifier => Decide(es.targets.hum, AverageOf(v, Humidity, now, stale), v.config.deadbandHum, StateIn(v.states, t))
    case OtherActuator(_) => false
  }

  // ---------------------------------------------------------------------
  // The tick
  // ---------------------------------------------------------------------

  datatype Command = Command(hwId: HwId, kind: ActuatorType, state: bool)

  datatype LogEntry = LogEntry(
    room: Id, time: int, mode: Mode, source: Source, period: Option<Id>,
    temp: Option<Average>, hum: Option<Average>,
    targetTemp: Option<real>, targetHum: Option<real>, deadbandTemp: Option<real>, deadbandHum: Option<real>,
    heaterCmd: Option<int>, humidifierCmd: Option<int>)

  datatype TickResult = TickResult(commands: seq<Command>, log: LogEntry, lastPeriod: Option<PeriodCache>)

  function Bit(b: bool): int { if b then 1 else 0 }

  /** The log row of a tick. */
  function LogOf(v: View, now: Now, stale: int): LogEntry {
    var es := Resolve(v.config, v.last, now);
    LogEntry(
      v.config.roomId, now.instant, es.mode, es.source, if es.period.Some? then Some(es.period.value.id) else None,
      AverageOf(v, Temperature, now, stale), AverageOf(v, Humidity, now, stale),
      es.targets.temp, es.targets.hum,
      if es.targets.temp.Some? then Some(v.config.deadbandTemp) else None,
      if es.targets.hum.Some? then Some(v.config.deadbandHum) else None,
      if Heater in v.config.actuators then Some(Bit(Commanded(v, now, stale, Heater))) else None,
      if Humidifier in v.config.actuators then Some(Bit(Commanded(v, now, stale, Humidifier))) else None)
  }

  function NewLast(es: Effective): Option<PeriodCache> {
    if es.source == Schedule || es.source == GracePeriod then es.period else None
  }

  /** setCmd: a field that is nil stays nil. */
  function SetCmd(e: LogEntry, t: ActuatorType, v: int): LogEntry {
    match t
    case Heater => if e.heaterCmd.Some? then e.(heaterCmd := Some(v)) else e
    case Humidifier => if e.humidifierCmd.Some? then e.(humidifierCmd := Some(v)) else e
    case OtherActuator(_) => e
  }

  /** Each listed actuator of each type is commanded exactly as often as it is
      listed, in its type's state, and nothing else is. Under AUTO control only
      the known types are addressed. */
  ghost predicate CommandsMatch(commands: seq<Command>, v: View, now: Now, stale: int) {
    forall hw, t, s ::
      Sent(commands, hw, t, s) ==
      if s == Commanded(v, now, stale, t) && (Resolve(v.config, v.last, now).mode == Off || Known(t))
      then multiset(HwIds(v.config, t))[hw] else 0
  }

  /** How often `r` commands `hw`'s actuator of type `t` into state `s`. */
  function Sent(r: seq<Command>, hw: HwId, t: ActuatorType, s: bool): nat {
    multiset(r)[Command(hw, t, s)]
  }

  /** The append loop of both helpers: one more type's commands. */
  method AppendCommands(commands: seq<Command>, hwIds: seq<HwId>, t: ActuatorType, state: bool) returns (r: seq<Command>)
    ensures forall hw, u, s ::
      Sent(r, hw, u, s) == Sent(commands, hw, u, s) + if u == t && s == state then multiset(hwIds)[hw] else 0
  {
    r := commands;
    for i := 0 to |hwIds|
      invariant forall hw, u, s ::
        Sent(r, hw, u, s) == Sent(commands, hw, u, s) + if u == t && s == state then multiset(hwIds[..i])[hw] else 0
    {
      assert hwIds[..i + 1] == hwIds[..i] + [hwIds[i]];
      r := r + [Command(hwIds[i], t, state)];
    }
    assert hwIds[..|hwIds|] == hwIds;
  }

  /** commandAllOff: every type in the room, in map order, that is, any order. */
  method CommandAllOff(c: RoomConfig, entry: LogEntry) returns (commands: seq<Command>, log: LogEntry)
    ensures forall hw, t, s :: Sent(commands, hw, t, s) == if !s then multiset(HwIds(c, t))[hw] else 0
    ensures log == entry.(
      heaterCmd := if Heater in c.actuators && entry.heaterCmd.Some? then Some(0) else entry.heaterCmd,
      humidifierCmd := if Humidifier in c.actuators && entry.humidifierCmd.Some? then Some(0) else entry.humidifierCmd)
  {
    commands, log := [], entry;
    var todo := c.actuators.Keys;
    while todo != {}
      invariant todo <= c.actuators.Keys
      invariant forall hw, t, s ::
        Sent(commands, hw, t, s) == if !s && t !in todo then multiset(HwIds(c, t))[hw] else 0
      invariant log == entry.(
        heaterCmd := if Heater in c.actuators && Heater !in todo && entry.heaterCmd.Some? then Some(0) else entry.heaterCmd,
        humidifierCmd := if Humidifier in c.actuators && Humidifier !in todo && entry.humidifierCmd.Some? then Some(0)
                         else entry.humidifierCmd)
      decreases |todo|
    {
      var t :| t in todo;
      log := SetCmd(log, t, 0);
      commands := AppendCommands(commands, c.actuators[t], t, false);
      todo := todo - {t};
    }
  }

  /** evaluateOrOff for one actuator type. */
  method EvaluateOrOff(
    c: RoomConfig, t: ActuatorType, target: Option<real>, avg: Option<Average>, deadband: real, current: bool,
    entry: LogEntry, before: seq<Command>)
    returns (commands: seq<Command>, log: LogEntry)
    requires Known(t)
    ensures forall hw, u, s ::
      Sent(commands, hw, u, s) ==
      Sent(before, hw, u, s)
      + if u == t && s == Decide(target, avg, deadband, current) then multiset(HwIds(c, t))[hw] else 0
    ensures log == if t in c.actuators then SetCmd(entry, t, Bit(Decide(target, avg, deadband, current))) else entry
  {
    if t !in c.actuators { return before, entry; }
    if target.None? || avg.None? {
      log := SetCmd(entry, t, 0);
      commands := AppendCommands(before, c.actuators[t], t, false);
      return;
    }
    var desired: bool;
    if avg.value.mean < target.value - deadband {
      desired := true;
    } else if avg.value.mean > target.value + deadband {
      desired := false;
    } else {
      desired := current;
    }
    if desired { log := SetCmd(entry, t, 1); } else { log := SetCmd(entry, t, 0); }
    commands := AppendCommands(before, c.actuators[t], t, desired);
  }

  function ViewOf(rc: RoomCache): View
    reads rc, rc.states, rc.readings
  {
    View(rc.config, rc.states.m, rc.readings.m, rc.lastPeriod)
  }

  /** Evaluate: reads the entry, changes nothing. */
  method Evaluate(rc: RoomCache, now: Now, stale: int) returns (r: TickResult)
    ensures CommandsMatch(r.commands, ViewOf(rc), now, stale)
    ensures r.log == LogOf(ViewOf(rc), now, stale)
    ensures r.lastPeriod == NewLast(Resolve(rc.config, rc.lastPeriod, now))
  {
    var es := ResolveEffectiveState(rc.config, rc.lastPeriod, now);
    var temp := FreshAverage(ReadingsIn(rc.readings.m, Temperature), now.instant, stale);
    var hum := FreshAverage(ReadingsIn(rc.readings.m, Humidity), now.instant, stale);
    var entry := InitialEntry(rc.config, now, es, temp, hum);
    var last := if es.source == Schedule || es.source == GracePeriod then es.period else None;
    var commands, log;
    if es.mode == Off {
      commands, log := CommandAllOff(rc.config, entry);
    } else {
      commands, log := EvaluateAuto(rc.config, rc.states.m, es, temp, hum, entry);
    }
    return TickResult(commands, log, last);
  }

  /** The log row before any command is decided: cmd fields 0 for the types in
      the room, nil for the others. */
  function InitialEntry(c: RoomConfig, now: Now, es: Effective, temp: Option<Average>, hum: Option<Average>): LogEntry {
    LogEntry(
      c.roomId, now.instant, es.mode, es.source, if es.period.Some? then Some(es.period.value.id) else None,
      temp, hum, es.targets.temp, es.targets.hum,
      if es.targets.temp.Some? then Some(c.deadbandTemp) else None,
      if es.targets.hum.Some? then Some(c.deadbandHum) else None,
      if Heater in c.actuators then Some(0) else None,
      if Humidifier in c.actuators then Some(0) else None)
  }

  method EvaluateAuto(
    c: RoomConfig, states: map<ActuatorType, bool>, es: Effective, temp: Option<Average>, hum: Option<Average>, entry: LogEntry)
    returns (commands: seq<Command>, log: LogEntry)
    ensures forall hw, t, s ::
      Sent(commands, hw, t, s) ==
      if t == Heater && s == Decide(es.targets.temp, temp, c.deadbandTemp, StateIn(states, Heater)) then multiset(HwIds(c, t))[hw]
      else if t == Humidifier && s == Decide(es.targets.hum, hum, c.deadbandHum, StateIn(states, Humidifier)) then multiset(HwIds(c, t))[hw]
      else 0
    ensures log ==
      var one := if Heater in c.actuators
                 then SetCmd(entry, Heater, Bit(Decide(es.targets.temp, temp, c.deadbandTemp, StateIn(states, Heater)))) else entry;
      if Humidifier in c.actuators
      then SetCmd(one, Humidifier, Bit(Decide(es.targets.hum, hum, c.deadbandHum, StateIn(states, Humidifier)))) else one
  {
    commands, log := EvaluateOrOff(c, Heater, es.targets.temp, temp, c.deadbandTemp, StateIn(states, Heater), entry, []);
    commands, log := EvaluateOrOff(
      c, Humidifier, es.targets.hum, hum, c.deadbandHum, StateIn(states, Humidifier), log, commands);
  }
}
