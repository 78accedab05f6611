/** The closed loop on the program's own objects: the simulator's room and
    actuator, the store, ingestion and the scheduler's tick together do the
    rounds that the bound is about. */
module RoomLoop {
  import opened Base
  import opened Tables
  import opened Cache
  import opened Heating
  import Plant
  import Watchdog
  import Control
  import Ingestion
  import opened Scheduling
  import opened Switching
  import opened ClosedLoop

  /** A heater in a simulated room, and the control service's side of that
      room: its store, the room's id, the thermometer's hardware id. */
  class Rig {
    const store: Store
    const room: Id
    const thermometer: HwId
    const task: Watchdog.ActuatorTask
    const model: map<Kind, Plant.MeasurementConfig>
    const p: Setup

    constructor (st: Store, r: Id, th: HwId, t: Watchdog.ActuatorTask, m: map<Kind, Plant.MeasurementConfig>, setup: Setup)
      ensures store == st && room == r && thermometer == th && task == t && model == m && p == setup
    {
      store, room, thermometer, task, model, p := st, r, th, t, m, setup;
    }

    /** The thermometer is known and in the room, the room lists the heater, the
        model has the room's parameters. */
    ghost predicate Wired()
      reads store, store.rooms.Values, store.devices.Values, task, task.state
    {
      && room in store.rooms && thermometer in store.devices
      && store.devices[thermometer].room == Some(room) && Temperature in store.devices[thermometer].sensors
      && task.a.kind == TEMP && task.rate == p.power && task.a.hwId in HwIds(store.rooms[room].config, Heater)
      && store.rooms[room].config.deadbandTemp == p.deadband
      && TEMP in model && model[TEMP] == p.m && TEMP in task.state.current && RateOf(task.state.ambient, TEMP) == p.ambient
    }

    /** The room's entry and its runtime maps. */
    function Entry(): set<object>
      reads store, store.rooms.Values
    {
      if room in store.rooms then {store.rooms[room], store.rooms[room].states, store.rooms[room].readings} else {}
    }

    /** What the objects are in is the loop's state. */
    ghost predicate Shows(s: Loop)
      reads store, store.rooms.Values, Entry(), task, task.state
    {
      && room in store.rooms && TEMP in task.state.current
      && task.state.Valid() && task.state.contributions == (if s.on then map[KeyOf(task.a) := map[TEMP := p.power]] else map[])
      && task.state.current[TEMP] == s.x
      && Control.ReadingsIn(store.rooms[room].readings.m, Temperature) == Ingestion.Buffer(s.history, p.stale)
      && Control.StateIn(store.rooms[room].states.m, Heater) == s.on
    }

    /** The heater's task hears the room's commands; those for its own device
        reach its handler. */
    method Deliver(commands: seq<Control.Command>, at: int, ghost on: bool)
      requires forall i :: 0 <= i < |commands| && commands[i].kind == Heater ==> commands[i].state == on
      requires exists i :: 0 <= i < |commands| && commands[i].kind == Heater && commands[i].hwId == task.a.hwId
      requires task.a.kind == TEMP && task.rate == p.power && task.state.Valid()
      requires task.state.contributions.Keys <= {KeyOf(task.a)}
      modifies task, task.state`contributions, task.state`heatInput
      ensures task.state.Valid()
      ensures task.state.contributions == if on then map[KeyOf(task.a) := map[TEMP := p.power]] else map[]
    {
      ghost var delivered := false;
      for i := 0 to |commands|
        invariant task.state.Valid() && task.state.contributions.Keys <= {KeyOf(task.a)}
        invariant delivered <==> exists j :: 0 <= j < i && commands[j].kind == Heater && commands[j].hwId == task.a.hwId
        invariant delivered ==>
          task.state.contributions == if on then map[KeyOf(task.a) := map[TEMP := p.power]] else map[]
      {
        if commands[i].kind == Heater && commands[i].hwId == task.a.hwId {
          task.OnCommand(at, "heater", commands[i].state);
          delivered := true;
        }
      }
    }

    /** One round: the room advances and publishes, the message is ingested, the
        room's tick runs, its commands are delivered. */
    method DoRound(ts: int, now: Control.Now, ghost s: Loop)
      requires Wired() && Shows(s) && Wanted(store.rooms[room].config, p, now)
      modifies Entry(), task, task.state`current, task.state`contributions, task.state`heatInput
      ensures Wired() && Shows(Next(p, s, Round(ts, now.instant)))
      ensures Entry() == old(Entry())
    {
      ghost var s' := Next(p, s, Round(ts, now.instant));
      SimulatorRound(s.on);
      assert task.state.contributions.Keys <= {KeyOf(task.a)};
      var commands := ControlRound(task.state.current[TEMP], ts, now, s);
      Deliver(commands, now.instant, s'.on);
    }

    /** The simulator's half of a round. */
    method SimulatorRound(ghost on: bool)
      requires Wired() && task.state.Valid()
      requires task.state.contributions == if on then map[KeyOf(task.a) := map[TEMP := p.power]] else map[]
      modifies task.state`current
      ensures TEMP in task.state.current
      ensures task.state.current[TEMP]
           == Plant.Clamp(TEMP, Plant.After(p.m, old(task.state.current[TEMP]), p.ambient, HeatOf(p, on), p.dt))
    {
      HeatOfOne(task, p, on);
      Plant.AdvanceRoom(model, task.state, p.dt);
    }

    /** The control service's half of a round. */
    method ControlRound(x: real, ts: int, now: Control.Now, ghost s: Loop) returns (commands: seq<Control.Command>)
      requires Wired() && Wanted(store.rooms[room].config, p, now)
      requires Control.ReadingsIn(store.rooms[room].readings.m, Temperature) == Ingestion.Buffer(s.history, p.stale)
      requires Control.StateIn(store.rooms[room].states.m, Heater) == s.on
      modifies Entry()
      ensures var history := s.history + [Reading(x, ts)];
        var on := Control.Decide(
          Some(p.target), Control.FreshMean(Ingestion.Buffer(history, p.stale), now.instant, p.stale), p.deadband, s.on);
        && Control.ReadingsIn(store.rooms[room].readings.m, Temperature) == Ingestion.Buffer(history, p.stale)
        && Control.StateIn(store.rooms[room].states.m, Heater) == on
        && (forall i :: 0 <= i < |commands| && commands[i].kind == Heater ==> commands[i].state == on)
        && (exists i :: 0 <= i < |commands| && commands[i].kind == Heater && commands[i].hwId == task.a.hwId)
      ensures Entry() == old(Entry())
    {
      ghost var before := store.rooms[room].readings.m;
      var msg := Ingestion.Telemetry(thermometer, [Ingestion.Sample(Temperature, x)], ts);
      var rows := Ingestion.Process(store, msg, p.stale);
      OneReading(before, s.history, store.devices[thermometer].sensors, x, ts, p.stale);
      ghost var v := Control.ViewOf(store.rooms[room]);
      var result := Tick(store, room, now, p.stale, AllOut());
      commands := result.value.commands;
      HeaterTold(commands, v, now, p.stale, task.a.hwId);
    }

    /** Round number `i` of a run. */
    method DoRoundNumber(i: nat, ts: int, now: Control.Now, ghost s: Loop, ghost all: seq<Round>)
      requires i < |all| && all[i] == Round(ts, now.instant)
      requires Wired() && Shows(Exec(p, s, all[..i])) && Wanted(store.rooms[room].config, p, now)
      modifies Entry(), task, task.state`current, task.state`contributions, task.state`heatInput
      ensures Wired() && Shows(Exec(p, s, all[..i + 1])) && Entry() == old(Entry())
    {
      OneMoreRound(p, s, all, i);
      DoRound(ts, now, Exec(p, s, all[..i]));
    }

    /** Any number of rounds: the objects follow the loop. */
    method FollowRounds(rounds: seq<(int, Control.Now)>, ghost s: Loop)
      requires Wired() && Shows(s)
      requires forall i :: 0 <= i < |rounds| ==> Wanted(store.rooms[room].config, p, rounds[i].1)
      modifies Entry(), task, task.state`current, task.state`contributions, task.state`heatInput
      ensures Wired() && Shows(Exec(p, s, Timings(rounds)))
    {
      ghost var all := Timings(rounds);
      for i := 0 to |rounds|
        invariant Wired() && Shows(Exec(p, s, all[..i])) && Entry() == old(Entry())
      {
        DoRoundNumber(i, rounds[i].0, rounds[i].1, s, all);
      }
      assert all[..|rounds|] == all;
    }

    /** So the simulated room's temperature keeps the loop's bound. */
    method RunRounds(rounds: seq<(int, Control.Now)>, ghost s: Loop, ghost w: nat)
      requires Wired() && Shows(s) && Contained(p, s, Timings(rounds), w)
      requires forall i :: 0 <= i < |rounds| ==> Wanted(store.rooms[room].config, p, rounds[i].1)
      modifies Entry(), task, task.state`current, task.state`contributions, task.state`heatInput
      ensures TEMP in task.state.current && InReach(p, task.state.current[TEMP], w)
    {
      FollowRounds(rounds, s);
      StaysInReach(p, s, Timings(rounds), w);
    }
  }

  /** At this moment the room is under AUTO control with the loop's target,
      whatever period was last in force. */
  ghost predicate Wanted(c: RoomConfig, p: Setup, now: Control.Now) {
    forall last ::
      var es := Control.Resolve(c, last, now);
      es.mode == Auto && es.targets.temp == Some(p.target)
  }

  /** What the bound asks for: a reachable band, a start within it with nothing
      measured yet, and at most `w` readings fresh at each tick. */
  ghost predicate Contained(p: Setup, s: Loop, rounds: seq<Round>, w: nat) {
    && Controllable(p) && w > 0
    && s.history == [] && Plant.Within(TEMP, s.x) && p.target - p.deadband <= s.x <= p.target + p.deadband
    && WellTimed(p, rounds) && FreshAtMost(p, rounds, w)
  }

  lemma OneMoreRound(p: Setup, s: Loop, rounds: seq<Round>, i: nat)
    requires i < |rounds|
    ensures Exec(p, s, rounds[..i + 1]) == Next(p, Exec(p, s, rounds[..i]), rounds[i])
  {
    assert rounds[..i + 1][..i] == rounds[..i];
  }

  /** Within the band widened by `w` of the largest steps. */
  predicate InReach(p: Setup, x: real, w: nat)
    requires p.m.thermalMass != 0.0 && p.m.conductance != 0.0
  {
    var out := ClosedLoop.Times(w as real, LargestStep(p));
    p.target - p.deadband - out <= x <= p.target + p.deadband + out
  }

  lemma StaysInReach(p: Setup, s: Loop, rounds: seq<Round>, w: nat)
    requires Contained(p, s, rounds, w)
    ensures InReach(p, Exec(p, s, rounds).x, w)
  {
    ClosedLoopBoundInNumbers(p, s, rounds, w);
  }

  /** When each round's reading is stamped and when its tick runs. */
  function Timings(rounds: seq<(int, Control.Now)>): seq<Round> {
    Map(rounds, (x: (int, Control.Now)) => Round(x.0, x.1.instant))
  }

  lemma HeatOfOne(task: Watchdog.ActuatorTask, p: Setup, on: bool)
    requires task.state.Valid()
    requires task.state.contributions == if on then map[KeyOf(task.a) := map[TEMP := p.power]] else map[]
    ensures RateOf(task.state.heatInput, TEMP) == HeatOf(p, on)
  {
    var cs := task.state.contributions;
    if on {
      SumFrom(cs, KeyOf(task.a), TEMP);
      assert cs - {KeyOf(task.a)} == map[];
    }
    assert HeatSum(map[], TEMP) == 0.0;
  }

  /** One message with one temperature adds that reading to the buffer. */
  lemma OneReading(m: map<Measure, seq<Reading>>, history: seq<Reading>, sensors: set<Measure>, x: real, ts: int, stale: int)
    requires Control.ReadingsIn(m, Temperature) == Ingestion.Buffer(history, stale) && Temperature in sensors
    ensures var taken := Ingestion.Resolved(sensors, [Ingestion.Sample(Temperature, x)]);
      Control.ReadingsIn(Ingestion.Ingest(m, taken, ts, stale), Temperature) == Ingestion.Buffer(history + [Reading(x, ts)], stale)
  {
    var one := Ingestion.Sample(Temperature, x);
    FilterAll([one], Ingestion.Sensed(sensors));
    FilterAll([one], Ingestion.OfMeasure(Temperature));
    Ingestion.IngestBuffers(m, history, [one], ts, stale, Temperature);
    assert Map([one], Ingestion.ToReading(ts)) == [Reading(x, ts)];
  }

  /** A tick's commands to heaters agree with what it records, and every listed
      heater gets one. */
  lemma HeaterTold(commands: seq<Control.Command>, v: Control.View, now: Control.Now, stale: int, hw: HwId)
    requires Control.CommandsMatch(commands, v, now, stale) && hw in HwIds(v.config, Heater)
    ensures var on := Control.Commanded(v, now, stale, Heater);
      && (forall i :: 0 <= i < |commands| && commands[i].kind == Heater ==> commands[i].state == on)
      && (exists i :: 0 <= i < |commands| && commands[i].kind == Heater && commands[i].hwId == hw)
      && Control.StateIn(Recorded(v.states, commands, AllOut()), Heater) == on
  {
    var on := Control.Commanded(v, now, stale, Heater);
    MatchedCommands(commands, v, now, stale, Heater);
    RecordedExactly(v.states, commands, AllOut(), Heater, on);
    assert multiset(HwIds(v.config, Heater))[hw] > 0;
    assert Control.Sent(commands, hw, Heater, on) > 0;
    assert Control.Command(hw, Heater, on) in multiset(commands);
  }
}
