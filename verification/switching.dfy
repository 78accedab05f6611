/** How often the scheduler's ticks can switch an actuator type: each switch
    after the first costs the averages a crossing of the whole deadband. */
module Switching {
  import opened Base
  import opened Tables
  import opened Cache
  import opened Control
  import opened Ingestion
  import opened Scheduling
  import opened ClosedLoop

  // ---------------------------------------------------------------------
  // Averages
  // ---------------------------------------------------------------------

  /** An actuator type's state after ticks with these averages. */
  function StateAfter(avgs: seq<real>, target: real, deadband: real, on: bool): bool {
    if avgs == [] then on
    else BangBang(avgs[|avgs| - 1], target, deadband, StateAfter(avgs[..|avgs| - 1], target, deadband, on))
  }

  function Switches(avgs: seq<real>, target: real, deadband: real, on: bool): nat {
    if avgs == [] then 0
    else
      var init := avgs[..|avgs| - 1];
      Switches(init, target, deadband, on)
      + if StateAfter(init, target, deadband, on) != StateAfter(avgs, target, deadband, on) then 1 else 0
  }

  function Abs(x: real): real { if x >= 0.0 then x else -x }

  function Variation(avgs: seq<real>): real {
    if |avgs| <= 1 then 0.0
    else Variation(avgs[..|avgs| - 1]) + Abs(avgs[|avgs| - 1] - avgs[|avgs| - 2])
  }

  /** `n` crossings of a band of this width. */
  function Crossings(n: nat, width: real): real { if n == 0 then 0.0 else Crossings(n - 1, width) + width }

  lemma {:induction false} CrossingsTimes(n: nat, width: real)
    ensures Crossings(n, width) == ClosedLoop.Times(n as real, width)
  {
    if n > 0 {
      CrossingsTimes(n - 1, width);
      assert (n as real) * width == ((n - 1) as real) * width + width;
    }
  }

  /** Since the switch at `at`, which left the state on the far side of the
      band, the averages have moved at least as far as from `at` to the last. */
  lemma {:induction false} SwitchesCost(avgs: seq<real>, target: real, deadband: real, on: bool) returns (at: real)
    requires deadband >= 0.0
    ensures var n := Switches(avgs, target, deadband, on);
      n > 0 ==>
        && avgs != []
        && (if StateAfter(avgs, target, deadband, on) then at < target - deadband else at > target + deadband)
        && Variation(avgs) >= Crossings(n - 1, 2.0 * deadband) + Abs(avgs[|avgs| - 1] - at)
  {
    at := 0.0;
    if avgs != [] {
      var init := avgs[..|avgs| - 1];
      at := SwitchesCost(init, target, deadband, on);
      if StateAfter(init, target, deadband, on) != StateAfter(avgs, target, deadband, on) {
        VariationPositive(avgs);
        at := avgs[|avgs| - 1];
      }
    }
  }

  lemma {:induction false} VariationPositive(avgs: seq<real>)
    ensures Variation(avgs) >= 0.0
  {
    if |avgs| > 1 { VariationPositive(avgs[..|avgs| - 1]); }
  }

  /** Every switch but the first has to be paid for by the averages crossing the
      whole band. */
  lemma AveragesPay(avgs: seq<real>, target: real, deadband: real, on: bool)
    requires deadband >= 0.0
    ensures var n := Switches(avgs, target, deadband, on);
      n > 0 ==> ClosedLoop.Times((n - 1) as real, 2.0 * deadband) <= Variation(avgs)
  {
    var n := Switches(avgs, target, deadband, on);
    var at := SwitchesCost(avgs, target, deadband, on);
    if n > 0 { CrossingsTimes(n - 1, 2.0 * deadband); }
  }

  // ---------------------------------------------------------------------
  // Ticks
  // ---------------------------------------------------------------------

  /** One tick: what its entry held, when it ran, what it commanded. */
  datatype TickRun = TickRun(v: View, now: Now, commands: seq<Command>)

  /** Every publish succeeds. */
  function AllOut(): nat -> bool { (i: nat) => true }

  /** The states recorded after the tick. */
  function StatesAfter(k: TickRun): map<ActuatorType, bool> { Recorded(k.v.states, k.commands, AllOut()) }

  function MeasureOf(t: ActuatorType): Measure { if t == Humidifier then Humidity else Temperature }
  function TargetOf(es: Effective, t: ActuatorType): Option<real> { if t == Humidifier then es.targets.hum else es.targets.temp }
  function DeadbandOf(c: RoomConfig, t: ActuatorType): real { if t == Humidifier then c.deadbandHum else c.deadbandTemp }

  /** An AUTO tick of a room that has such an actuator, with this target and
      deadband and with fresh readings, as Evaluate does it. */
  ghost predicate Decides(k: TickRun, t: ActuatorType, target: real, deadband: real, stale: int) {
    var es := Control.Resolve(k.v.config, k.v.last, k.now);
    && CommandsMatch(k.commands, k.v, k.now, stale)
    && es.mode == Auto && TargetOf(es, t) == Some(target) && DeadbandOf(k.v.config, t) == deadband
    && HwIds(k.v.config, t) != [] && AverageOf(k.v, MeasureOf(t), k.now, stale).Some?
  }

  /** The mean of the fresh readings in the buffer the tick read. */
  function MeanRead(k: TickRun, t: ActuatorType, stale: int): real {
    var a := AverageOf(k.v, MeasureOf(t), k.now, stale);
    if a.Some? then a.value.mean else 0.0
  }

  function MeansRead(ticks: seq<TickRun>, t: ActuatorType, stale: int): seq<real> {
    Map(ticks, (k: TickRun) => MeanRead(k, t, stale))
  }

  /** Each tick finds the states the one before it recorded. */
  ghost predicate Linked(ticks: seq<TickRun>) {
    forall i :: 0 <= i && i + 1 < |ticks| ==> ticks[i + 1].v.states == StatesAfter(ticks[i])
  }

  /** How many of the ticks changed the recorded state of the type. */
  function Changes(ticks: seq<TickRun>, t: ActuatorType): nat {
    if ticks == [] then 0
    else
      var k := ticks[|ticks| - 1];
      Changes(ticks[..|ticks| - 1], t) + if StateIn(k.v.states, t) != StateIn(StatesAfter(k), t) then 1 else 0
  }

  lemma MatchedCommands(commands: seq<Command>, v: View, now: Now, stale: int, t: ActuatorType)
    requires CommandsMatch(commands, v, now, stale) && Known(t) && HwIds(v.config, t) != []
    ensures forall i :: 0 <= i < |commands| && commands[i].kind == t ==> commands[i].state == Commanded(v, now, stale, t)
    ensures Went(commands, AllOut(), t)
  {
    forall i | 0 <= i < |commands| && commands[i].kind == t ensures commands[i].state == Commanded(v, now, stale, t) {
      assert commands[i] in multiset(commands);
      assert Sent(commands, commands[i].hwId, t, commands[i].state) > 0;
    }
    var hw := HwIds(v.config, t)[0];
    var c := Command(hw, t, Commanded(v, now, stale, t));
    assert multiset(HwIds(v.config, t))[hw] > 0;
    assert Sent(commands, hw, t, c.state) > 0;
    assert c in multiset(commands);
    var i :| 0 <= i < |commands| && commands[i] == c;
    assert AllOut()(i);
  }

  /** Such a tick records the bang-bang decision on the state it found. */
  lemma TickDecides(k: TickRun, t: ActuatorType, target: real, deadband: real, stale: int)
    requires Known(t) && Decides(k, t, target, deadband, stale)
    ensures StateIn(StatesAfter(k), t) == BangBang(MeanRead(k, t, stale), target, deadband, StateIn(k.v.states, t))
  {
    MatchedCommands(k.commands, k.v, k.now, stale, t);
    RecordedExactly(k.v.states, k.commands, AllOut(), t, Commanded(k.v, k.now, stale, t));
  }

  /** What the ticks did is what their averages say. */
  ghost predicate Follow(ticks: seq<TickRun>, means: seq<real>, t: ActuatorType, target: real, deadband: real, on: bool) {
    && ticks != [] && StateIn(StatesAfter(ticks[|ticks| - 1]), t) == StateAfter(means, target, deadband, on)
    && Changes(ticks, t) == Switches(means, target, deadband, on)
  }

  lemma {:induction false} TicksFollow(ticks: seq<TickRun>, t: ActuatorType, target: real, deadband: real, stale: int)
    requires Known(t) && Linked(ticks) && forall i :: 0 <= i < |ticks| ==> Decides(ticks[i], t, target, deadband, stale)
    ensures ticks != [] ==> Follow(ticks, MeansRead(ticks, t, stale), t, target, deadband, StateIn(ticks[0].v.states, t))
  {
    if ticks != [] {
      var n := |ticks| - 1;
      TicksFollow(ticks[..n], t, target, deadband, stale);
      TickDecides(ticks[n], t, target, deadband, stale);
      if n > 0 { assert ticks[n - 1 + 1].v.states == StatesAfter(ticks[n - 1]); }
      assert MeansRead(ticks, t, stale)[..n] == MeansRead(ticks[..n], t, stale);
      FollowOn(ticks, MeansRead(ticks, t, stale), t, target, deadband, StateIn(ticks[0].v.states, t));
    }
  }

  lemma FollowOn(ticks: seq<TickRun>, means: seq<real>, t: ActuatorType, target: real, deadband: real, on: bool)
    requires ticks != [] && |means| == |ticks|
    requires var n := |ticks| - 1;
      var k := ticks[n];
      && StateIn(StatesAfter(k), t) == BangBang(means[n], target, deadband, StateIn(k.v.states, t))
      && (if n == 0 then StateIn(k.v.states, t) == on
          else k.v.states == StatesAfter(ticks[n - 1]) && Follow(ticks[..n], means[..n], t, target, deadband, on))
    ensures Follow(ticks, means, t, target, deadband, on)
  {
  }

  /** Switching bound, over any run of such ticks: the recorded state changes at
      most once more than the averages read cross the whole deadband. */
  lemma SwitchingBound(ticks: seq<TickRun>, t: ActuatorType, target: real, deadband: real, stale: int)
    requires Known(t) && Linked(ticks) && deadband >= 0.0
    requires forall i :: 0 <= i < |ticks| ==> Decides(ticks[i], t, target, deadband, stale)
    ensures Changes(ticks, t) > 0 ==>
      ClosedLoop.Times((Changes(ticks, t) - 1) as real, 2.0 * deadband) <= Variation(MeansRead(ticks, t, stale))
  {
    if ticks != [] {
      TicksFollow(ticks, t, target, deadband, stale);
      AveragesPay(MeansRead(ticks, t, stale), target, deadband, StateIn(ticks[0].v.states, t));
    }
  }

  // ---------------------------------------------------------------------
  // Ticks and telemetry on the program's own objects
  // ---------------------------------------------------------------------

  /** What the ticks and the telemetry of a store may change. */
  function Changing(store: Store, r: Id): set<object>
    reads store, store.rooms.Values
  {
    Touched(store, r) + set q | q in store.rooms :: store.rooms[q].readings
  }

  ghost predicate Tracked(ticks: seq<TickRun>, stale: int, states: map<ActuatorType, bool>) {
    && Linked(ticks)
    && (forall i :: 0 <= i < |ticks| ==> CommandsMatch(ticks[i].commands, ticks[i].v, ticks[i].now, stale))
    && (ticks != [] ==> states == StatesAfter(ticks[|ticks| - 1]))
  }

  lemma TrackedOn(ticks: seq<TickRun>, k: TickRun, stale: int, states: map<ActuatorType, bool>)
    requires Tracked(ticks, stale, states) && (ticks != [] ==> k.v.states == states)
    requires CommandsMatch(k.commands, k.v, k.now, stale)
    ensures Tracked(ticks + [k], stale, StatesAfter(k))
  {
  }

  /** A message, then a tick. */
  method ProcessAndTick(store: Store, r: Id, msg: Telemetry, now: Now, stale: int) returns (ghost k: TickRun)
    requires r in store.rooms
    modifies Changing(store, r)
    ensures k.now == now && k.v.config == store.rooms[r].config && CommandsMatch(k.commands, k.v, now, stale)
    ensures k.v.states == old(store.rooms[r].states.m) && store.rooms[r].states.m == StatesAfter(k)
    ensures store.rooms[r].states == old(store.rooms[r].states)
    ensures forall q :: q in store.rooms ==> store.rooms[q].readings == old(store.rooms[q].readings)
  {
    var rows := Process(store, msg, stale);
    ghost var v := ViewOf(store.rooms[r]);
    var result := Tick(store, r, now, stale, AllOut());
    k := TickRun(v, now, result.value.commands);
  }

  /** Messages are processed and ticks run in turn, every publish succeeding:
      the ticks are linked and each commands as Evaluate does, so the bound is
      about the states this leaves. */
  method RunTicks(store: Store, r: Id, inputs: seq<(Telemetry, Now)>, stale: int) returns (ghost ticks: seq<TickRun>)
    requires r in store.rooms
    modifies Changing(store, r)
    ensures |ticks| == |inputs| && Tracked(ticks, stale, store.rooms[r].states.m)
    ensures forall i :: 0 <= i < |inputs| ==> ticks[i].now == inputs[i].1 && ticks[i].v.config == store.rooms[r].config
    ensures ticks != [] ==> ticks[0].v.states == old(store.rooms[r].states.m)
  {
    ticks := [];
    for i := 0 to |inputs|
      invariant |ticks| == i && Tracked(ticks, stale, store.rooms[r].states.m)
      invariant store.rooms[r].states == old(store.rooms[r].states)
      invariant forall q :: q in store.rooms ==> store.rooms[q].readings == old(store.rooms[q].readings)
      invariant forall j :: 0 <= j < i ==> ticks[j].now == inputs[j].1 && ticks[j].v.config == store.rooms[r].config
      invariant store.rooms[r].states.m == old(store.rooms[r].states.m) || ticks != []
      invariant ticks != [] ==> ticks[0].v.states == old(store.rooms[r].states.m)
    {
      ghost var before := store.rooms[r].states.m;
      ghost var k;
      k := ProcessAndTick(store, r, inputs[i].0, inputs[i].1, stale);
      TrackedOn(ticks, k, stale, before);
      ticks := ticks + [k];
    }
  }
}
