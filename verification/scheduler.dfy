/** Room goroutines: their lifecycle, their staggered starts, and the tick that
    publishes commands and records what was published. */
module Scheduling {
  import opened Base
  import opened Tables
  import opened Cache
  import opened Control

  // ---------------------------------------------------------------------
  // Lifecycle
  // ---------------------------------------------------------------------

  /** A room's child context. */
  class RoomContext {
    const room: Id
    var cancelled: bool

    constructor (r: Id)
      ensures room == r && !cancelled
    {
      room, cancelled := r, false;
    }
  }

  function Total(s: seq<nat>): nat {
    if s == [] then 0 else Total(s[..|s| - 1]) + s[|s| - 1]
  }

  lemma {:induction false} TotalDrop(s: seq<nat>, i: nat)
    requires i < |s| && s[i] > 0
    ensures Total(s[i := s[i] - 1]) == Total(s) - 1
  {
    var n := |s| - 1;
    if i < n {
      TotalDrop(s[..n], i);
      assert s[i := s[i] - 1][..n] == s[..n][i := s[i] - 1];
    } else {
      assert s[i := s[i] - 1][..n] == s[..n];
    }
  }

  lemma {:induction false} TotalZero(s: seq<nat>)
    ensures Total(s) == 0 <==> forall i :: 0 <= i < |s| ==> s[i] == 0
  {
    if s != [] { TotalZero(s[..|s| - 1]); }
  }

  class Scheduler {
    var activeRooms: map<Id, RoomContext>
    var wg: int
    /** Every context a pair of goroutines was started with, and how many of
        that pair still run. */
    ghost var started: seq<RoomContext>
    ghost var running: seq<nat>

    /** The live contexts are exactly the values of activeRooms, one per room;
        a live pair runs in full; the wait group owes one Done per goroutine
        still running. */
    ghost predicate Valid()
      reads this, started
    {
      && Distinct(started) && |running| == |started|
      && (forall r :: r in activeRooms ==> activeRooms[r] in started && activeRooms[r].room == r && !activeRooms[r].cancelled)
      && (forall c :: c in started && !c.cancelled ==> c.room in activeRooms && activeRooms[c.room] == c)
      && (forall i :: 0 <= i < |started| && !started[i].cancelled ==> running[i] == 2)
      && wg == Total(running)
    }

    constructor ()
      ensures Valid() && activeRooms == map[] && started == []
    {
      activeRooms, wg, started, running := map[], 0, [], [];
    }

    /** The context registered for the room, if any, is cancelled; it stays
        registered until it is replaced. */
    method CancelExisting(r: Id)
      requires Valid()
      modifies started
      ensures forall c :: c in started ==> c.cancelled == (old(c.cancelled) || c.room == r)
      ensures forall c :: c in started && !c.cancelled ==> c.room in activeRooms && activeRooms[c.room] == c
    {
      if r in activeRooms { activeRooms[r].cancelled := true; }
    }

    /** startRoom: any pair already running for the room is cancelled first. */
    method StartRoom(r: Id)
      requires Valid()
      modifies this, started
      ensures Valid()
      ensures |started| == old(|started|) + 1 && started[..old(|started|)] == old(started) && fresh(started[old(|started|)])
      ensures activeRooms == old(activeRooms)[r := started[old(|started|)]]
      ensures forall c :: c in old(started) ==> c.cancelled == (old(c.cancelled) || c.room == r)
      ensures running == old(running) + [2] && wg == old(wg) + 2
    {
      ghost var before := started;
      CancelExisting(r);
      var ctx := new RoomContext(r);
      activeRooms := activeRooms[r := ctx];
      wg := wg + 2;
      assert (running + [2])[..|running|] == running;
      started, running := started + [ctx], running + [2];
      assert forall c :: c in started <==> c in before || c == ctx;
    }

    method AddRoom(r: Id)
      requires Valid()
      modifies this, started
      ensures Valid()
      ensures |started| == old(|started|) + 1 && started[..old(|started|)] == old(started) && fresh(started[old(|started|)])
      ensures activeRooms == old(activeRooms)[r := started[old(|started|)]]
      ensures forall c :: c in old(started) ==> c.cancelled == (old(c.cancelled) || c.room == r)
      ensures running == old(running) + [2] && wg == old(wg) + 2
    {
      StartRoom(r);
    }

    method RemoveRoom(r: Id)
      requires Valid()
      modifies this, started
      ensures Valid() && started == old(started) && running == old(running) && wg == old(wg)
      ensures activeRooms == old(activeRooms) - {r}
      ensures forall c :: c in started ==> c.cancelled == (old(c.cancelled) || c.room == r)
    {
      if r in activeRooms {
        var ctx := activeRooms[r];
        activeRooms := activeRooms - {r};
        ctx.cancelled := true;
      }
    }

    /** The start delays of room `i` of `n`. */
    method StaggersOf(i: nat, tick: nat, refresh: nat, n: nat) returns (controlStagger: nat, refreshStagger: nat)
      ensures controlStagger == Offset(i, tick, n) && refreshStagger == Offset(i, refresh, n)
    {
      controlStagger, refreshStagger := 0, 0;
      if n > 1 {
        controlStagger := i * tick / n;
        refreshStagger := i * refresh / n;
      }
    }

    /** Start: one pair per room of the store, spread over both intervals. */
    method Start(rooms: seq<Id>, tick: nat, refresh: nat) returns (staggers: seq<(nat, nat)>)
      requires Valid() && started == [] && Distinct(rooms)
      modifies this
      ensures Valid() && |started| == |rooms| && wg == 2 * |rooms|
      ensures forall r :: r in activeRooms <==> r in rooms
      ensures |staggers| == |rooms|
      ensures forall i :: 0 <= i < |rooms| ==> staggers[i] == (Offset(i, tick, |rooms|), Offset(i, refresh, |rooms|))
    {
      staggers := [];
      var n := |rooms|;
      for i := 0 to n
        invariant Valid() && |started| == i && wg == 2 * i && fresh(set c | c in started)
        invariant forall r :: r in activeRooms <==> r in rooms[..i]
        invariant |staggers| == i
        invariant forall k :: 0 <= k < i ==> staggers[k] == (Offset(k, tick, n), Offset(k, refresh, n))
      {
        var controlStagger, refreshStagger := StaggersOf(i, tick, refresh, n);
        assert rooms[..i + 1] == rooms[..i] + [rooms[i]];
        StartRoom(rooms[i]);
        staggers := staggers + [(controlStagger, refreshStagger)];
      }
      assert rooms[..n] == rooms;
    }

    /** One goroutine of pair `i` sees its context cancelled and returns. */
    method Done(ghost i: nat)
      requires Valid() && i < |started| && started[i].cancelled && running[i] > 0
      modifies this
      ensures Valid() && activeRooms == old(activeRooms) && started == old(started)
      ensures running == old(running)[i := old(running[i]) - 1] && wg == old(wg) - 1
    {
      TotalDrop(running, i);
      running := running[i := running[i] - 1];
      wg := wg - 1;
    }

    /** Wait returns only when no goroutine is left and no room is active. */
    lemma WaitMeansAllExited()
      requires Valid()
      ensures wg == 0 <==> forall i :: 0 <= i < |running| ==> running[i] == 0
      ensures activeRooms != map[] ==> wg > 0
    {
      TotalZero(running);
      if activeRooms.Keys != {} {
        var r :| r in activeRooms;
        var i :| 0 <= i < |started| && started[i] == activeRooms[r];
        assert running[i] == 2;
      }
    }

    /** No room ever has two live contexts. */
    lemma OneLivePair(c: RoomContext, d: RoomContext)
      requires Valid() && c in started && d in started && !c.cancelled && !d.cancelled && c.room == d.room
      ensures c == d
    {
    }
  }

  /** Lifecycle events as the consumer delivers them, redeliveries included. */
  datatype Lifecycle = Added(r: Id) | Removed(r: Id)

  /** The rooms whose last event was an addition. */
  function Alive(from: set<Id>, events: seq<Lifecycle>): set<Id> {
    if events == [] then from
    else
      var before := Alive(from, events[..|events| - 1]);
      match events[|events| - 1]
      case Added(r) => before + {r}
      case Removed(r) => before - {r}
  }

  function Additions(events: seq<Lifecycle>): nat {
    if events == [] then 0
    else Additions(events[..|events| - 1]) + if events[|events| - 1].Added? then 1 else 0
  }

  /** Any sequence of additions and removals: a room has a live pair exactly if
      its last event added it, and two waits were taken per addition. */
  method Play(s: Scheduler, events: seq<Lifecycle>)
    requires s.Valid()
    modifies s, set c | c in s.started
    ensures s.Valid()
    ensures s.activeRooms.Keys == Alive(old(s.activeRooms.Keys), events)
    ensures forall r :: r in s.activeRooms.Keys <==> exists c :: c in s.started && !c.cancelled && c.room == r
    ensures s.wg == old(s.wg) + 2 * Additions(events) && |s.started| == old(|s.started|) + Additions(events)
  {
    for i := 0 to |events|
      invariant s.Valid()
      invariant forall c :: c in s.started ==> c in old(s.started) || fresh(c)
      invariant s.activeRooms.Keys == Alive(old(s.activeRooms.Keys), events[..i])
      invariant s.wg == old(s.wg) + 2 * Additions(events[..i])
      invariant |s.started| == old(|s.started|) + Additions(events[..i])
    {
      assert events[..i + 1][..i] == events[..i];
      ghost var before := s.started;
      match events[i] {
        case Added(r) =>
          s.AddRoom(r);
          assert s.started == before + [s.started[|before|]];
        case Removed(r) => s.RemoveRoom(r);
      }
    }
    assert events[..|events|] == events;
    forall r | r in s.activeRooms.Keys ensures exists c :: c in s.started && !c.cancelled && c.room == r {
      assert s.activeRooms[r] in s.started;
    }
  }

  // ---------------------------------------------------------------------
  // Staggers
  // ---------------------------------------------------------------------

  /** The start delay of room `i` of `n` within an interval. */
  function Offset(i: nat, interval: nat, n: nat): nat {
    if n > 1 then i * interval / n else 0
  }

  /** The pause from room `i` to the next one; after the last room, to the
      first room of the next interval. */
  function Gap(i: nat, interval: nat, n: nat): int
    requires i < n
  {
    (if i + 1 < n then Offset(i + 1, interval, n) else interval) - Offset(i, interval, n)
  }

  lemma MulGrows(n: int, d: int)
    requires n >= 0
    ensures d >= 1 ==> n * d >= n
    ensures d <= -1 ==> n * d <= -n
    ensures d >= 0 ==> n * d >= 0
  {
    if d >= 1 { assert n * d == n + n * (d - 1); }
    if d <= -1 { assert n * d == -n - n * (-d - 1); }
  }

  lemma DivUnique(x: nat, n: nat, q: nat, r: nat)
    requires n > 0 && x == n * q + r && r < n
    ensures x / n == q && x % n == r
  {
    assert n * (x / n - q) == r - x % n;
    MulGrows(n, x / n - q);
  }

  lemma DivSum(a: nat, t: nat, n: nat, x: nat, p: nat, y: nat, q: nat)
    requires n > 0 && a == n * x + p && t == n * y + q && p < n && q < n
    ensures (a + t) / n == x + y + if p + q >= n then 1 else 0
  {
    assert n * (x + y) == n * x + n * y;
    if p + q >= n {
      assert n * (x + y + 1) == n * (x + y) + n;
      DivUnique(a + t, n, x + y + 1, p + q - n);
    } else {
      DivUnique(a + t, n, x + y, p + q);
    }
  }

  lemma DivStep(a: nat, t: nat, n: nat)
    requires n > 0
    ensures (a + t) / n == a / n + t / n + if a % n + t % n >= n then 1 else 0
  {
    DivSum(a, t, n, a / n, a % n, t / n, t % n);
  }

  lemma DivBelow(a: nat, n: nat, bound: nat)
    requires n > 0 && a < n * bound
    ensures a / n < bound
  {
    assert n * (a / n - bound) == a - a % n - n * bound;
    MulGrows(n, a / n - bound);
  }

  /** Every pause is the interval's fair share rounded down or up. */
  lemma GapsEven(i: nat, interval: nat, n: nat)
    requires i < n
    ensures Gap(i, interval, n) == interval / n || (interval % n != 0 && Gap(i, interval, n) == interval / n + 1)
    ensures interval > 0 ==> 0 <= Offset(i, interval, n) < interval
  {
    if n > 1 {
      var a := i * interval;
      assert (i + 1) * interval == a + interval;
      DivStep(a, interval, n);
      if i + 1 == n { DivUnique(a + interval, n, interval, 0); }
      if interval > 0 {
        assert (n - i) * interval >= interval by { MulGrows(interval, n - i); }
        assert n * interval == a + (n - i) * interval;
        DivBelow(a, n, interval);
      }
    }
  }

  function LongGaps(k: nat, interval: nat, n: nat): nat
    requires k <= n
  {
    if k == 0 then 0
    else LongGaps(k - 1, interval, n) + if Gap(k - 1, interval, n) == interval / n + 1 then 1 else 0
  }

  lemma {:induction false} LongGapsUpTo(k: nat, interval: nat, n: nat)
    requires 0 < n && k <= n
    ensures (if k < n then Offset(k, interval, n) else interval) == k * (interval / n) + LongGaps(k, interval, n)
  {
    if k == 0 {
    } else {
      LongGapsUpTo(k - 1, interval, n);
      GapsEven(k - 1, interval, n);
      assert k * (interval / n) == (k - 1) * (interval / n) + interval / n;
    }
  }

  /** Once around the interval, as many pauses are rounded up as the division
      leaves over. */
  lemma LongGapsExactly(interval: nat, n: nat)
    requires n > 0
    ensures LongGaps(n, interval, n) == interval % n
  {
    LongGapsUpTo(n, interval, n);
    assert interval == n * (interval / n) + interval % n;
  }

  // ---------------------------------------------------------------------
  // The tick
  // ---------------------------------------------------------------------

  /** ActuatorStates after publishing: `ok(i)` says whether command `i` went
      out. */
  function Recorded(m: map<ActuatorType, bool>, commands: seq<Command>, ok: nat -> bool): map<ActuatorType, bool> {
    if commands == [] then m
    else
      var n := |commands| - 1;
      var before := Recorded(m, commands[..n], ok);
      if ok(n) then before[commands[n].kind := commands[n].state] else before
  }

  function OrElseLast(new_: Option<PeriodCache>, old_: Option<PeriodCache>): Option<PeriodCache> {
    if new_.Some? then new_ else old_
  }

  /** What a tick of the room touches: its entry and the entry's state map. */
  function Touched(store: Store, r: Id): set<object>
    reads store, store.rooms.Values
  {
    if r in store.rooms then {store.rooms[r], store.rooms[r].states} else {}
  }

  /** Which period a tick leaves remembered. */
  lemma RemembersExactly(c: RoomConfig, last: Option<PeriodCache>, now: Now)
    ensures var after := OrElseLast(NewLast(Resolve(c, last, now)), last);
      && (InForce(c, now) ==> after.Some? && after.value in c.periods && Matches(after.value, now))
      && (!InForce(c, now) ==> after == last)
  {
    FirstMatchFinds(c.periods, now);
  }

  /** Some period is in force and no override keeps it from deciding. */
  predicate InForce(c: RoomConfig, now: Now) {
    !Overridden(c.desired, now) && exists p :: p in c.periods && Matches(p, now)
  }

  /** A tick that finds a period in force remembers it; any other, one in the
      grace period too, leaves the period remembered as it was. */
  method Tick(store: Store, r: Id, now: Now, stale: int, ok: nat -> bool) returns (result: Option<TickResult>)
    modifies Touched(store, r)
    ensures r !in store.rooms ==> result == None
    ensures r in store.rooms ==>
      var rc := store.rooms[r];
      var v := old(ViewOf(store.rooms[r]));
      && result.Some? && CommandsMatch(result.value.commands, v, now, stale) && result.value.log == LogOf(v, now, stale)
      && rc.states == old(rc.states) && rc.readings == old(rc.readings)
      && rc.states.m == Recorded(v.states, result.value.commands, ok)
      && rc.lastPeriod == OrElseLast(NewLast(Resolve(v.config, v.last, now)), v.last)
      && (InForce(rc.config, now) ==>
            rc.lastPeriod.Some? && rc.lastPeriod.value in rc.config.periods && Matches(rc.lastPeriod.value, now))
      && (!InForce(rc.config, now) ==> rc.lastPeriod == old(rc.lastPeriod))
  {
    if r !in store.rooms { return None; }
    var rc := store.rooms[r];
    var tick := Evaluate(rc, now, stale);
    Publish(rc.states, tick.commands, ok);
    RemembersExactly(rc.config, rc.lastPeriod, now);
    if tick.lastPeriod.Some? { rc.lastPeriod := tick.lastPeriod; }
    result := Some(tick);
  }

  /** The room is in its minute of grace after `p`. */
  predicate JustEnded(c: RoomConfig, p: PeriodCache, now: Now) {
    !InForce(c, now) && !Overridden(c.desired, now) && now.day in p.days && now.minute == p.endMinutes
  }

  /** Ticks of one room: at `first` a period is in force, at the times `between`
      none is or an override decides. The last tick, in the minute the
      remembered period ends and with nothing else deciding, still aims at that
      period's targets in its mode. */
  method TicksIntoGrace(store: Store, r: Id, first: Now, between: seq<Now>, last: Now, stale: int, ok: nat -> bool)
    returns (p: PeriodCache, result: TickResult)
    requires r in store.rooms && InForce(store.rooms[r].config, first)
    requires forall i :: 0 <= i < |between| ==> !InForce(store.rooms[r].config, between[i])
    modifies Touched(store, r)
    ensures p in store.rooms[r].config.periods && Matches(p, first)
    ensures !InForce(store.rooms[r].config, last) ==> store.rooms[r].lastPeriod == Some(p)
    ensures JustEnded(store.rooms[r].config, p, last) ==>
      && result.log.source == GracePeriod && result.log.period == Some(p.id) && result.log.mode == p.mode
      && result.log.targetTemp == p.targets.temp && result.log.targetHum == p.targets.hum
    ensures !InForce(store.rooms[r].config, last) && !Overridden(store.rooms[r].config.desired, last)
            && !JustEnded(store.rooms[r].config, p, last) ==>
      result.log.source == NoSource && result.log.mode == Off && result.log.targetTemp == None && result.log.targetHum == None
  {
    var rc := store.rooms[r];
    var ticked := Tick(store, r, first, stale, ok);
    p := rc.lastPeriod.value;
    for i := 0 to |between|
      invariant rc.lastPeriod == Some(p) && rc.states == old(rc.states)
    {
      ticked := Tick(store, r, between[i], stale, ok);
    }
    if !InForce(rc.config, last) && !Overridden(rc.config.desired, last) { EndOf(ViewOf(rc), p, last, stale); }
    ticked := Tick(store, r, last, stale, ok);
    result := ticked.value;
  }

  lemma EndOf(v: View, p: PeriodCache, now: Now, stale: int)
    requires v.last == Some(p) && !InForce(v.config, now) && !Overridden(v.config.desired, now)
    ensures var log := LogOf(v, now, stale);
      if now.day in p.days && now.minute == p.endMinutes
      then log.source == GracePeriod && log.period == Some(p.id) && log.mode == p.mode
           && log.targetTemp == p.targets.temp && log.targetHum == p.targets.hum
      else log.source == NoSource && log.mode == Off && log.targetTemp == None && log.targetHum == None
  {
    FirstMatchFinds(v.config.periods, now);
  }

  /** The publish loop: only commands that went out are recorded. */
  method Publish(states: StateMap, commands: seq<Command>, ok: nat -> bool)
    modifies states
    ensures states.m == Recorded(old(states.m), commands, ok)
  {
    for i := 0 to |commands|
      invariant states.m == Recorded(old(states.m), commands[..i], ok)
    {
      assert commands[..i + 1][..i] == commands[..i];
      if ok(i) { states.m := states.m[commands[i].kind := commands[i].state]; }
    }
    assert commands[..|commands|] == commands;
  }

  predicate Went(commands: seq<Command>, ok: nat -> bool, t: ActuatorType) {
    exists i :: 0 <= i < |commands| && ok(i) && commands[i].kind == t
  }

  /** The recorded state of a type is the commanded one once any of its
      commands went out, and otherwise what it was. */
  lemma {:induction false} RecordedExactly(m: map<ActuatorType, bool>, commands: seq<Command>, ok: nat -> bool, t: ActuatorType, s: bool)
    requires forall i :: 0 <= i < |commands| && commands[i].kind == t ==> commands[i].state == s
    ensures var r := Recorded(m, commands, ok);
      if Went(commands, ok, t) then t in r && r[t] == s else (t in r <==> t in m) && (t in r ==> r[t] == m[t])
  {
    if commands != [] {
      var n := |commands| - 1;
      var init := commands[..n];
      RecordedExactly(m, init, ok, t, s);
      if Went(init, ok, t) {
        var i :| 0 <= i < |init| && ok(i) && init[i].kind == t;
        assert commands[i].kind == t;
      }
      if Went(commands, ok, t) && !(ok(n) && commands[n].kind == t) {
        var i :| 0 <= i < |commands| && ok(i) && commands[i].kind == t;
        assert init[i].kind == t;
      }
    }
  }
}
