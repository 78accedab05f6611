/** The simulated actuator: its command handler, its watchdog, and how long a
    contribution can outlive the last command. */
module Watchdog {
  import opened Base
  import opened Heating

  const MULTIPLIER := 3

  /** WatchdogTimeoutSeconds. */
  function Timeout(baseTick: nat): nat { baseTick * MULTIPLIER }

  /** ActuatorNameToMeasurement; a missing key reads as the empty string. */
  function MeasurementOf(name: string): Kind {
    if name == "heater" then "temperature" else if name == "humidifier" then "humidity" else ""
  }

  datatype Beat = Command(at: int, name: string, on: bool) | Tick(at: int)

  /** When the last matching command came, and whether the actuator counts. */
  datatype Watch = Watch(last: int, on: bool)

  predicate Ours(b: Beat, kind: Kind) { b.Command? && MeasurementOf(b.name) == kind }

  function Next(w: Watch, b: Beat, kind: Kind, timeout: int): Watch {
    match b
    case Command(at, _, on) => if Ours(b, kind) then Watch(at, on) else w
    case Tick(at) => if at - w.last >= timeout then w.(on := false) else w
  }

  function After(w: Watch, beats: seq<Beat>, kind: Kind, timeout: int): Watch
    decreases |beats|
  {
    if beats == [] then w else After(Next(w, beats[0], kind, timeout), beats[1..], kind, timeout)
  }

  class ActuatorTask {
    const state: RoomState
    const a: Actuator
    const rate: real
    const timeout: int
    var lastCmd: int

    constructor (s: RoomState, act: Actuator, r: real, w: int, now: int)
      ensures state == s && a == act && rate == r && timeout == w && lastCmd == now
    {
      state, a, rate, timeout, lastCmd := s, act, r, w, now;
    }

    function Abs(): Watch
      reads this, state
    {
      Watch(lastCmd, KeyOf(a) in state.contributions)
    }

    /** The subscription handler; another device type's command is ignored. */
    method OnCommand(now: int, name: string, on: bool)
      modifies this, state`contributions, state`heatInput
      ensures Abs() == Next(old(Abs()), Command(now, name, on), a.kind, timeout)
      ensures state.contributions ==
        if MeasurementOf(name) != a.kind then old(state.contributions)
        else if on then old(state.contributions)[KeyOf(a) := map[a.kind := rate]]
        else old(state.contributions) - {KeyOf(a)}
      ensures old(state.Valid()) ==> state.Valid()
    {
      if MeasurementOf(name) != a.kind { return; }
      if on {
        state.SetContribution(KeyOf(a), map[a.kind := rate]);
      } else {
        state.ClearContribution(KeyOf(a));
      }
      lastCmd := now;
    }

    method OnWatchdog(now: int)
      modifies state`contributions, state`heatInput
      ensures Abs() == Next(old(Abs()), Tick(now), a.kind, timeout)
      ensures state.contributions ==
        if now - lastCmd >= timeout then old(state.contributions) - {KeyOf(a)} else old(state.contributions)
      ensures old(state.Valid()) ==> state.Valid()
    {
      var elapsed := now - lastCmd;
      if elapsed >= timeout { state.ClearContribution(KeyOf(a)); }
    }

    /** The task alone with its room: the contribution is there exactly when
        the value-level watch says so. */
    method Play(beats: seq<Beat>)
      modifies this, state`contributions, state`heatInput
      ensures Abs() == After(old(Abs()), beats, a.kind, timeout)
    {
      for i := 0 to |beats|
        invariant After(old(Abs()), beats, a.kind, timeout) == After(Abs(), beats[i..], a.kind, timeout)
      {
        assert beats[i..][1..] == beats[i + 1..];
        match beats[i]
        case Command(at, name, on) => OnCommand(at, name, on);
        case Tick(at) => OnWatchdog(at);
      }
    }
  }

  lemma {:induction false} AfterConcat(w: Watch, a: seq<Beat>, b: seq<Beat>, kind: Kind, timeout: int)
    ensures After(w, a + b, kind, timeout) == After(After(w, a, kind, timeout), b, kind, timeout)
    decreases |a|
  {
    if a == [] {
      assert a + b == b;
    } else {
      assert (a + b)[1..] == a[1..] + b;
      AfterConcat(Next(w, a[0], kind, timeout), a[1..], b, kind, timeout);
    }
  }

  // ---------------------------------------------------------------------
  // Gone in time
  // ---------------------------------------------------------------------

  predicate Silent(beats: seq<Beat>, kind: Kind) { forall i :: 0 <= i < |beats| ==> !Ours(beats[i], kind) }

  /** Without further commands, a tick late enough clears for good. */
  lemma {:induction false} SilenceClears(w: Watch, beats: seq<Beat>, kind: Kind, timeout: int)
    requires Silent(beats, kind)
    requires !w.on || exists i :: 0 <= i < |beats| && beats[i].Tick? && beats[i].at - w.last >= timeout
    ensures !After(w, beats, kind, timeout).on
    decreases |beats|
  {
    if beats != [] {
      var w' := Next(w, beats[0], kind, timeout);
      if w'.on {
        var i :| 0 <= i < |beats| && beats[i].Tick? && beats[i].at - w.last >= timeout;
        assert beats[1..][i - 1] == beats[i];
      }
      SilenceClears(w', beats[1..], kind, timeout);
    }
  }

  /** The ticker's times: every multiple of the timeout after its start. */
  function TickTime(start: int, timeout: nat, k: nat): int { start + k * timeout }

  /** All ticks due by `now` have been handled. */
  ghost predicate Ticked(beats: seq<Beat>, start: int, timeout: nat, now: int) {
    forall k: nat :: k >= 1 && TickTime(start, timeout, k) <= now ==> Tick(TickTime(start, timeout, k)) in beats
  }

  lemma Multiples(timeout: nat, k: nat)
    ensures k * timeout == timeout * k
    ensures k == 0 ==> k * timeout == 0
    ensures k >= 2 ==> k * timeout >= 2 * timeout
  {
    if k >= 2 { assert k * timeout == 2 * timeout + (k - 2) * timeout; }
  }

  /** Some tick falls at least one and less than two timeouts after `t`. */
  lemma TickBetween(start: int, timeout: nat, t: int) returns (k: nat)
    requires timeout > 0 && start < t + timeout
    ensures k >= 1 && t + timeout <= TickTime(start, timeout, k) < t + 2 * timeout
  {
    var d := t + timeout - start;
    k := (d + timeout - 1) / timeout;
    var r := (d + timeout - 1) % timeout;
    assert d + timeout - 1 == timeout * k + r;
    Multiples(timeout, k);
  }

  /** Watchdog timing: strictly before two timeouts have passed since the last
      command, the contribution is gone. The ticker is started less than one
      timeout after that command, usually long before it. */
  lemma GoneBeforeTwoTimeouts(w: Watch, before: seq<Beat>, c: Beat, after: seq<Beat>, kind: Kind, timeout: nat, start: int, now: int)
    requires timeout > 0 && Ours(c, kind) && Silent(after, kind)
    requires forall i :: 0 <= i < |before| ==> before[i].at <= c.at
    requires start < c.at + timeout && Ticked(before + [c] + after, start, timeout, now)
    requires now >= c.at + 2 * timeout - 1
    ensures !After(w, before + [c] + after, kind, timeout).on
  {
    var k := TickBetween(start, timeout, c.at);
    var t := Tick(TickTime(start, timeout, k));
    assert t in before + [c] + after;
    assert t in after;
    var i :| 0 <= i < |after| && after[i] == t;
    var w0 := After(w, before, kind, timeout);
    AfterConcat(w, before + [c], after, kind, timeout);
    AfterConcat(w, before, [c], kind, timeout);
    assert After(w0, [c], kind, timeout) == Next(w0, c, kind, timeout);
    SilenceClears(Next(w0, c, kind, timeout), after, kind, timeout);
  }

  /** The bound is tight: right after a tick, the contribution outlives its
      command by two timeouts less two units. */
  lemma AlmostTwoTimeouts(start: int, timeout: nat, kind: Kind, c: Beat)
    requires timeout > 1 && Ours(c, kind) && c.on && c.at == start + 1
    ensures Ticked([c, Tick(start + timeout)], start, timeout, c.at + 2 * timeout - 2)
    ensures After(Watch(start, false), [c, Tick(start + timeout)], kind, timeout).on
  {
    var beats, now := [c, Tick(start + timeout)], c.at + 2 * timeout - 2;
    forall k: nat | k >= 1 && TickTime(start, timeout, k) <= now ensures Tick(TickTime(start, timeout, k)) in beats {
      Multiples(timeout, k);
      assert TickTime(start, timeout, 1) == start + timeout;
      assert beats[1] == Tick(start + timeout);
    }
    var w := Next(Watch(start, false), c, kind, timeout);
    assert beats[1..] == [Tick(start + timeout)];
    assert After(w, [Tick(start + timeout)], kind, timeout) == Next(w, Tick(start + timeout), kind, timeout);
  }

  // ---------------------------------------------------------------------
  // Never cleared while fed
  // ---------------------------------------------------------------------

  predicate Ordered(beats: seq<Beat>) { forall i, j :: 0 <= i < j < |beats| ==> beats[i].at <= beats[j].at }

  /** Each matching command comes less than one timeout after the one before
      it (the first, after `last`), and the run ends with one. */
  predicate Fed(last: int, beats: seq<Beat>, kind: Kind, timeout: int)
    decreases |beats|
  {
    beats != [] ==>
      && Ours(beats[|beats| - 1], kind)
      && if Ours(beats[0], kind) then beats[0].at - last < timeout && Fed(beats[0].at, beats[1..], kind, timeout)
         else Fed(last, beats[1..], kind, timeout)
  }

  function OnlyCommands(): Beat -> bool { (b: Beat) => b.Command? }

  lemma {:induction false} NextCommandSoon(last: int, beats: seq<Beat>, kind: Kind, timeout: int) returns (i: nat)
    requires beats != [] && Fed(last, beats, kind, timeout)
    ensures i < |beats| && Ours(beats[i], kind) && beats[i].at - last < timeout
    decreases |beats|
  {
    if Ours(beats[0], kind) {
      i := 0;
    } else {
      i := NextCommandSoon(last, beats[1..], kind, timeout);
      i := i + 1;
    }
  }

  /** While gaps between commands stay below the timeout, the watchdog changes
      nothing: at every moment the actuator is as its commands alone say. */
  lemma {:induction false} NeverClearedWhileFed(w: Watch, beats: seq<Beat>, kind: Kind, timeout: int, j: nat)
    requires Ordered(beats) && Fed(w.last, beats, kind, timeout) && j <= |beats|
    ensures After(w, beats[..j], kind, timeout) == After(w, Filter(beats[..j], OnlyCommands()), kind, timeout)
    decreases |beats|
  {
    if j > 0 {
      var b, w' := beats[0], Next(w, beats[0], kind, timeout);
      var i := NextCommandSoon(w.last, beats, kind, timeout);
      assert b.at <= beats[i].at;
      assert beats[..j][1..] == beats[1..][..j - 1];
      NeverClearedWhileFed(w', beats[1..], kind, timeout, j - 1);
      var kept := Filter(beats[1..][..j - 1], OnlyCommands());
      if b.Command? { assert ([b] + kept)[1..] == kept; } else { assert w' == w; }
    }
  }

  // ---------------------------------------------------------------------
  // In control ticks
  // ---------------------------------------------------------------------

  lemma {:induction false} FedLonger(last: int, beats: seq<Beat>, kind: Kind, timeout: int, longer: int)
    requires Fed(last, beats, kind, timeout) && timeout <= longer
    ensures Fed(last, beats, kind, longer)
    decreases |beats|
  {
    if beats != [] {
      FedLonger(if Ours(beats[0], kind) then beats[0].at else last, beats[1..], kind, timeout, longer);
    }
  }

  /** With the configured timeout, a command lost now and then does no harm: as
      long as some command comes within any two control ticks, the watchdog
      changes nothing. */
  lemma LostCommandTolerated(w: Watch, beats: seq<Beat>, kind: Kind, baseTick: nat, j: nat)
    requires baseTick > 0 && Ordered(beats) && Fed(w.last, beats, kind, 2 * baseTick + 1) && j <= |beats|
    ensures After(w, beats[..j], kind, Timeout(baseTick)) == After(w, Filter(beats[..j], OnlyCommands()), kind, Timeout(baseTick))
  {
    FedLonger(w.last, beats, kind, 2 * baseTick + 1, Timeout(baseTick));
    NeverClearedWhileFed(w, beats, kind, Timeout(baseTick), j);
  }

  /** And a control service that falls silent is answered before six of its
      ticks have passed. */
  lemma SilenceAnswered(w: Watch, before: seq<Beat>, c: Beat, after: seq<Beat>, kind: Kind, baseTick: nat, start: int, now: int)
    requires baseTick > 0 && Ours(c, kind) && Silent(after, kind)
    requires forall i :: 0 <= i < |before| ==> before[i].at <= c.at
    requires start < c.at + Timeout(baseTick) && Ticked(before + [c] + after, start, Timeout(baseTick), now)
    requires now >= c.at + 6 * baseTick - 1
    ensures !After(w, before + [c] + after, kind, Timeout(baseTick)).on
  {
    GoneBeforeTwoTimeouts(w, before, c, after, kind, Timeout(baseTick), start, now);
  }
}
