/** Controller and plant in a loop: how far the temperature can leave the band
    around the target. */
module ClosedLoop {
  import opened Base
  import opened Cache
  import opened Control
  import opened Ingestion
  import opened Plant

  const TEMP := "temperature"

  /** A room with one thermometer and one heater under AUTO control. */
  datatype Setup = Setup(
    m: MeasurementConfig, dt: real, ambient: real, power: real, target: real, deadband: real, stale: int)

  /** When a round's reading is stamped and when its tick runs. */
  datatype Round = Round(ts: int, now: int)

  datatype Loop = Loop(x: real, on: bool, history: seq<Reading>)

  function HeatOf(p: Setup, on: bool): real { if on then p.power else 0.0 }

  /** One round: advance the room, ingest the reading, tick. The tick decides
      on the trimmed buffer; its command is delivered. */
  function Next(p: Setup, s: Loop, r: Round): Loop {
    var x := Clamp(TEMP, After(p.m, s.x, p.ambient, HeatOf(p, s.on), p.dt));
    var history := s.history + [Reading(x, r.ts)];
    Loop(x, Decide(Some(p.target), FreshMean(Buffer(history, p.stale), r.now, p.stale), p.deadband, s.on), history)
  }

  function Exec(p: Setup, s: Loop, rounds: seq<Round>): Loop {
    if rounds == [] then s else Next(p, Exec(p, s, rounds[..|rounds| - 1]), rounds[|rounds| - 1])
  }

  /** Timestamps in order, ticks at or after the readings they follow and no
      more than the threshold after. */
  ghost predicate WellTimed(p: Setup, rounds: seq<Round>) {
    && (forall i, j :: 0 <= i < j < |rounds| ==> rounds[i].ts <= rounds[j].ts)
    && (forall i :: 0 <= i < |rounds| ==> rounds[i].ts <= rounds[i].now <= rounds[i].ts + p.stale)
  }

  /** At every tick at most the last `w` readings are fresh. */
  ghost predicate FreshAtMost(p: Setup, rounds: seq<Round>, w: nat) {
    forall i, j :: 0 <= j && j + w <= i < |rounds| ==> rounds[i].now - rounds[j].ts > p.stale
  }

  /** The band is reachable: ambient does not exceed its top, and the heater's
      equilibrium is not below its bottom. */
  predicate Controllable(p: Setup) {
    && Stable(p.m, p.dt) && p.deadband >= 0.0
    && p.ambient <= p.target + p.deadband
    && Equilibrium(p.m, p.ambient, p.power) >= p.target - p.deadband
  }

  predicate AtMost(d: real, step: real) { -step <= d <= step }

  /** No step of the run changes the temperature by more than `step`. */
  ghost predicate SmallSteps(p: Setup, s: Loop, rounds: seq<Round>, step: real) {
    forall i :: 0 <= i < |rounds| ==>
      AtMost(Exec(p, s, rounds[..i + 1]).x - Exec(p, s, rounds[..i]).x, step)
  }

  // ---------------------------------------------------------------------
  // Averages of uniformly high or low readings
  // ---------------------------------------------------------------------

  lemma {:induction false} SumBeyond(s: seq<real>, b: real)
    ensures s != [] && (forall i :: 0 <= i < |s| ==> s[i] > b) ==> Sum(s) > b * (|s| as real)
    ensures s != [] && (forall i :: 0 <= i < |s| ==> s[i] < b) ==> Sum(s) < b * (|s| as real)
  {
    if |s| > 1 {
      var init := s[..|s| - 1];
      SumBeyond(init, b);
      assert b * (|s| as real) == b * (|init| as real) + b;
    }
  }

  lemma MeanBeyond(rs: seq<Reading>, b: real)
    requires rs != []
    ensures (forall i :: 0 <= i < |rs| ==> rs[i].value > b) ==> Mean(rs).value.mean > b
    ensures (forall i :: 0 <= i < |rs| ==> rs[i].value < b) ==> Mean(rs).value.mean < b
  {
    var s := Map(rs, ValueOf);
    SumBeyond(s, b);
    QuotientBeyond(Sum(s), |rs| as real, b);
  }

  lemma QuotientBeyond(a: real, n: real, b: real)
    requires n > 0.0
    ensures a > b * n ==> a / n > b
    ensures a < b * n ==> a / n < b
  {
    var d := a / n - b;
    assert d * n == a - b * n;
    NotPositive(d, n);
    NotPositive(-d, n);
  }

  // ---------------------------------------------------------------------
  // Streaks outside the band
  // ---------------------------------------------------------------------

  predicate TooHigh(p: Setup, v: real) { v > p.target + p.deadband }
  predicate TooLow(p: Setup, v: real) { v < p.target - p.deadband }

  /** How many of the last readings, counted back from the newest, lie above
      the band, or below it. */
  function Streak(p: Setup, h: seq<Reading>, high: bool): nat {
    if h == [] || !Outside(p, h[|h| - 1].value, high) then 0 else Streak(p, h[..|h| - 1], high) + 1
  }

  predicate Outside(p: Setup, v: real, high: bool) { if high then TooHigh(p, v) else TooLow(p, v) }

  lemma {:induction false} StreakReadings(p: Setup, h: seq<Reading>, high: bool)
    ensures Streak(p, h, high) <= |h|
    ensures forall i :: |h| - Streak(p, h, high) <= i < |h| ==> Outside(p, h[i].value, high)
  {
    if h != [] && Outside(p, h[|h| - 1].value, high) {
      StreakReadings(p, h[..|h| - 1], high);
    }
  }

  /** The history as far as timing goes. */
  ghost predicate Stamped(h: seq<Reading>, rounds: seq<Round>) {
    |h| == |rounds| && forall i :: 0 <= i < |h| ==> h[i].ts == rounds[i].ts
  }

  lemma FreshOutside(p: Setup, h: seq<Reading>, rounds: seq<Round>, w: nat, high: bool)
    requires rounds != [] && Stamped(h, rounds) && WellTimed(p, rounds) && FreshAtMost(p, rounds, w)
    requires Streak(p, h, high) >= w
    ensures var rs := Fresh(h, rounds[|rounds| - 1].now, p.stale);
      rs != [] && forall i :: 0 <= i < |rs| ==> Outside(p, rs[i].value, high)
  {
    var n := |h| - 1;
    var now := rounds[n].now;
    var recent := Fresh(h, now, p.stale);
    FilterMembers(h, r => IsFresh(r, now, p.stale));
    assert IsFresh(h[n], now, p.stale);
    assert h[n] in recent;
    StreakReadings(p, h, high);
    forall i | 0 <= i < |recent| ensures Outside(p, recent[i].value, high) {
      var j :| 0 <= j < |h| && h[j] == recent[i];
      assert j + w > n;
    }
  }

  lemma MeanDecides(p: Setup, rs: seq<Reading>, high: bool, on: bool)
    requires p.deadband >= 0.0
    requires rs != [] && forall i :: 0 <= i < |rs| ==> Outside(p, rs[i].value, high)
    ensures Decide(Some(p.target), Mean(rs), p.deadband, on) == !high
  {
    MeanBeyond(rs, p.target + p.deadband);
    MeanBeyond(rs, p.target - p.deadband);
  }

  /** Once the last `w` readings lie on one side, the tick drives the room
      back: heater off above the band, on below it. */
  lemma StreakDecides(p: Setup, h: seq<Reading>, rounds: seq<Round>, w: nat, high: bool, on: bool)
    requires rounds != [] && Stamped(h, rounds) && WellTimed(p, rounds) && FreshAtMost(p, rounds, w)
    requires Streak(p, h, high) >= w && p.deadband >= 0.0
    ensures Decide(Some(p.target), FreshMean(Buffer(h, p.stale), rounds[|rounds| - 1].now, p.stale), p.deadband, on) == !high
  {
    var now := rounds[|rounds| - 1].now;
    TrimmingInvisible(h, now, p.stale);
    FreshOutside(p, h, rounds, w, high);
    MeanDecides(p, Fresh(h, now, p.stale), high, on);
  }

  // ---------------------------------------------------------------------
  // The bound
  // ---------------------------------------------------------------------

  function Times(a: real, b: real): real { a * b }

  function Least(k: nat, w: nat): nat { if k < w then k else w }

  /** How far out a streak of `k` can have led. */
  function Reach(k: nat, w: nat, step: real): real { Times(Least(k, w) as real, step) }

  lemma ReachGrows(k: nat, w: nat, step: real)
    requires step >= 0.0
    ensures Reach(k, w, step) >= 0.0 && Reach(k, w, step) <= Times(w as real, step)
    ensures k < w ==> Reach(k + 1, w, step) == Reach(k, w, step) + step
    ensures k >= w ==> Reach(k + 1, w, step) == Reach(k, w, step)
  {
    assert ((w - Least(k, w)) as real) * step >= 0.0;
    assert (w as real) * step - Reach(k, w, step) == ((w - Least(k, w)) as real) * step;
  }

  /** The loop invariant of the closed loop. */
  ghost predicate Held(p: Setup, s: Loop, w: nat, step: real) {
    && Within(TEMP, s.x)
    && (s.history != [] ==> s.x == s.history[|s.history| - 1].value)
    && s.x <= p.target + p.deadband + Reach(Streak(p, s.history, true), w, step)
    && s.x >= p.target - p.deadband - Reach(Streak(p, s.history, false), w, step)
    && (s.history != [] && Streak(p, s.history, true) >= w ==> !s.on)
    && (s.history != [] && Streak(p, s.history, false) >= w ==> s.on)
  }

  /** With the heater off the room does not warm beyond ambient; with it on it
      does not cool below the heater's equilibrium. */
  lemma Returns(p: Setup, x: real, on: bool)
    requires Stable(p.m, p.dt) && Within(TEMP, x)
    ensures var y := Clamp(TEMP, After(p.m, x, p.ambient, HeatOf(p, on), p.dt));
      && Within(TEMP, y)
      && (!on && x >= p.ambient ==> y <= x)
      && (on && x <= Equilibrium(p.m, p.ambient, p.power) ==> y >= x)
  {
    var eq, y := Equilibrium(p.m, p.ambient, HeatOf(p, on)), After(p.m, x, p.ambient, HeatOf(p, on), p.dt);
    StepTowards(p.m, x, p.ambient, HeatOf(p, on), p.dt);
    DecayUnit(p.m, p.dt);
    Closer(x, y, eq, Decay(p.m, p.dt));
  }

  lemma PrefixTimed(p: Setup, rounds: seq<Round>, w: nat)
    requires rounds != [] && WellTimed(p, rounds) && FreshAtMost(p, rounds, w)
    ensures WellTimed(p, rounds[..|rounds| - 1]) && FreshAtMost(p, rounds[..|rounds| - 1], w)
  {
  }

  lemma LastStepSmall(p: Setup, s: Loop, rounds: seq<Round>, step: real)
    requires rounds != [] && SmallSteps(p, s, rounds, step)
    ensures var n := |rounds| - 1;
      AtMost(Next(p, Exec(p, s, rounds[..n]), rounds[n]).x - Exec(p, s, rounds[..n]).x, step)
  {
    var n := |rounds| - 1;
    assert rounds[..n + 1] == rounds;
    assert AtMost(Exec(p, s, rounds[..n + 1]).x - Exec(p, s, rounds[..n]).x, step);
  }

  lemma {:induction false} LoopHeld(p: Setup, s: Loop, rounds: seq<Round>, w: nat, step: real)
    requires Controllable(p) && w > 0 && step >= 0.0
    requires s.history == [] && Within(TEMP, s.x) && p.target - p.deadband <= s.x <= p.target + p.deadband
    requires WellTimed(p, rounds) && FreshAtMost(p, rounds, w) && SmallSteps(p, s, rounds, step)
    ensures Held(p, Exec(p, s, rounds), w, step) && Stamped(Exec(p, s, rounds).history, rounds)
  {
    if rounds == [] {
      ReachGrows(0, w, step);
    } else {
      var n := |rounds| - 1;
      PrefixSteps(p, s, rounds, step);
      PrefixTimed(p, rounds, w);
      LoopHeld(p, s, rounds[..n], w, step);
      LastStepSmall(p, s, rounds, step);
      RoundHeld(p, Exec(p, s, rounds[..n]), rounds, w, step);
    }
  }

  lemma PrefixSteps(p: Setup, s: Loop, rounds: seq<Round>, step: real)
    requires rounds != [] && SmallSteps(p, s, rounds, step)
    ensures SmallSteps(p, s, rounds[..|rounds| - 1], step)
  {
    var init := rounds[..|rounds| - 1];
    forall i | 0 <= i < |init|
      ensures AtMost(Exec(p, s, init[..i + 1]).x - Exec(p, s, init[..i]).x, step)
    {
      assert init[..i + 1] == rounds[..i + 1] && init[..i] == rounds[..i];
    }
  }

  lemma RoundHeld(p: Setup, s: Loop, rounds: seq<Round>, w: nat, step: real)
    requires Controllable(p) && w > 0 && step >= 0.0 && rounds != []
    requires Held(p, s, w, step) && Stamped(s.history, rounds[..|rounds| - 1])
    requires WellTimed(p, rounds) && FreshAtMost(p, rounds, w)
    requires AtMost(Next(p, s, rounds[|rounds| - 1]).x - s.x, step)
    ensures Held(p, Next(p, s, rounds[|rounds| - 1]), w, step) && Stamped(Next(p, s, rounds[|rounds| - 1]).history, rounds)
  {
    var r := rounds[|rounds| - 1];
    var s' := Next(p, s, r);
    var h := s'.history;
    assert h[..|h| - 1] == s.history;
    Returns(p, s.x, s.on);
    SideHeld(p, s, s', w, step, true);
    SideHeld(p, s, s', w, step, false);
    if Streak(p, h, true) >= w { StreakDecides(p, h, rounds, w, true, s.on); }
    if Streak(p, h, false) >= w { StreakDecides(p, h, rounds, w, false, s.on); }
  }

  /** One side of the band, for one round. */
  lemma SideHeld(p: Setup, s: Loop, s': Loop, w: nat, step: real, high: bool)
    requires Controllable(p) && w > 0 && step >= 0.0 && Held(p, s, w, step)
    requires s'.history != [] && s'.history[..|s'.history| - 1] == s.history && s'.history[|s'.history| - 1].value == s'.x
    requires AtMost(s'.x - s.x, step)
    requires !s.on && s.x >= p.ambient ==> s'.x <= s.x
    requires s.on && s.x <= Equilibrium(p.m, p.ambient, p.power) ==> s'.x >= s.x
    ensures high ==> s'.x <= p.target + p.deadband + Reach(Streak(p, s'.history, true), w, step)
    ensures !high ==> s'.x >= p.target - p.deadband - Reach(Streak(p, s'.history, false), w, step)
  {
    var k := Streak(p, s.history, high);
    ReachGrows(k, w, step);
    ReachGrows(0, w, step);
    if Outside(p, s'.x, high) {
      assert Streak(p, s'.history, high) == k + 1;
      if k >= w { StreakReadings(p, s.history, high); }
    }
  }

  /** Closed-loop bound: with at most `w` fresh readings per tick and steps of
      at most `step`, a room that starts within the band never leaves it by
      more than `w` steps, however long the run. */
  lemma ClosedLoopBound(p: Setup, s: Loop, rounds: seq<Round>, w: nat, step: real)
    requires Controllable(p) && w > 0 && step >= 0.0
    requires s.history == [] && Within(TEMP, s.x) && p.target - p.deadband <= s.x <= p.target + p.deadband
    requires WellTimed(p, rounds) && FreshAtMost(p, rounds, w) && SmallSteps(p, s, rounds, step)
    ensures var out := Times(w as real, step);
      p.target - p.deadband - out <= Exec(p, s, rounds).x <= p.target + p.deadband + out
  {
    LoopHeld(p, s, rounds, w, step);
    ReachGrows(Streak(p, Exec(p, s, rounds).history, true), w, step);
    ReachGrows(Streak(p, Exec(p, s, rounds).history, false), w, step);
  }

  // ---------------------------------------------------------------------
  // The bound in numbers
  // ---------------------------------------------------------------------

  /** The largest change one step can make: the share dt*c/m of the distance
      between a temperature within bounds and an equilibrium. */
  function LargestStep(p: Setup): real
    requires p.m.thermalMass != 0.0 && p.m.conductance != 0.0
  {
    Times(Rate(p.m, p.dt), Larger(Farthest(p.ambient), Farthest(Equilibrium(p.m, p.ambient, p.power))))
  }

  /** The distance from `eq` to the farther of the two bounds. */
  function Farthest(eq: real): real { Larger(Larger(eq - Low(TEMP), Low(TEMP) - eq), Larger(eq - High(TEMP), High(TEMP) - eq)) }

  lemma RateTimes(r: real, d: real, span: real, most: real)
    requires r >= 0.0 && AtMost(d, span) && most == Times(r, span)
    ensures AtMost(r * d, most)
  {
    assert r * (span - d) >= 0.0 && r * (span + d) >= 0.0;
    assert r * (span - d) == r * span - r * d && r * (span + d) == r * span + r * d;
  }

  /** Going on by the share `r` of a distance of at most `span`. */
  lemma ShareMoves(x: real, y: real, eq: real, b: real, r: real, span: real, most: real)
    requires Share(y, b, x, eq) && b == 1.0 - r && r >= 0.0 && AtMost(Above(x, eq), span) && most == Times(r, span)
    ensures AtMost(y - x, most)
  {
    var d := Above(x, eq);
    RateTimes(r, d, span, most);
    Distribute(r, d);
    assert Above(y, eq) == d - r * d;
  }

  lemma StepAtMost(p: Setup, x: real, on: bool)
    requires Stable(p.m, p.dt) && Within(TEMP, x)
    ensures AtMost(Clamp(TEMP, After(p.m, x, p.ambient, HeatOf(p, on), p.dt)) - x, LargestStep(p))
  {
    var eq, y := Equilibrium(p.m, p.ambient, HeatOf(p, on)), After(p.m, x, p.ambient, HeatOf(p, on), p.dt);
    var span := Larger(Farthest(p.ambient), Farthest(Equilibrium(p.m, p.ambient, p.power)));
    StepTowards(p.m, x, p.ambient, HeatOf(p, on), p.dt);
    Quotient(p.dt * p.m.conductance, p.m.thermalMass);
    assert AtMost(Above(x, eq), span);
    ShareMoves(x, y, eq, Decay(p.m, p.dt), Rate(p.m, p.dt), span, LargestStep(p));
  }

  lemma {:induction false} LoopWithin(p: Setup, s: Loop, rounds: seq<Round>)
    requires Within(TEMP, s.x)
    ensures Within(TEMP, Exec(p, s, rounds).x)
  {
    if rounds != [] { LoopWithin(p, s, rounds[..|rounds| - 1]); }
  }

  lemma AllStepsSmall(p: Setup, s: Loop, rounds: seq<Round>)
    requires Stable(p.m, p.dt) && Within(TEMP, s.x)
    ensures SmallSteps(p, s, rounds, LargestStep(p)) && LargestStep(p) >= 0.0
  {
    StepAtMost(p, s.x, s.on);
    forall i | 0 <= i < |rounds|
      ensures AtMost(Exec(p, s, rounds[..i + 1]).x - Exec(p, s, rounds[..i]).x, LargestStep(p))
    {
      var before := Exec(p, s, rounds[..i]);
      LoopWithin(p, s, rounds[..i]);
      assert rounds[..i + 1][..i] == rounds[..i];
      StepAtMost(p, before.x, before.on);
    }
  }

  /** The bound with nothing assumed about the run but its timing. */
  lemma ClosedLoopBoundInNumbers(p: Setup, s: Loop, rounds: seq<Round>, w: nat)
    requires Controllable(p) && w > 0
    requires s.history == [] && Within(TEMP, s.x) && p.target - p.deadband <= s.x <= p.target + p.deadband
    requires WellTimed(p, rounds) && FreshAtMost(p, rounds, w)
    ensures var out := Times(w as real, LargestStep(p));
      p.target - p.deadband - out <= Exec(p, s, rounds).x <= p.target + p.deadband + out
  {
    AllStepsSmall(p, s, rounds);
    ClosedLoopBound(p, s, rounds, w, LargestStep(p));
  }

  /** Rounds at least `gap` apart, with `w` gaps longer than the threshold,
      leave at most `w` readings fresh. */
  lemma SpacedRoundsFresh(p: Setup, rounds: seq<Round>, gap: nat, w: nat)
    requires WellTimed(p, rounds) && w * gap > p.stale
    requires forall i :: 0 <= i && i + 1 < |rounds| ==> rounds[i].ts + gap <= rounds[i + 1].ts
    ensures FreshAtMost(p, rounds, w)
  {
    forall i, j | 0 <= j && j + w <= i < |rounds| ensures rounds[i].now - rounds[j].ts > p.stale {
      Spread(rounds, gap, j, w);
      assert j + w == i || rounds[j + w].ts <= rounds[i].ts;
    }
  }

  lemma {:induction false} Spread(rounds: seq<Round>, gap: nat, j: nat, w: nat)
    requires j + w < |rounds|
    requires forall i :: 0 <= i && i + 1 < |rounds| ==> rounds[i].ts + gap <= rounds[i + 1].ts
    ensures rounds[j].ts + w * gap <= rounds[j + w].ts
  {
    if w > 0 {
      Spread(rounds, gap, j, w - 1);
      assert w * gap == (w - 1) * gap + gap;
      assert rounds[j + w - 1].ts + gap <= rounds[j + w - 1 + 1].ts;
    }
  }
}
