/** The simulated environment: one step of the model, clamping, and what many
    steps converge to. */
module Plant {
  import opened Base
  import opened Heating

  datatype MeasurementConfig = MeasurementConfig(base: real, thermalMass: real, conductance: real)

  /** MeasurementBounds. */
  predicate Bounded(t: Kind) { t == "temperature" || t == "humidity" }
  function Low(t: Kind): real { if t == "temperature" then 5.0 else 0.0 }
  function High(t: Kind): real { if t == "temperature" then 40.0 else 100.0 }

  function Clamp(t: Kind, v: real): real {
    if !Bounded(t) then v else if v < Low(t) then Low(t) else if v > High(t) then High(t) else v
  }

  /** The change of one measurement over `dt` simulated seconds, without
      noise: heat in, minus what is lost towards the ambient value. */
  function Delta(m: MeasurementConfig, x: real, ambient: real, heat: real, dt: real): real {
    if m.thermalMass == 0.0 then 0.0
    else (heat * dt - m.conductance * (x - ambient) * dt) / m.thermalMass
  }

  function DeltaOf(model: map<Kind, MeasurementConfig>, s: RoomState, t: Kind, dt: real): real
    requires t in s.current
    reads s
  {
    if t !in model then 0.0
    else Delta(model[t], s.current[t], RateOf(s.ambient, t), RateOf(s.heatInput, t), dt)
  }

  /** The model's Advance, over the current map in any order. */
  method Advance(model: map<Kind, MeasurementConfig>, s: RoomState, dt: real) returns (deltas: map<Kind, real>)
    ensures deltas.Keys == s.current.Keys
    ensures forall t :: t in deltas ==> deltas[t] == DeltaOf(model, s, t, dt)
  {
    deltas := map[];
    var todo := s.current.Keys;
    while todo != {}
      invariant todo <= s.current.Keys && deltas.Keys == s.current.Keys - todo
      invariant forall t :: t in deltas ==> deltas[t] == DeltaOf(model, s, t, dt)
      decreases |todo|
    {
      var t :| t in todo;
      todo := todo - {t};
      if t !in model || model[t].thermalMass == 0.0 {
        deltas := deltas[t := 0.0];
        continue;
      }
      var energyInput := RateOf(s.heatInput, t) * dt;
      var passiveLoss := model[t].conductance * (s.current[t] - RateOf(s.ambient, t)) * dt;
      deltas := deltas[t := (energyInput - passiveLoss) / model[t].thermalMass];
    }
  }

  method AdvanceRoom(model: map<Kind, MeasurementConfig>, s: RoomState, dt: real)
    modifies s`current
    ensures s.current.Keys == old(s.current.Keys)
    ensures forall t :: t in s.current ==> s.current[t] == Clamp(t, old(s.current[t]) + old(DeltaOf(model, s, t, dt)))
    ensures forall t :: t in s.current && Bounded(t) ==> Low(t) <= s.current[t] <= High(t)
  {
    var deltas := Advance(model, s, dt);
    var todo := deltas.Keys;
    while todo != {}
      invariant todo <= deltas.Keys && s.current.Keys == old(s.current.Keys)
      invariant forall t :: t in s.current ==>
        s.current[t] == if t in todo then old(s.current[t]) else Clamp(t, old(s.current[t]) + deltas[t])
      decreases |todo|
    {
      var t :| t in todo;
      todo := todo - {t};
      var v := s.current[t] + deltas[t];
      if Bounded(t) {
        if v < Low(t) { v := Low(t); } else if v > High(t) { v := High(t); }
      }
      s.current := s.current[t := v];
    }
  }

  // ---------------------------------------------------------------------
  // Many steps under constant heat
  // ---------------------------------------------------------------------

  /** Parameters for which the model is a stable first-order lag. */
  predicate Stable(m: MeasurementConfig, dt: real) {
    m.thermalMass > 0.0 && m.conductance > 0.0 && dt > 0.0 && Rate(m, dt) <= 1.0
  }

  /** dt * c / m: the share of the distance to equilibrium closed per step. */
  function Rate(m: MeasurementConfig, dt: real): real
    requires m.thermalMass != 0.0
  {
    dt * m.conductance / m.thermalMass
  }

  function Equilibrium(m: MeasurementConfig, ambient: real, heat: real): real
    requires m.conductance != 0.0
  {
    ambient + heat / m.conductance
  }

  /** `n` advances, clamped, with constant heat input. */
  function Evolve(t: Kind, m: MeasurementConfig, x: real, ambient: real, heat: real, dt: real, n: nat): real {
    if n == 0 then x
    else
      var before := Evolve(t, m, x, ambient, heat, dt, n - 1);
      Clamp(t, before + Delta(m, before, ambient, heat, dt))
  }

  function Pow(b: real, n: nat): real { if n == 0 then 1.0 else Pow(b, n - 1) * b }

  /** The signed distance of `x` above `eq`. */
  function Above(x: real, eq: real): real { x - eq }

  /** The share of that distance one step leaves. */
  function Decay(m: MeasurementConfig, dt: real): real
    requires m.thermalMass != 0.0
  {
    1.0 - Rate(m, dt)
  }

  /** `y` is as far from `eq` as `x` is, times `p`, on the same side. */
  predicate Share(y: real, p: real, x: real, eq: real) { Above(y, eq) == p * Above(x, eq) }

  function After(m: MeasurementConfig, x: real, ambient: real, heat: real, dt: real): real {
    x + Delta(m, x, ambient, heat, dt)
  }

  /** One step leaves the fraction Decay of the distance to equilibrium. */
  lemma StepTowards(m: MeasurementConfig, x: real, ambient: real, heat: real, dt: real)
    requires m.thermalMass != 0.0 && m.conductance != 0.0
    ensures var eq := Equilibrium(m, ambient, heat);
      Share(After(m, x, ambient, heat, dt), Decay(m, dt), x, eq)
  {
    var c, M, u := m.conductance, m.thermalMass, heat / m.conductance;
    assert heat == c * u;
    var y := x - ambient;
    assert heat * dt - c * y * dt == dt * c * (u - y) by {
      assert heat * dt == c * u * dt;
      assert dt * c * (u - y) == dt * c * u - dt * c * y;
    }
    DivAssoc(dt * c, u - y, M);
    assert Delta(m, x, ambient, heat, dt) == Rate(m, dt) * (u - y);
    assert Above(x, Equilibrium(m, ambient, heat)) == y - u;
    Distribute(Rate(m, dt), y - u);
  }

  lemma DivAssoc(a: real, b: real, d: real)
    requires d != 0.0
    ensures a * b / d == a / d * b
  {
    var q := a / d;
    assert a == q * d;
    assert a * b == q * b * d;
  }

  lemma Distribute(r: real, z: real)
    ensures (1.0 - r) * z == z - r * z
  {
  }

  lemma NonNegative(a: real, b: real)
    requires a >= 0.0 && b >= 0.0
    ensures a * b >= 0.0
  {
  }

  lemma ProductsUp(d: real, dy: real, dz: real, p: real, q: real)
    requires 0.0 <= q <= p <= 1.0 && d >= 0.0 && dy == p * d && dz == q * d
    ensures 0.0 <= dz <= dy <= d
  {
    NonNegative(q, d);
    NonNegative(p - q, d);
    assert dy - dz == (p - q) * d;
    NonNegative(1.0 - p, d);
    assert d - dy == (1.0 - p) * d;
  }

  lemma Products(d: real, dy: real, dz: real, p: real, q: real)
    requires 0.0 <= q <= p <= 1.0 && dy == p * d && dz == q * d
    ensures d >= 0.0 ==> 0.0 <= dz <= dy <= d
    ensures d <= 0.0 ==> d <= dy <= dz <= 0.0
  {
    if d >= 0.0 {
      ProductsUp(d, dy, dz, p, q);
    } else {
      assert -dy == p * -d && -dz == q * -d;
      ProductsUp(-d, -dy, -dz, p, q);
    }
  }

  lemma {:induction false} PowUnit(b: real, n: nat)
    requires 0.0 <= b <= 1.0
    ensures 0.0 <= Pow(b, n + 1) <= Pow(b, n) <= 1.0
  {
    if n > 0 { PowUnit(b, n - 1); }
    assert Pow(b, n + 1) == b * Pow(b, n);
    Products(Pow(b, n), Pow(b, n + 1), Pow(b, n + 1), b, b);
  }

  lemma PowStep(b: real, n: nat, z: real)
    ensures b * (Pow(b, n) * z) == Pow(b, n + 1) * z
  {
    var p := Pow(b, n);
    assert b * (p * z) == p * b * z;
  }

  lemma Chain(b: real, n: nat, x: real, before: real, after: real, eq: real)
    requires n > 0 && Share(before, Pow(b, n - 1), x, eq) && Share(after, b, before, eq)
    ensures Share(after, Pow(b, n), x, eq)
  {
    PowStep(b, n - 1, Above(x, eq));
  }

  predicate Within(t: Kind, v: real) { Bounded(t) ==> Low(t) <= v <= High(t) }
  predicate Between(x: real, v: real, y: real) { x <= v <= y || y <= v <= x }

  /** Between two values within bounds there is nothing to clamp. */
  lemma BetweenWithin(t: Kind, x: real, v: real, eq: real)
    requires Within(t, x) && Within(t, eq) && Between(x, v, eq)
    ensures Within(t, v) && Clamp(t, v) == v
  {
  }

  lemma NotPositive(q: real, d: real)
    requires d > 0.0
    ensures q <= 0.0 ==> q * d <= 0.0
  {
    if q <= 0.0 { assert (-q) * d >= 0.0; }
  }

  lemma Quotient(a: real, d: real)
    requires a > 0.0 && d > 0.0
    ensures a / d > 0.0
  {
    var q := a / d;
    assert q * d == a;
    NotPositive(q, d);
  }

  lemma DecayUnit(m: MeasurementConfig, dt: real)
    requires Stable(m, dt)
    ensures 0.0 <= Decay(m, dt) < 1.0
  {
    Quotient(dt * m.conductance, m.thermalMass);
  }

  lemma Closer(x: real, y: real, eq: real, b: real)
    requires 0.0 <= b <= 1.0 && Share(y, b, x, eq)
    ensures Between(x, y, eq)
  {
    Products(Above(x, eq), Above(y, eq), Above(y, eq), b, b);
  }

  lemma CloserStill(x: real, y: real, z: real, eq: real, p: real, q: real)
    requires 0.0 <= q <= p <= 1.0 && Share(y, p, x, eq) && Share(z, q, x, eq)
    ensures if x >= eq then eq <= z <= y <= x else x <= y <= z <= eq
  {
    Products(Above(x, eq), Above(y, eq), Above(z, eq), p, q);
  }

  /** Within bounds a step needs no clamping and stays within bounds. */
  lemma StepStays(t: Kind, m: MeasurementConfig, x: real, ambient: real, heat: real, dt: real)
    requires Stable(m, dt) && Within(t, x) && Within(t, Equilibrium(m, ambient, heat))
    ensures var eq, y := Equilibrium(m, ambient, heat), After(m, x, ambient, heat, dt);
      Clamp(t, y) == y && Within(t, y) && Share(y, Decay(m, dt), x, eq)
  {
    var eq, y := Equilibrium(m, ambient, heat), After(m, x, ambient, heat, dt);
    StepTowards(m, x, ambient, heat, dt);
    DecayUnit(m, dt);
    Closer(x, y, eq, Decay(m, dt));
    BetweenWithin(t, x, y, eq);
  }

  /** Thermal convergence: with start and equilibrium within bounds, clamping
      never fires and the distance to equilibrium shrinks by exactly the
      factor 1 - dt*c/m per step. */
  lemma {:induction false} Converges(t: Kind, m: MeasurementConfig, x: real, ambient: real, heat: real, dt: real, n: nat)
    requires Stable(m, dt) && Within(t, x) && Within(t, Equilibrium(m, ambient, heat))
    ensures var eq, y := Equilibrium(m, ambient, heat), Evolve(t, m, x, ambient, heat, dt, n);
      && Share(y, Pow(Decay(m, dt), n), x, eq)
      && Within(t, y)
      && (n > 0 ==> y == After(m, Evolve(t, m, x, ambient, heat, dt, n - 1), ambient, heat, dt))
  {
    var eq, b := Equilibrium(m, ambient, heat), Decay(m, dt);
    if n > 0 {
      Converges(t, m, x, ambient, heat, dt, n - 1);
      var before := Evolve(t, m, x, ambient, heat, dt, n - 1);
      StepStays(t, m, before, ambient, heat, dt);
      Chain(b, n, x, before, After(m, before, ambient, heat, dt), eq);
    } else {
      assert Pow(b, 0) == 1.0;
    }
  }

  /** No overshoot: the value stays on its side of equilibrium and never moves
      away from it. */
  lemma NoOvershoot(t: Kind, m: MeasurementConfig, x: real, ambient: real, heat: real, dt: real, n: nat)
    requires Stable(m, dt) && Within(t, x) && Within(t, Equilibrium(m, ambient, heat))
    ensures var eq := Equilibrium(m, ambient, heat);
      var y, z := Evolve(t, m, x, ambient, heat, dt, n), Evolve(t, m, x, ambient, heat, dt, n + 1);
      if x >= eq then eq <= z <= y <= x else x <= y <= z <= eq
  {
    var eq, b := Equilibrium(m, ambient, heat), Decay(m, dt);
    Converges(t, m, x, ambient, heat, dt, n);
    Converges(t, m, x, ambient, heat, dt, n + 1);
    DecayUnit(m, dt);
    PowUnit(b, n);
    var y, z := Evolve(t, m, x, ambient, heat, dt, n), Evolve(t, m, x, ambient, heat, dt, n + 1);
    CloserStill(x, y, z, eq, Pow(b, n), Pow(b, n + 1));
  }

  lemma PositiveProduct(a: real, b: real)
    requires a > 0.0 && b > 0.0
    ensures a * b > 0.0
  {
  }

  lemma SignTimesSquare(b: real, z: real)
    requires z > 0.0
    ensures b * z * z < 0.0 <==> b < 0.0
  {
    if b > 0.0 {
      PositiveProduct(b, z);
      PositiveProduct(b * z, z);
    } else if b < 0.0 {
      PositiveProduct(-b, z);
      PositiveProduct(-b * z, z);
    }
  }

  lemma SignScaled(b: real, z: real)
    requires z != 0.0
    ensures b * z * z < 0.0 <==> b < 0.0
  {
    if z > 0.0 {
      SignTimesSquare(b, z);
    } else {
      SignTimesSquare(b, -z);
      assert b * (-z) * (-z) == b * z * z;
    }
  }

  /** Away from equilibrium, one unclamped step overshoots it exactly when
      dt*c/m exceeds 1. */
  lemma OvershootsExactly(m: MeasurementConfig, x: real, ambient: real, heat: real, dt: real)
    requires m.thermalMass > 0.0 && m.conductance > 0.0 && dt > 0.0 && x != Equilibrium(m, ambient, heat)
    ensures var eq := Equilibrium(m, ambient, heat);
      Above(After(m, x, ambient, heat, dt), eq) * Above(x, eq) < 0.0 <==> Rate(m, dt) > 1.0
  {
    StepTowards(m, x, ambient, heat, dt);
    SignScaled(Decay(m, dt), Above(x, Equilibrium(m, ambient, heat)));
  }
}
