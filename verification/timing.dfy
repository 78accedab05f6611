/** The simulator's timing, derived from the control service's tick and the time
    scale, and when it keeps the environment model stable. */
module Timing {
  import opened Base
  import opened Plant

  /** The end of Load, in seconds: the publish interval is the scaled-down tick,
      but not below the minimum; one publish then stands for the interval
      scaled up again. */
  method Derive(baseTick: real, timeScale: real, minInterval: real) returns (interval: real, simulatedTick: real)
    requires timeScale > 0.0
    ensures interval >= minInterval && (interval == minInterval || interval * timeScale == baseTick)
    ensures simulatedTick == Larger(baseTick, timeScale * minInterval)
  {
    var natural := baseTick / timeScale;
    assert natural * timeScale == baseTick;
    interval := natural;
    if interval < minInterval {
      interval := minInterval;
      ScaleOrder(natural, minInterval, timeScale);
    } else {
      ScaleOrder(minInterval, natural, timeScale);
    }
    simulatedTick := timeScale * interval;
  }

  lemma ScaleOrder(a: real, b: real, k: real)
    requires k > 0.0 && a <= b
    ensures a * k <= b * k
  {
    assert (b - a) * k >= 0.0;
  }

  const BASE_MASS := 10000000.0
  const BASE_CONDUCTANCE := 100.0
  const BASE_MASS_HUM := 325.0
  const BASE_CONDUCTANCE_HUM := 0.001

  /** With the base physical constants scaled by `massScale` and
      `conductanceScale`, a temperature model is stable exactly up to a
      simulated tick of 100000 s times the ratio of the scales; for humidity,
      325000 s. */
  lemma StableExactly(base: real, massScale: real, conductanceScale: real, dt: real)
    requires massScale > 0.0 && conductanceScale > 0.0 && dt > 0.0
    ensures Stable(MeasurementConfig(base, BASE_MASS * massScale, BASE_CONDUCTANCE * conductanceScale), dt)
       <==> dt * conductanceScale <= 100000.0 * massScale
    ensures Stable(MeasurementConfig(base, BASE_MASS_HUM * massScale, BASE_CONDUCTANCE_HUM * conductanceScale), dt)
       <==> dt * conductanceScale <= 325000.0 * massScale
  {
    StableIff(base, BASE_MASS * massScale, BASE_CONDUCTANCE * conductanceScale, dt);
    StableIff(base, BASE_MASS_HUM * massScale, BASE_CONDUCTANCE_HUM * conductanceScale, dt);
    Rescale(dt, BASE_CONDUCTANCE, conductanceScale);
    Rescale(dt, BASE_CONDUCTANCE_HUM, conductanceScale);
  }

  lemma Rescale(dt: real, c: real, k: real)
    ensures dt * (c * k) == c * (dt * k)
  {
  }

  lemma StableIff(base: real, mass: real, conductance: real, dt: real)
    requires mass > 0.0 && conductance > 0.0 && dt > 0.0
    ensures Stable(MeasurementConfig(base, mass, conductance), dt) <==> dt * conductance <= mass
  {
    RateAtMostOne(dt * conductance, mass);
  }

  lemma RateAtMostOne(a: real, m: real)
    requires m > 0.0
    ensures a / m <= 1.0 <==> a <= m
  {
    var q := a / m;
    assert a == q * m;
    ScaleCompare(q, m);
  }

  lemma ScaleCompare(q: real, m: real)
    requires m > 0.0
    ensures q <= 1.0 <==> q * m <= m
  {
    if q <= 1.0 { assert (1.0 - q) * m >= 0.0; } else { assert (q - 1.0) * m > 0.0; }
  }
}
