/** What the shipped configuration guarantees once it meets the equations
    and the controller: the geometry keeps the loop away from the coil, so
    every theoretical value and every error is defined; the resistance
    floor never engages; the run-length and servo bounds are coherent. */
module Defaults {
  import opened Base
  import opened Configuration
  import opened Equations
  import opened Samples
  import opened Model
  import opened Controller

  /** The shipped bounds admit runs and angles, the default angle among
      them, and the sampling period divides a second evenly. */
  lemma DefaultBounds()
    ensures 0 < Default.minExperimentoS <= Default.maxExperimentoS
    ensures InServoRange(Default.servoDegDefault, Default)
    ensures Default.servoDegMin < Default.servoDegMax
    ensures Default.dtMs > 0 && 1000 % Default.dtMs == 0
    ensures Default.rBot != 0.0 && CalibrationOf(Default).rBot != 0.0
    ensures Default.reqBaja <= Default.reqAlta && Default.vinMinV < Default.vinUmbralReqV < Default.vinMaxV
  {
  }

  /** For non-negative reals, comparing squares compares the numbers. */
  lemma SquareOrder(a: real, b: real)
    requires 0.0 <= a && 0.0 <= b
    ensures a * a <= b * b ==> a <= b
  {
    if b < a {
      var d := a - b;
      assert a * a == b * b + d * (a + b);
      assert d * (a + b) > 0.0;
    }
  }

  /** With the shipped geometry the loop stays between `y0 - L` and
      `y0 + L` from the coil, whatever the angle: at least 0.105 m and at
      most 0.545 m. */
  lemma DefaultDistanceBounds(thetaDeg: int, m: MathLib)
    requires ValidMath(m)
    ensures 0.105 <= Distance(thetaDeg, Default.lM, Default.y0M, m) <= 0.545
  {
    var s := m.sin(DegToRad(thetaDeg as real, m));
    assert -1.0 <= s <= 1.0;
    var r := Distance(thetaDeg, Default.lM, Default.y0M, m);
    assert Radicand(thetaDeg, Default.lM, Default.y0M, m) == 0.154025 - 0.143 * s;
    assert 0.105 * 0.105 <= r * r <= 0.545 * 0.545;
    SquareOrder(0.105, r);
    SquareOrder(r, 0.545);
  }

  /** With the shipped settings every processed sample is fully defined:
      both theoretical values, both absolute errors and both relative
      errors, whatever the frame and the angle. */
  lemma DefaultSamplesDefined(raw: RawSample, m: MathLib)
    requires ValidMath(m)
    ensures var p := Transform(CalibrationOf(Default), raw, m);
      && p.bTeo.Defined? && p.lTeo.Defined?
      && p.errBAbs.Defined? && p.errLAbs.Defined?
      && p.errBRel.Defined? && p.errLRel.Defined?
  {
    var cal := CalibrationOf(Default);
    var p := Transform(cal, raw, m);
    TransformConsistent(cal, raw, m);
    DefaultDistanceBounds(raw.servoDeg, m);
    assert p.rM == Distance(raw.servoDeg, Default.lM, Default.y0M, m);
    assert p.bTeo.Defined? && p.lTeo.Defined?;
    TeoAboveEps(p.rM, p.bTeo.x, p.lTeo.x);
  }

  /** At a distance of at most 0.545 m, `Kb / r` and `Kl / r^2` with the
      shipped constants are far above the threshold of `error_rel`. */
  lemma TeoAboveEps(r: real, b: real, l: real)
    requires 0.105 <= r <= 0.545
    requires b * r == Default.kb && l * (r * r) == Default.kl
    ensures Abs(b) >= Eps && Abs(l) >= Eps
  {
    assert r * r <= 0.545 * 0.545 by {
      assert r * r <= r * 0.545 <= 0.545 * 0.545;
    }
    QuotientAbove(b, r, Default.kb, 0.545);
    QuotientAbove(l, r * r, Default.kl, 0.545 * 0.545);
  }

  /** If `x * r == k` with `0 < r <= rmax` and `k > 0`, then `x >= k / rmax`. */
  lemma QuotientAbove(x: real, r: real, k: real, rmax: real)
    requires 0.0 < r <= rmax && 0.0 < k && x * r == k
    ensures x * rmax >= k
  {
    assert x == k / r;
    assert x > 0.0;
    assert x * rmax == x * r + x * (rmax - r);
    assert x * (rmax - r) >= 0.0;
  }

  /** With the shipped resistances the `1e-12` floor of `potencia_in` never
      engages: the power is exactly `Vin^2 / Req` in both regimes. */
  lemma DefaultPowerUnfloored(vin: real)
    ensures var req := ReqPorTramos(vin, Default.reqBaja, Default.reqAlta, Default.vinUmbralReqV);
      && req == (if vin < 11.0 then 15.25 else 19.64)
      && PotenciaIn(vin, req) * req == vin * vin
  {
    var req := ReqPorTramos(vin, Default.reqBaja, Default.reqAlta, Default.vinUmbralReqV);
    PotenciaUnfloored(vin, req);
  }
}
