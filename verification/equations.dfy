/** The piecewise equations of the rig, over reals. `math.sin`, `math.sqrt`,
    `r ** n` and `math.pi` are not computed: they are fields of a `MathLib`
    value whose only known properties are those in `ValidMath`. */
module Equations {
  import opened Base
  import opened Samples

  datatype MathLib = MathLib(pi: real, sin: real -> real, sqrt: real -> real, pow: (real, real) -> real)

  /** The facts about the floating-point library the equations rely on. */
  ghost predicate ValidMath(m: MathLib) {
    && (forall t :: -1.0 <= m.sin(t) <= 1.0)
    && (forall x :: 0.0 <= x ==> 0.0 <= m.sqrt(x) && m.sqrt(x) * m.sqrt(x) == x)
    && (forall b, e :: 0.0 < b ==> 0.0 < m.pow(b, e))
    && (forall b :: 0.0 < b ==> m.pow(b, 1.0) == b)
    && (forall b :: 0.0 < b ==> m.pow(b, 2.0) == b * b)
  }

  /** The floor `potencia_in` puts under the resistance, and the threshold
      under which `error_rel` refuses to divide (both `1e-12`). */
  const Eps: real := 0.000000000001

  function DegToRad(deg: real, m: MathLib): real {
    deg * m.pi / 180.0
  }

  /** The expression under the square root in `distancia`. */
  function Radicand(thetaDeg: int, lM: real, y0M: real, m: MathLib): real {
    lM * lM + y0M * y0M - 2.0 * y0M * lM * m.sin(DegToRad(thetaDeg as real, m))
  }

  /** The radicand is never below `(|L| - |y0|)^2`, so `sqrt` never sees a
      negative argument, whatever the angle. */
  lemma RadicandBound(thetaDeg: int, lM: real, y0M: real, m: MathLib)
    requires ValidMath(m)
    ensures Radicand(thetaDeg, lM, y0M, m) >= (Abs(lM) - Abs(y0M)) * (Abs(lM) - Abs(y0M)) >= 0.0
  {
    var s := m.sin(DegToRad(thetaDeg as real, m));
    var p := y0M * lM;
    assert -1.0 <= s <= 1.0;
    assert p * s <= Abs(p) by {
      if p >= 0.0 {
        assert p * (1.0 - s) >= 0.0;
      } else {
        assert (-p) * (s + 1.0) >= 0.0;
      }
    }
    assert Abs(p) == Abs(lM) * Abs(y0M);
    assert lM * lM == Abs(lM) * Abs(lM);
    assert y0M * y0M == Abs(y0M) * Abs(y0M);
    var d := Abs(lM) - Abs(y0M);
    assert d * d == Abs(lM) * Abs(lM) + Abs(y0M) * Abs(y0M) - 2.0 * Abs(lM) * Abs(y0M);
  }

  /** `distancia`: the loop-to-coil distance for a servo angle in degrees. */
  function Distance(thetaDeg: int, lM: real, y0M: real, m: MathLib): (r: real)
    requires ValidMath(m)
    ensures r >= 0.0 && r * r == Radicand(thetaDeg, lM, y0M, m)
  {
    RadicandBound(thetaDeg, lM, y0M, m);
    m.sqrt(Radicand(thetaDeg, lM, y0M, m))
  }

  /** `vin_real`: undoes the resistive divider. */
  function VinReal(vDiv: real, rTop: real, rBot: real): (vin: real)
    requires rBot != 0.0
    ensures vin * rBot == vDiv * (rTop + rBot)
  {
    vDiv * ((rTop + rBot) / rBot)
  }

  /** What the divider does to the input voltage: `Vdiv = Vin * Rbot / (Rtop + Rbot)`. */
  function DividerOutput(vin: real, rTop: real, rBot: real): real
    requires rTop + rBot != 0.0
  {
    vin * rBot / (rTop + rBot)
  }

  /** `req_por_tramos`: low-regime resistance strictly below the threshold,
      high-regime resistance from the threshold on. */
  function ReqPorTramos(vin: real, reqBaja: real, reqAlta: real, umbral: real): (req: real)
    ensures req == reqBaja || req == reqAlta
    ensures reqBaja <= reqAlta ==> reqBaja <= req <= reqAlta
  {
    if vin < umbral then reqBaja else reqAlta
  }

  /** `potencia_in`: `Vin^2 / max(Req, 1e-12)`. */
  function PotenciaIn(vin: real, req: real): (p: real)
    ensures p >= 0.0
    ensures p * Max(req, Eps) == vin * vin
  {
    vin * vin / Max(req, Eps)
  }

  /** `tendencia`: `1 / r^n`, or the sentinel when `r <= 0`. */
  function Tendencia(r: real, n: real, m: MathLib): (v: Value)
    requires ValidMath(m)
    ensures v.Undefined? <==> r <= 0.0
    ensures v.Defined? ==> v.x > 0.0 && v.x * m.pow(r, n) == 1.0
  {
    if r <= 0.0 then Undefined else Defined(1.0 / m.pow(r, n))
  }

  /** `k * v`, where a non-finite `v` stays non-finite. */
  function Scale(k: real, v: Value): Value {
    match v
    case Defined(x) => Defined(k * x)
    case Undefined => Undefined
  }

  /** `b_teo`: `Kb / r^n`. */
  function BTeo(r: real, kb: real, n: real, m: MathLib): (v: Value)
    requires ValidMath(m)
    ensures v.Undefined? <==> r <= 0.0
    ensures v.Defined? ==> v.x * m.pow(r, n) == kb
    ensures v.Defined? && n == 1.0 ==> v.x * r == kb
  {
    Scale(kb, Tendencia(r, n, m))
  }

  /** `l_teo`: `Kl / r^2`. */
  function LTeo(r: real, kl: real, m: MathLib): (v: Value)
    requires ValidMath(m)
    ensures v.Undefined? <==> r <= 0.0
    ensures v.Defined? ==> v.x * (r * r) == kl
  {
    Scale(kl, Tendencia(r, 2.0, m))
  }

  /** `b_exp`: the RF channel is passed through. */
  function BExp(vRf: real): real {
    vRf
  }

  /** `l_exp`: the photodiode channel is passed through. */
  function LExp(vPhoto: real): real {
    vPhoto
  }

  /** `error_abs`: `exp - teo`. */
  function ErrorAbs(exp: real, teo: Value): (e: Value)
    ensures e.Undefined? <==> teo.Undefined?
    ensures e.Defined? ==> e.x + teo.x == exp
  {
    match teo
    case Defined(t) => Defined(exp - t)
    case Undefined => Undefined
  }

  /** `error_rel`: `(exp - teo) / teo`, or the sentinel when `|teo| < 1e-12`. */
  function ErrorRel(exp: real, teo: Value): (e: Value)
    ensures e.Undefined? <==> (teo.Undefined? || Abs(teo.x) < Eps)
    ensures e.Defined? ==> e.x * teo.x == exp - teo.x
  {
    match teo
    case Undefined => Undefined
    case Defined(t) => if Abs(t) < Eps then Undefined else Defined((exp - t) / t)
  }

  // ---------------------------------------------------------------------
  // Lemmas
  // ---------------------------------------------------------------------

  /** Voltage reconstruction is linear in the divider reading. */
  lemma VinRealLinear(k: real, v: real, rTop: real, rBot: real)
    requires rBot != 0.0
    ensures VinReal(k * v, rTop, rBot) == k * VinReal(v, rTop, rBot)
  {
  }

  /** Reconstruction inverts the divider, both ways round. */
  lemma VinRealInvertsDivider(v: real, rTop: real, rBot: real)
    requires rBot != 0.0 && rTop + rBot != 0.0
    ensures DividerOutput(VinReal(v, rTop, rBot), rTop, rBot) == v
    ensures VinReal(DividerOutput(v, rTop, rBot), rTop, rBot) == v
  {
  }

  /** The regime choice is a step at `umbral`, and the threshold itself
      belongs to the high regime. */
  lemma ReqStep(vin: real, reqBaja: real, reqAlta: real, umbral: real)
    ensures vin < umbral ==> ReqPorTramos(vin, reqBaja, reqAlta, umbral) == reqBaja
    ensures umbral <= vin ==> ReqPorTramos(vin, reqBaja, reqAlta, umbral) == reqAlta
    ensures reqBaja != reqAlta ==> (ReqPorTramos(vin, reqBaja, reqAlta, umbral) == reqBaja <==> vin < umbral)
    ensures ReqPorTramos(umbral, reqBaja, reqAlta, umbral) == reqAlta
  {
  }

  /** With `Req_baja <= Req_alta` the selected resistance never decreases as `Vin` grows. */
  lemma ReqMonotone(v1: real, v2: real, reqBaja: real, reqAlta: real, umbral: real)
    requires v1 <= v2 && reqBaja <= reqAlta
    ensures ReqPorTramos(v1, reqBaja, reqAlta, umbral) <= ReqPorTramos(v2, reqBaja, reqAlta, umbral)
  {
  }

  /** When the resistance is not below the floor, the floor plays no part. */
  lemma PotenciaUnfloored(vin: real, req: real)
    requires req >= Eps
    ensures PotenciaIn(vin, req) * req == vin * vin
  {
  }

  /** The absolute error of a perfect prediction is zero. */
  lemma ErrorAbsExact(x: real)
    ensures ErrorAbs(x, Defined(x)) == Defined(0.0)
  {
  }

  /** Absolute and relative errors agree: `rel * teo == abs` whenever the relative error exists. */
  lemma ErrorRelOfAbs(exp: real, teo: Value)
    ensures ErrorRel(exp, teo).Defined? ==> ErrorAbs(exp, teo).Defined? && ErrorRel(exp, teo).x * teo.x == ErrorAbs(exp, teo).x
  {
  }
}
