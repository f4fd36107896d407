/** `Modelo`: turns a raw frame into a processed sample and keeps the
    append-only history of the run. */
module Model {
  import opened Base
  import opened Samples
  import opened Equations

  /** The calibration constants, fixed for the lifetime of a model. */
  datatype Calibration = Calibration(
    lM: real, y0M: real,
    rTop: real, rBot: real,
    reqBaja: real, reqAlta: real, umbral: real,
    kb: real, kl: real
  )

  datatype Modelo = Modelo(cal: Calibration, history: seq<ProcessedSample>)

  /** A fresh model with an empty history. */
  function NewModelo(cal: Calibration): (m: Modelo)
    ensures m.cal == cal && m.history == []
  {
    Modelo(cal, [])
  }

  /** What every processed sample satisfies, stated as relations between its
      fields rather than as the computation that fills them. */
  ghost predicate Consistent(cal: Calibration, raw: RawSample, p: ProcessedSample, m: MathLib) {
    && Copied(raw, p)
    && Geometry(cal, raw, p, m)
    && Electrical(cal, raw, p)
    && Signals(cal, raw, p)
    && Errors(p)
  }

  /** The five raw fields are copied unchanged. */
  ghost predicate Copied(raw: RawSample, p: ProcessedSample) {
    && p.tMs == raw.tMs && p.servoDeg == raw.servoDeg
    && p.vDiv == raw.vDiv && p.vRf == raw.vRf && p.vPhoto == raw.vPhoto
  }

  /** The distance is the non-negative root of the geometric radicand. */
  ghost predicate Geometry(cal: Calibration, raw: RawSample, p: ProcessedSample, m: MathLib) {
    p.rM >= 0.0 && p.rM * p.rM == Radicand(raw.servoDeg, cal.lM, cal.y0M, m)
  }

  /** The divider output of the reconstructed voltage is the reading, and the
      input power is taken against the regime resistance for that voltage. */
  ghost predicate Electrical(cal: Calibration, raw: RawSample, p: ProcessedSample) {
    && p.vIn * cal.rBot == raw.vDiv * (cal.rTop + cal.rBot)
    && p.pIn >= 0.0
    && p.pIn * Max(ReqPorTramos(p.vIn, cal.reqBaja, cal.reqAlta, cal.umbral), Eps) == p.vIn * p.vIn
  }

  /** Experimental signals are the raw channels; theoretical ones are `Kb / r`
      and `Kl / r^2`, undefined exactly at `r == 0`. */
  ghost predicate Signals(cal: Calibration, raw: RawSample, p: ProcessedSample) {
    && p.bExp == raw.vRf && p.lExp == raw.vPhoto
    && (p.bTeo.Undefined? <==> p.rM == 0.0) && (p.lTeo.Undefined? <==> p.rM == 0.0)
    && (p.bTeo.Defined? ==> p.bTeo.x * p.rM == cal.kb)
    && (p.lTeo.Defined? ==> p.lTeo.x * (p.rM * p.rM) == cal.kl)
  }

  /** Absolute errors satisfy `exp = teo + err`; relative errors are defined
      exactly when `teo` is defined and not near zero, and scale the absolute one. */
  ghost predicate Errors(p: ProcessedSample) {
    && (p.errBAbs.Defined? <==> p.bTeo.Defined?) && (p.errLAbs.Defined? <==> p.lTeo.Defined?)
    && (p.errBAbs.Defined? ==> p.bTeo.x + p.errBAbs.x == p.bExp)
    && (p.errLAbs.Defined? ==> p.lTeo.x + p.errLAbs.x == p.lExp)
    && (p.errBRel.Defined? <==> p.bTeo.Defined? && Abs(p.bTeo.x) >= Eps)
    && (p.errLRel.Defined? <==> p.lTeo.Defined? && Abs(p.lTeo.x) >= Eps)
    && (p.errBRel.Defined? ==> p.errBRel.x * p.bTeo.x == p.errBAbs.x)
    && (p.errLRel.Defined? ==> p.errLRel.x * p.lTeo.x == p.errLAbs.x)
  }

  /** Steps 1 to 7 of `procesar_muestra`: the pure map from raw to processed
      sample. What it satisfies is `TransformConsistent`. */
  function Transform(cal: Calibration, raw: RawSample, m: MathLib): (p: ProcessedSample)
    requires ValidMath(m) && cal.rBot != 0.0
    ensures Copied(raw, p) && p.rM >= 0.0 && p.pIn >= 0.0
  {
    var rM := Distance(raw.servoDeg, cal.lM, cal.y0M, m);
    var vIn := VinReal(raw.vDiv, cal.rTop, cal.rBot);
    var reqUsada := ReqPorTramos(vIn, cal.reqBaja, cal.reqAlta, cal.umbral);
    var pIn := PotenciaIn(vIn, reqUsada);
    var bExp := BExp(raw.vRf);
    var lExp := LExp(raw.vPhoto);
    var bTeo := BTeo(rM, cal.kb, 1.0, m);
    var lTeo := LTeo(rM, cal.kl, m);
    ProcessedSample(
      raw.tMs, raw.servoDeg, raw.vDiv, raw.vRf, raw.vPhoto,
      rM, vIn, pIn,
      bExp, bTeo, lExp, lTeo,
      ErrorAbs(bExp, bTeo), ErrorAbs(lExp, lTeo),
      ErrorRel(bExp, bTeo), ErrorRel(lExp, lTeo)
    )
  }

  /** Every sample the transform produces satisfies the relational specification. */
  lemma TransformConsistent(cal: Calibration, raw: RawSample, m: MathLib)
    requires ValidMath(m) && cal.rBot != 0.0
    ensures Consistent(cal, raw, Transform(cal, raw, m), m)
  {
    TransformGeometry(cal, raw, m);
    TransformElectrical(cal, raw, m);
    TransformSignals(cal, raw, m);
    TransformErrors(cal, raw, m);
  }

  lemma TransformGeometry(cal: Calibration, raw: RawSample, m: MathLib)
    requires ValidMath(m) && cal.rBot != 0.0
    ensures Geometry(cal, raw, Transform(cal, raw, m), m)
  {
    assert Transform(cal, raw, m).rM == Distance(raw.servoDeg, cal.lM, cal.y0M, m);
  }

  lemma TransformElectrical(cal: Calibration, raw: RawSample, m: MathLib)
    requires ValidMath(m) && cal.rBot != 0.0
    ensures Electrical(cal, raw, Transform(cal, raw, m))
  {
    var p := Transform(cal, raw, m);
    var vIn := VinReal(raw.vDiv, cal.rTop, cal.rBot);
    var req := ReqPorTramos(vIn, cal.reqBaja, cal.reqAlta, cal.umbral);
    assert p.vIn == vIn;
    assert p.pIn == PotenciaIn(vIn, req);
  }

  lemma TransformSignals(cal: Calibration, raw: RawSample, m: MathLib)
    requires ValidMath(m) && cal.rBot != 0.0
    ensures Signals(cal, raw, Transform(cal, raw, m))
  {
    var p := Transform(cal, raw, m);
    var rM := Distance(raw.servoDeg, cal.lM, cal.y0M, m);
    assert p.rM == rM;
    assert p.bTeo == BTeo(rM, cal.kb, 1.0, m) && p.lTeo == LTeo(rM, cal.kl, m);
  }

  lemma TransformErrors(cal: Calibration, raw: RawSample, m: MathLib)
    requires ValidMath(m) && cal.rBot != 0.0
    ensures Errors(Transform(cal, raw, m))
  {
    var p := Transform(cal, raw, m);
    ErrorRelOfAbs(p.bExp, p.bTeo);
    ErrorRelOfAbs(p.lExp, p.lTeo);
  }

  /** `procesar_muestra`: appends exactly one sample and returns it. */
  function Procesar(model: Modelo, raw: RawSample, m: MathLib): (r: (Modelo, ProcessedSample))
    requires ValidMath(m) && model.cal.rBot != 0.0
    ensures r.0.cal == model.cal
    ensures |r.0.history| == |model.history| + 1
    ensures r.0.history[..|model.history|] == model.history
    ensures r.0.history[|model.history|] == r.1
    ensures r.1 == Transform(model.cal, raw, m)
  {
    var p := Transform(model.cal, raw, m);
    (model.(history := model.history + [p]), p)
  }

  /** The sample `procesar_muestra` appends relates to its frame as
      `Consistent` describes. */
  lemma ProcesarConsistent(model: Modelo, raw: RawSample, m: MathLib)
    requires ValidMath(m) && model.cal.rBot != 0.0
    ensures Consistent(model.cal, raw, Procesar(model, raw, m).1, m)
  {
    TransformConsistent(model.cal, raw, m);
  }

  /** `reset`: empties the history, keeps the calibration. */
  function Reset(model: Modelo): (r: Modelo)
    ensures r.history == [] && r.cal == model.cal
  {
    model.(history := [])
  }

  /** `get_historial`: a snapshot of the history as a value. */
  function GetHistorial(model: Modelo): (h: seq<ProcessedSample>)
    ensures |h| == |model.history|
    ensures forall i :: 0 <= i < |h| ==> h[i] == model.history[i]
  {
    model.history
  }

  /** Feeds a sequence of raw frames through `procesar_muestra`, in order. */
  function ProcesarTodas(model: Modelo, raws: seq<RawSample>, m: MathLib): (r: Modelo)
    requires ValidMath(m) && model.cal.rBot != 0.0
    ensures r.cal == model.cal
    decreases |raws|
  {
    if |raws| == 0 then model
    else ProcesarTodas(Procesar(model, raws[0], m).0, raws[1..], m)
  }

  // ---------------------------------------------------------------------
  // Lemmas
  // ---------------------------------------------------------------------

  /** After a reset the history holds one sample per processed frame, in
      order, each the transform of its frame. */
  lemma {:induction false} HistoryCountsProcessed(model: Modelo, raws: seq<RawSample>, m: MathLib)
    requires ValidMath(m) && model.cal.rBot != 0.0
    ensures var r := ProcesarTodas(model, raws, m);
      && |r.history| == |model.history| + |raws|
      && r.history[..|model.history|] == model.history
      && forall i :: 0 <= i < |raws| ==> r.history[|model.history| + i] == Transform(model.cal, raws[i], m)
    decreases |raws|
  {
    if |raws| > 0 {
      var next := Procesar(model, raws[0], m).0;
      HistoryCountsProcessed(next, raws[1..], m);
      var r := ProcesarTodas(model, raws, m);
      assert r == ProcesarTodas(next, raws[1..], m);
      assert r.history[..|model.history|] == next.history[..|next.history|][..|model.history|];
      forall i | 0 <= i < |raws|
        ensures r.history[|model.history| + i] == Transform(model.cal, raws[i], m)
      {
        if i > 0 {
          assert raws[1..][i - 1] == raws[i];
          assert r.history[|next.history| + (i - 1)] == Transform(next.cal, raws[1..][i - 1], m);
        } else {
          assert r.history[..|next.history|] == next.history;
        }
      }
    }
  }

  lemma HistoryAfterReset(model: Modelo, raws: seq<RawSample>, m: MathLib)
    requires ValidMath(m) && model.cal.rBot != 0.0
    ensures |ProcesarTodas(Reset(model), raws, m).history| == |raws|
    ensures ProcesarTodas(Reset(model), raws, m).cal == model.cal
  {
    HistoryCountsProcessed(Reset(model), raws, m);
  }

  /** A snapshot taken earlier is a prefix of every later history: processing
      more frames never alters what was already recorded. */
  lemma SnapshotIsPrefix(model: Modelo, raws: seq<RawSample>, m: MathLib)
    requires ValidMath(m) && model.cal.rBot != 0.0
    ensures GetHistorial(model) <= GetHistorial(ProcesarTodas(model, raws, m))
  {
    HistoryCountsProcessed(model, raws, m);
  }
}
