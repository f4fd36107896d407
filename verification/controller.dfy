/** `TeslaController`: the experiment state machine. It enforces the safety
    checklist, the bounds on run length and servo angle, drives a timed run
    through an external `tick()`, exports the history when the run ends and
    returns to IDLE on `reset()`. Wall-clock time is the explicit `now`
    argument of the operations that read `time.time()`. */
module Controller {
  import opened Base
  import opened Configuration
  import opened Samples
  import opened Equations
  import opened Model
  import opened Sources

  /** `EstadoController`. */
  datatype State = Idle | Ready | RunningAuto | RunningManual | Finished | Error

  /** `ModoExperimento`. */
  datatype Mode = Auto | Manual

  /** `ConfigExperimento`. */
  datatype Config = Config(modo: Mode, duracionS: real, servoDegInicial: int, rutaCsv: Option<string>)

  /** The exceptions the controller raises: `RuntimeError` for an operation
      the current state does not allow, `ValueError` for a rejected value,
      and whatever the data source raised. */
  datatype ControllerError =
    | NotAllowed(message: string)
    | Invalid(message: string)
    | SourceFailed(cause: SourceError)

  const ChecklistMissing := "Checklist no validado."
  const NotReady := "Controller no esta en estado READY."
  const TooShort := "Duracion menor al minimo permitido."
  const TooLong := "Duracion excede limite de seguridad."
  const InitialAngleOutOfRange := "Angulo de servo inicial fuera de rango."
  const ServoNeedsManual := "Servo solo permitido en modo MANUAL."
  const AngleRejected := "Angulo de servo fuera de rango."
  const PreviewNeedsReady := "preview_servo_deg solo permitido en estado READY."

  /** The attributes of a `TeslaController`. A failed read is recorded by its
      cause: the message the source builds is `"Error leyendo muestra: "`
      followed by the text of that cause. */
  datatype Controller = Controller(
    settings: Settings,
    state: State,
    checklistOk: bool,
    cfg: Option<Config>,
    tInicio: Option<real>,
    tFin: Option<real>,
    ultimoCsv: Option<string>,
    iniciado: bool,
    servoDeg: int,
    errorMsg: Option<SourceError>,
    modelo: Modelo,
    fuente: Source
  )

  /** What the controller calls but does not define: the maths library of
      the model, float parsing for the sources, and `exportar_csv`, which
      writes a history to a path and returns the path it wrote. */
  datatype Env = Env(
    math: MathLib,
    parseFloat: string -> Option<real>,
    exporter: (seq<ProcessedSample>, string) -> string
  )

  /** The outcome of an operation that may raise: the controller as the
      exception left it (effects before the `raise` stay), and the exception. */
  datatype Step = Step(after: Controller, raised: Option<ControllerError>)

  predicate Running(s: State) {
    s == RunningAuto || s == RunningManual
  }

  /** The model's calibration, as `__init__` copies it from the settings. */
  function CalibrationOf(g: Settings): (cal: Calibration)
    ensures cal.lM == g.lM && cal.y0M == g.y0M
    ensures cal.rTop == g.rTop && cal.rBot == g.rBot
    ensures cal.reqBaja == g.reqBaja && cal.reqAlta == g.reqAlta && cal.umbral == g.vinUmbralReqV
    ensures cal.kb == g.kb && cal.kl == g.kl
  {
    Calibration(g.lM, g.y0M, g.rTop, g.rBot, g.reqBaja, g.reqAlta, g.vinUmbralReqV, g.kb, g.kl)
  }

  /** `__init__`. */
  function Init(fuente: Source, settings: Settings): (c: Controller)
    ensures c.state == Idle && !c.checklistOk && !c.iniciado
    ensures c.cfg.None? && c.tInicio.None? && c.tFin.None? && c.ultimoCsv.None? && c.errorMsg.None?
    ensures c.modelo == NewModelo(CalibrationOf(settings)) && c.servoDeg == 0
    ensures c.fuente == fuente && c.settings == settings
  {
    Controller(settings, Idle, false, None, None, None, None, false, 0, None,
               NewModelo(CalibrationOf(settings)), fuente)
  }

  /** `get_tiempo_restante_s`: nothing without a run window, otherwise the
      time left, never negative. */
  function Remaining(c: Controller, now: real): (r: Option<real>)
    ensures r.None? <==> c.tFin.None?
    ensures r.Some? ==> r.value >= 0.0 && r.value >= c.tFin.value - now
    ensures r.Some? && now <= c.tFin.value ==> r.value == c.tFin.value - now
    ensures r.Some? && now >= c.tFin.value ==> r.value == 0.0
  {
    match c.tFin
    case None => None
    case Some(fin) => Some(Max(0.0, fin - now))
  }

  /** `set_checklist_validado`: stores the flag; a set flag enables READY
      from IDLE, a cleared one drops READY back to IDLE. */
  function SetChecklist(c: Controller, ok: bool): (r: Controller)
    ensures r == c.(checklistOk := ok, state := r.state)
    ensures ok && c.state == Idle ==> r.state == Ready
    ensures !ok && c.state == Ready ==> r.state == Idle
    ensures !(ok && c.state == Idle) && !(!ok && c.state == Ready) ==> r.state == c.state
  {
    var c1 := c.(checklistOk := ok);
    var c2 := if ok && c1.state == Idle then c1.(state := Ready) else c1;
    if !ok && c2.state == Ready then c2.(state := Idle) else c2
  }

  /** `iniciar_recursos`: connects a serial source once. */
  function OpenResources(c: Controller): (r: Controller)
    ensures r == c.(iniciado := true, fuente := r.fuente)
    ensures c.iniciado || !c.fuente.Serial? ==> r.fuente == c.fuente
    ensures !c.iniciado && c.fuente.Serial? ==> r.fuente == Connect(c.fuente)
  {
    if c.iniciado then c
    else if c.fuente.Serial? then c.(fuente := Connect(c.fuente), iniciado := true)
    else c.(iniciado := true)
  }

  /** `_detener_stream_si_aplica`: asks a serial source to stop streaming,
      ignoring any failure to do so. */
  function QuietStop(src: Source): (r: Source)
    ensures r.Serial? == src.Serial? && r.Simulated? == src.Simulated? && r.Csv? == src.Csv?
    ensures !src.Serial? ==> r == src
    ensures src.Serial? && src.port != Open ==> r == src
    ensures src.Serial? && src.port == Open ==> r == src.(sent := src.sent + [Frame(StopCommand)])
  {
    if src.Serial? then StopStream(src).after else src
  }

  /** `cerrar_recursos`: stops and closes a serial source, closes a CSV
      file, once per `iniciar_recursos`. */
  function CloseResources(c: Controller): (r: Controller)
    ensures r == c.(iniciado := false, fuente := r.fuente)
    ensures !c.iniciado || c.fuente.Simulated? ==> r.fuente == c.fuente
    ensures c.iniciado && !c.fuente.Simulated? ==> r.fuente == Close(QuietStop(c.fuente))
  {
    if !c.iniciado then c
    else if c.fuente.Serial? then c.(fuente := Close(QuietStop(c.fuente)), iniciado := false)
    else if c.fuente.Csv? then c.(fuente := Close(c.fuente), iniciado := false)
    else c.(iniciado := false)
  }

  /** Forwards an accepted angle to a source that drives a servo. The source
      checks the angle against the module-level `SETTINGS`. */
  function Actuate(c: Controller): (s: Step)
    ensures s.after == c.(fuente := s.after.fuente)
    ensures !Actuates(c.fuente) ==> s == Step(c, None)
    ensures s.after.fuente.Serial? == c.fuente.Serial? && s.after.fuente.Simulated? == c.fuente.Simulated?
    ensures Actuates(c.fuente) ==>
      var e := SetServo(c.fuente, c.servoDeg, Default);
      && s.after.fuente == e.after
      && (s.raised.None? <==> e.failure.None?)
      && (e.failure.Some? ==> s.raised == Some(SourceFailed(e.failure.value)))
  {
    if Actuates(c.fuente) then
      var e := SetServo(c.fuente, c.servoDeg, Default);
      Step(c.(fuente := e.after), if e.failure.Some? then Some(SourceFailed(e.failure.value)) else None)
    else Step(c, None)
  }

  /** `set_servo_deg`: only in RUNNING_MANUAL, only within the servo range. */
  function SetServoDeg(c: Controller, deg: int): (s: Step)
    ensures c.state != RunningManual ==> s == Step(c, Some(NotAllowed(ServoNeedsManual)))
    ensures c.state == RunningManual && !InServoRange(deg, c.settings) ==> s == Step(c, Some(Invalid(AngleRejected)))
    ensures s.raised.None? ==> c.state == RunningManual && InServoRange(deg, c.settings)
    ensures c.state == RunningManual && InServoRange(deg, c.settings) ==>
      s == Actuate(c.(servoDeg := deg))
  {
    if c.state != RunningManual then Step(c, Some(NotAllowed(ServoNeedsManual)))
    else if deg < c.settings.servoDegMin || deg > c.settings.servoDegMax then Step(c, Some(Invalid(AngleRejected)))
    else Actuate(c.(servoDeg := deg))
  }

  /** `preview_servo_deg`: only in READY, only within the servo range. */
  function Preview(c: Controller, deg: int): (s: Step)
    ensures c.state != Ready ==> s == Step(c, Some(NotAllowed(PreviewNeedsReady)))
    ensures c.state == Ready && !InServoRange(deg, c.settings) ==> s == Step(c, Some(Invalid(AngleRejected)))
    ensures s.raised.None? ==> c.state == Ready && InServoRange(deg, c.settings)
    ensures c.state == Ready && InServoRange(deg, c.settings) ==>
      s == Actuate(c.(servoDeg := deg))
  {
    if c.state != Ready then Step(c, Some(NotAllowed(PreviewNeedsReady)))
    else if deg < c.settings.servoDegMin || deg > c.settings.servoDegMax then Step(c, Some(Invalid(AngleRejected)))
    else Actuate(c.(servoDeg := deg))
  }

  /** The guard of `start_experimento`, first failing check first. */
  function StartGuard(c: Controller, cfg: Config): (e: Option<ControllerError>)
    ensures e.None? <==>
      && c.checklistOk && c.state == Ready
      && c.settings.minExperimentoS as real <= cfg.duracionS <= c.settings.maxExperimentoS as real
    ensures !c.checklistOk ==> e == Some(NotAllowed(ChecklistMissing))
    ensures c.checklistOk && c.state != Ready ==> e == Some(NotAllowed(NotReady))
    ensures c.checklistOk && c.state == Ready && cfg.duracionS < c.settings.minExperimentoS as real ==>
      e == Some(Invalid(TooShort))
    ensures (c.checklistOk && c.state == Ready && c.settings.minExperimentoS as real <= cfg.duracionS
             && cfg.duracionS > c.settings.maxExperimentoS as real) ==>
      e == Some(Invalid(TooLong))
  {
    if !c.checklistOk then Some(NotAllowed(ChecklistMissing))
    else if c.state != Ready then Some(NotAllowed(NotReady))
    else if cfg.duracionS < c.settings.minExperimentoS as real then Some(Invalid(TooShort))
    else if cfg.duracionS > c.settings.maxExperimentoS as real then Some(Invalid(TooLong))
    else None
  }

  /** The configuration a run keeps: the export path defaults to the one
      in the settings. */
  function WithPath(cfg: Config, g: Settings): (r: Config)
    ensures r.rutaCsv.Some?
    ensures r == cfg.(rutaCsv := r.rutaCsv)
    ensures cfg.rutaCsv.Some? ==> r == cfg
    ensures cfg.rutaCsv.None? ==> r.rutaCsv == Some(g.rutaCsv)
  {
    if cfg.rutaCsv.None? then cfg.(rutaCsv := Some(g.rutaCsv)) else cfg
  }

  /** The part of `start_experimento` after the guard: record the
      configuration, clear the history, open resources, start a serial
      stream. */
  function Prepare(c: Controller, cfg: Config): (s: Step)
    ensures s.after.state == c.state && s.after.checklistOk == c.checklistOk && s.after.settings == c.settings
    ensures s.after.cfg == Some(WithPath(cfg, c.settings))
    ensures s.after.modelo == Reset(c.modelo) && s.after.ultimoCsv.None?
    ensures s.after.tInicio == c.tInicio && s.after.tFin == c.tFin && s.after.errorMsg == c.errorMsg
    ensures s.after.servoDeg == c.servoDeg && s.after.iniciado
    ensures s.raised.Some? ==> s.after.fuente.Serial? && s.raised.value.SourceFailed?
    ensures s.after.fuente.Serial? == c.fuente.Serial? && s.after.fuente.Simulated? == c.fuente.Simulated?
    ensures c.fuente.Serial? && (!c.iniciado || c.fuente.port == Open) ==> s.after.fuente.port == Open
    ensures !c.fuente.Serial? ==> s == Step(OpenResources(c.(cfg := Some(WithPath(cfg, c.settings)), modelo := Reset(c.modelo), ultimoCsv := None)), None)
    ensures c.fuente.Serial? ==>
      var e := StartStream(if c.iniciado then c.fuente else Connect(c.fuente), Default);
      && s.after.fuente == e.after
      && (e.failure.None? ==> s.raised.None?)
      && (e.failure.Some? ==> s.raised == Some(SourceFailed(e.failure.value)))
  {
    var c1 := c.(cfg := Some(WithPath(cfg, c.settings)), modelo := Reset(c.modelo), ultimoCsv := None);
    var c2 := OpenResources(c1);
    if c2.fuente.Serial? then
      var e := StartStream(c2.fuente, Default);
      Step(c2.(fuente := e.after), if e.failure.Some? then Some(SourceFailed(e.failure.value)) else None)
    else Step(c2, None)
  }

  /** `start_experimento` at time `now`. */
  function Start(c: Controller, cfg: Config, now: real): (s: Step)
    ensures s.after.settings == c.settings && s.after.modelo.cal == c.modelo.cal
    ensures s.after.fuente.Serial? == c.fuente.Serial? && s.after.fuente.Simulated? == c.fuente.Simulated?
    ensures StartGuard(c, cfg).Some? ==> s == Step(c, StartGuard(c, cfg))
    ensures s.raised.None? ==>
      && StartGuard(c, cfg).None?
      && InServoRange(cfg.servoDegInicial, c.settings)
      && s.after.state == (if cfg.modo == Auto then RunningAuto else RunningManual)
      && s.after.tInicio == Some(now) && s.after.tFin == Some(now + cfg.duracionS)
      && s.after.cfg == Some(WithPath(cfg, c.settings))
      && s.after.modelo == Reset(c.modelo) && s.after.ultimoCsv.None? && s.after.errorMsg.None?
      && s.after.servoDeg == cfg.servoDegInicial && s.after.iniciado
    ensures StartGuard(c, cfg).None? && !InServoRange(cfg.servoDegInicial, c.settings) ==>
      && s.after.state == Ready && s.after.tInicio == c.tInicio && s.after.tFin == c.tFin
      && (s.raised == Some(Invalid(InitialAngleOutOfRange)) || s.raised.value.SourceFailed?)
      && s.after.modelo == Reset(c.modelo) && s.after.iniciado
  {
    var guard := StartGuard(c, cfg);
    if guard.Some? then Step(c, guard)
    else Launch(c.settings, cfg, now, Prepare(c, cfg))
  }

  /** The rest of `start_experimento` once resources are prepared: check
      and apply the initial angle, then open the run window. */
  function Launch(g: Settings, cfg: Config, now: real, prepared: Step): (s: Step)
    ensures s.after.settings == prepared.after.settings && s.after.modelo == prepared.after.modelo
    ensures s.after.fuente.Serial? == prepared.after.fuente.Serial?
    ensures s.after.fuente.Simulated? == prepared.after.fuente.Simulated?
    ensures prepared.raised.Some? ==> s == prepared
    ensures prepared.raised.None? && !InServoRange(cfg.servoDegInicial, g) ==>
      s == Step(prepared.after.(servoDeg := cfg.servoDegInicial), Some(Invalid(InitialAngleOutOfRange)))
    ensures prepared.raised.None? && InServoRange(cfg.servoDegInicial, g) ==>
      var moved := Actuate(prepared.after.(servoDeg := cfg.servoDegInicial));
      && (moved.raised.Some? ==> s == moved)
      && (moved.raised.None? ==>
            s == Step(moved.after.(
                   tInicio := Some(now), tFin := Some(now + cfg.duracionS),
                   state := if cfg.modo == Auto then RunningAuto else RunningManual,
                   errorMsg := None), None))
  {
    if prepared.raised.Some? then prepared
    else
      var c3 := prepared.after.(servoDeg := cfg.servoDegInicial);
      if c3.servoDeg < g.servoDegMin || c3.servoDeg > g.servoDegMax then
        Step(c3, Some(Invalid(InitialAngleOutOfRange)))
      else
        var moved := Actuate(c3);
        if moved.raised.Some? then moved
        else
          Step(moved.after.(
            tInicio := Some(now),
            tFin := Some(now + cfg.duracionS),
            state := if cfg.modo == Auto then RunningAuto else RunningManual,
            errorMsg := None), None)
  }

  /** `_finalizar_experimento`: stops a serial stream, exports the history
      to the configured path and ends in FINISHED without a run window. */
  function Finalize(c: Controller, env: Env): (r: Controller)
    ensures r.state == Finished && r.tInicio.None? && r.tFin.None?
    ensures r.ultimoCsv == Some(env.exporter(c.modelo.history, ExportPath(c)))
    ensures r == c.(state := Finished, tInicio := None, tFin := None, ultimoCsv := r.ultimoCsv, fuente := QuietStop(c.fuente))
  {
    var c1 := c.(fuente := QuietStop(c.fuente));
    var path := ExportPath(c1);
    c1.(ultimoCsv := Some(env.exporter(GetHistorial(c1.modelo), path)),
        state := Finished, tInicio := None, tFin := None)
  }

  /** Where a finished run is written: the run's path, or the settings'
      when no run was configured. */
  function ExportPath(c: Controller): (path: string)
    ensures c.cfg.None? ==> path == c.settings.rutaCsv
    ensures c.cfg.Some? && c.cfg.value.rutaCsv.Some? ==> path == c.cfg.value.rutaCsv.value
  {
    if c.cfg.Some? && c.cfg.value.rutaCsv.Some? then c.cfg.value.rutaCsv.value else c.settings.rutaCsv
  }

  /** `stop_experimento`: finalizes a running experiment, otherwise does
      nothing. */
  function Stop(c: Controller, env: Env): (r: Controller)
    ensures !Running(c.state) ==> r == c
    ensures Running(c.state) ==> r == Finalize(c, env)
  {
    if Running(c.state) then Finalize(c, env) else c
  }

  /** `tick` at time `now`; `draws` are what the simulator consumes if it is
      the source. */
  function Tick(c: Controller, env: Env, now: real, draws: Draws): (r: Controller)
    requires ValidMath(env.math) && c.modelo.cal.rBot != 0.0
    ensures !Running(c.state) ==> r == c
    ensures r.fuente.Serial? == c.fuente.Serial? && r.fuente.Simulated? == c.fuente.Simulated?
    ensures r.settings == c.settings && r.modelo.cal == c.modelo.cal
    ensures Running(c.state) && Remaining(c, now).Some? && Remaining(c, now).value <= 0.0 ==> r == Finalize(c, env)
    ensures Running(c.state) && !(Remaining(c, now).Some? && Remaining(c, now).value <= 0.0) ==>
      var read := ReadSample(c.fuente, env.parseFloat, draws);
      && (read.result.Err? ==>
            r == c.(state := Error, errorMsg := Some(read.result.error), fuente := QuietStop(read.after)))
      && (read.result.Ok? ==>
            r == c.(fuente := read.after, modelo := Procesar(c.modelo, read.result.value, env.math).0))
  {
    if !Running(c.state) then c
    else
      var restante := Remaining(c, now);
      if restante.Some? && restante.value <= 0.0 then Finalize(c, env)
      else
        var read := ReadSample(c.fuente, env.parseFloat, draws);
        match read.result
        case Err(e) => c.(state := Error, errorMsg := Some(e), fuente := QuietStop(read.after))
        case Ok(sample) => c.(fuente := read.after, modelo := Procesar(c.modelo, sample, env.math).0)
  }

  /** `reset`: stops a running experiment, then clears the run and closes
      the resources. */
  function ResetController(c: Controller, env: Env): (r: Controller)
    ensures r.state == Idle && !r.checklistOk && !r.iniciado
    ensures r.cfg.None? && r.ultimoCsv.None? && r.tInicio.None? && r.tFin.None? && r.errorMsg.None?
    ensures r.modelo == Reset(c.modelo)
    ensures r.settings == c.settings && r.servoDeg == c.servoDeg
    ensures r.fuente.Serial? == c.fuente.Serial? && r.fuente.Simulated? == c.fuente.Simulated?
    ensures c.fuente.Simulated? ==> r.fuente == c.fuente
    ensures c.iniciado && c.fuente.Csv? ==> r.fuente == c.fuente.(isOpen := false)
    ensures c.iniciado && c.fuente.Serial? && c.fuente.port == Open ==>
      && r.fuente.port == Closed && r.fuente.incoming == c.fuente.incoming
      && r.fuente.sent == c.fuente.sent + (if Running(c.state) then [Frame(StopCommand), Frame(StopCommand)] else [Frame(StopCommand)])
    ensures !c.iniciado ==> r.fuente == Stop(c, env).fuente
  {
    var c1 := Stop(c, env);
    var c2 := c1.(modelo := Reset(c1.modelo), cfg := None, ultimoCsv := None,
                  tInicio := None, tFin := None, checklistOk := false, state := Idle, errorMsg := None);
    CloseResources(c2)
  }
}
