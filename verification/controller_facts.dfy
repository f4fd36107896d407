/** What the controller guarantees over whole sequences of calls: the
    invariant every reachable controller keeps, the terminal states, the
    run window, and how a run fills the history. */
module ControllerFacts {
  import opened Base
  import opened Configuration
  import opened Samples
  import opened Equations
  import opened Model
  import opened Sources
  import opened Controller

  /** One call a user (or the view) can make on the controller. Exceptions
      are dropped: what matters here is the controller they leave behind. */
  datatype Op =
    | Checklist(ok: bool)
    | Servo(deg: int)
    | PreviewAt(deg: int)
    | StartRun(cfg: Config, now: real)
    | StopRun
    | TickAt(now: real, draws: Draws)
    | ResetAll

  /** The controller after one call. */
  function Apply(c: Controller, env: Env, op: Op): (r: Controller)
    requires ValidMath(env.math) && c.modelo.cal.rBot != 0.0
    ensures r.settings == c.settings && r.modelo.cal == c.modelo.cal
    ensures r.fuente.Serial? == c.fuente.Serial? && r.fuente.Simulated? == c.fuente.Simulated?
  {
    match op
    case Checklist(ok) => SetChecklist(c, ok)
    case Servo(deg) => SetServoDeg(c, deg).after
    case PreviewAt(deg) => Preview(c, deg).after
    case StartRun(cfg, now) => Start(c, cfg, now).after
    case StopRun => Stop(c, env)
    case TickAt(now, draws) => Tick(c, env, now, draws)
    case ResetAll => ResetController(c, env)
  }

  /** The controller after a sequence of calls. */
  function Run(c: Controller, env: Env, ops: seq<Op>): (r: Controller)
    requires ValidMath(env.math) && c.modelo.cal.rBot != 0.0
    ensures r.settings == c.settings && r.modelo.cal == c.modelo.cal
    decreases |ops|
  {
    if |ops| == 0 then c else Run(Apply(c, env, ops[0]), env, ops[1..])
  }

  /** What holds of every controller reachable from `__init__`:
      - the run window is either wholly set or wholly unset, and it is set
        while running, spanning the configured duration;
      - IDLE, READY and FINISHED have no run window (ERROR keeps the one of
        the run it interrupted);
      - READY implies a validated checklist;
      - a recorded configuration always has an export path;
      - a running controller has opened its resources, and an opened serial
        port is open;
      - the model's calibration is the one taken from the settings. */
  ghost predicate Inv(c: Controller) {
    && (c.tInicio.None? <==> c.tFin.None?)
    && (Running(c.state) ==>
          && c.tInicio.Some? && c.cfg.Some? && c.iniciado
          && c.tFin.value == c.tInicio.value + c.cfg.value.duracionS)
    && (c.state == Idle || c.state == Ready || c.state == Finished ==> c.tFin.None?)
    && (c.state == Ready ==> c.checklistOk)
    && (c.cfg.Some? ==> c.cfg.value.rutaCsv.Some?)
    && (c.iniciado && c.fuente.Serial? ==> c.fuente.port == Open)
    && c.modelo.cal == CalibrationOf(c.settings)
  }

  /** A new controller satisfies the invariant. */
  lemma InitInv(fuente: Source, settings: Settings)
    ensures Inv(Init(fuente, settings))
    ensures Remaining(Init(fuente, settings), 0.0).None?
  {
  }

  /** Every call keeps the invariant. */
  lemma ApplyInv(c: Controller, env: Env, op: Op)
    requires ValidMath(env.math) && c.modelo.cal.rBot != 0.0
    requires Inv(c)
    ensures Inv(Apply(c, env, op))
  {
    match op
    case Checklist(ok) =>
    case Servo(deg) =>
    case PreviewAt(deg) =>
    case StartRun(cfg, now) => StartInv(c, cfg, now);
    case StopRun =>
    case TickAt(now, draws) => TickInv(c, env, now, draws);
    case ResetAll =>
  }

  /** A first start on a serial source connects it and streams at the
      shipped 20 Hz: `RAW=0`, `RATE=20` and `START` are written, in that
      order, before the initial angle is looked at. */
  lemma PrepareStartsStream(c: Controller, cfg: Config)
    requires c.fuente.Serial? && !c.iniciado
    ensures var s := Prepare(c, cfg);
      && s.raised.None? && s.after.fuente.port == Open
      && s.after.fuente.sent == c.fuente.sent + [Frame(RawCommand)] + [Frame(RateCommand(20))] + [Frame(StartCommand)]
  {
    RateAtDefault();
  }

  lemma StartInv(c: Controller, cfg: Config, now: real)
    requires Inv(c)
    ensures Inv(Start(c, cfg, now).after)
  {
    if StartGuard(c, cfg).None? {
      var prepared := Prepare(c, cfg);
      assert Inv(prepared.after);
      LaunchInv(c.settings, cfg, now, prepared);
    }
  }

  lemma LaunchInv(g: Settings, cfg: Config, now: real, prepared: Step)
    requires Inv(prepared.after) && prepared.after.settings == g
    requires prepared.after.state == Ready && prepared.after.iniciado
    requires prepared.after.cfg == Some(WithPath(cfg, g))
    ensures Inv(Launch(g, cfg, now, prepared).after)
  {
    if prepared.raised.None? && InServoRange(cfg.servoDegInicial, g) {
      var moved := Actuate(prepared.after.(servoDeg := cfg.servoDegInicial));
      assert moved.after.fuente.Serial? ==> moved.after.fuente.port == Open;
    }
  }

  lemma TickInv(c: Controller, env: Env, now: real, draws: Draws)
    requires ValidMath(env.math) && c.modelo.cal.rBot != 0.0
    requires Inv(c)
    ensures Inv(Tick(c, env, now, draws))
  {
    if Running(c.state) && !(Remaining(c, now).Some? && Remaining(c, now).value <= 0.0) {
      var read := ReadSample(c.fuente, env.parseFloat, draws);
      ReadKeepsPort(c.fuente, env.parseFloat, draws);
    }
  }

  /** A read never opens or closes a serial port. */
  lemma ReadKeepsPort(src: Source, parseFloat: string -> Option<real>, draws: Draws)
    ensures src.Serial? ==> ReadSample(src, parseFloat, draws).after.port == src.port
  {
    if src.Serial? {
      assert ReadSample(src, parseFloat, draws) == SerialRead(src, parseFloat);
    }
  }

  /** Every sequence of calls keeps the invariant. */
  lemma {:induction false} RunInv(c: Controller, env: Env, ops: seq<Op>)
    requires ValidMath(env.math) && c.modelo.cal.rBot != 0.0
    requires Inv(c)
    ensures Inv(Run(c, env, ops))
    decreases |ops|
  {
    if |ops| > 0 {
      ApplyInv(c, env, ops[0]);
      RunInv(Apply(c, env, ops[0]), env, ops[1..]);
    }
  }

  /** FINISHED and ERROR are left only through `reset`: every other call
      leaves the state as it is. */
  lemma TerminalStaysPut(c: Controller, env: Env, op: Op)
    requires ValidMath(env.math) && c.modelo.cal.rBot != 0.0
    requires c.state == Finished || c.state == Error
    ensures !op.ResetAll? ==> Apply(c, env, op).state == c.state
    ensures op.ResetAll? ==> Apply(c, env, op).state == Idle
  {
  }

  /** A run of calls without `reset` never leaves FINISHED or ERROR. */
  lemma {:induction false} TerminalUntilReset(c: Controller, env: Env, ops: seq<Op>)
    requires ValidMath(env.math) && c.modelo.cal.rBot != 0.0
    requires c.state == Finished || c.state == Error
    requires forall i :: 0 <= i < |ops| ==> !ops[i].ResetAll?
    ensures Run(c, env, ops).state == c.state
    decreases |ops|
  {
    if |ops| > 0 {
      TerminalStaysPut(c, env, ops[0]);
      TerminalUntilReset(Apply(c, env, ops[0]), env, ops[1..]);
    }
  }

  /** With the shipped settings, a run of 25 s is refused as too long and
      nothing changes. */
  lemma RefusesLongRun(c: Controller, cfg: Config, now: real)
    requires c.settings == Default && c.checklistOk && c.state == Ready
    requires cfg.duracionS == 25.0
    ensures Start(c, cfg, now) == Step(c, Some(Invalid(TooLong)))
  {
  }

  /** With the shipped settings, `start_experimento` succeeds exactly when
      its guard passes and the initial angle is within range: connecting,
      streaming and positioning the servo cannot fail. */
  lemma StartSucceedsExactly(c: Controller, cfg: Config, now: real)
    requires Inv(c) && c.settings == Default
    ensures Start(c, cfg, now).raised.None? <==>
      StartGuard(c, cfg).None? && InServoRange(cfg.servoDegInicial, Default)
  {
    if StartGuard(c, cfg).None? && InServoRange(cfg.servoDegInicial, Default) {
      var prepared := Prepare(c, cfg);
      if c.fuente.Serial? {
        var ready := OpenResources(c.(cfg := Some(WithPath(cfg, c.settings)), modelo := Reset(c.modelo), ultimoCsv := None));
        assert ready.fuente.port == Open;
        RateAtDefault();
      }
    }
  }

  /** Right after a successful start at `now`, the whole duration remains. */
  lemma RemainingAfterStart(c: Controller, cfg: Config, now: real)
    requires Start(c, cfg, now).raised.None?
    ensures Remaining(Start(c, cfg, now).after, now) == Some(Max(0.0, cfg.duracionS))
  {
  }

  /** The remaining time never grows as the clock advances. */
  lemma RemainingNonIncreasing(c: Controller, t1: real, t2: real)
    requires t1 <= t2
    ensures Remaining(c, t2).Some? ==> Remaining(c, t2).value <= Remaining(c, t1).value
  {
  }

  /** A tick at or past the end of the window finishes the run: the history
      is exported and the window cleared. */
  lemma TickAtDeadline(c: Controller, env: Env, now: real, draws: Draws)
    requires ValidMath(env.math) && c.modelo.cal.rBot != 0.0
    requires Inv(c) && Running(c.state) && now >= c.tFin.value
    ensures var r := Tick(c, env, now, draws);
      && r.state == Finished && r.tInicio.None? && r.tFin.None?
      && r.ultimoCsv == Some(env.exporter(c.modelo.history, ExportPath(c)))
      && r.modelo == c.modelo
  {
  }

  /** A failed read during a run moves to ERROR, records the cause and keeps
      the run window, so the remaining time is still reported. */
  lemma TickReadFailure(c: Controller, env: Env, now: real, draws: Draws)
    requires ValidMath(env.math) && c.modelo.cal.rBot != 0.0
    requires Inv(c) && Running(c.state) && now < c.tFin.value
    requires ReadSample(c.fuente, env.parseFloat, draws).result.Err?
    ensures var r := Tick(c, env, now, draws);
      && r.state == Error
      && r.errorMsg == Some(ReadSample(c.fuente, env.parseFloat, draws).result.error)
      && r.tFin == c.tFin && Remaining(r, now).Some?
      && r.modelo == c.modelo
  {
  }

  /** A successful read during a run appends exactly one processed sample
      and changes nothing else but the source. */
  lemma TickAppends(c: Controller, env: Env, now: real, draws: Draws)
    requires ValidMath(env.math) && c.modelo.cal.rBot != 0.0
    requires Inv(c) && Running(c.state) && now < c.tFin.value
    requires ReadSample(c.fuente, env.parseFloat, draws).result.Ok?
    ensures var r := Tick(c, env, now, draws);
      && r.state == c.state && r.tFin == c.tFin
      && |r.modelo.history| == |c.modelo.history| + 1
      && r.modelo.history[..|c.modelo.history|] == c.modelo.history
      && r.modelo.history[|c.modelo.history|]
           == Transform(c.modelo.cal, ReadSample(c.fuente, env.parseFloat, draws).result.value, env.math)
  {
  }

  /** A sequence of calls that are all ticks. */
  predicate AllTicks(ops: seq<Op>) {
    forall i :: 0 <= i < |ops| ==> ops[i].TickAt?
  }

  /** The controller after a sequence of ticks. */
  function Ticks(c: Controller, env: Env, ops: seq<Op>): (r: Controller)
    requires ValidMath(env.math) && c.modelo.cal.rBot != 0.0 && AllTicks(ops)
    decreases |ops|
  {
    if |ops| == 0 then c
    else
      Ticks(Tick(c, env, ops[0].now, ops[0].draws), env, ops[1..])
  }

  /** A run of ticks through the general dispatcher is `Ticks`. */
  lemma {:induction false} RunOfTicks(c: Controller, env: Env, ops: seq<Op>)
    requires ValidMath(env.math) && c.modelo.cal.rBot != 0.0 && AllTicks(ops)
    ensures Run(c, env, ops) == Ticks(c, env, ops)
    decreases |ops|
  {
    if |ops| > 0 {
      var next := Apply(c, env, ops[0]);
      assert next == Tick(c, env, ops[0].now, ops[0].draws);
      assert AllTicks(ops[1..]) by {
        forall i | 0 <= i < |ops[1..]| ensures ops[1..][i].TickAt? { assert ops[1..][i] == ops[i + 1]; }
      }
      RunOfTicks(next, env, ops[1..]);
    }
  }

  /** The simulator's clock after `k` periods of `d` from `t0`. */
  function Clock(t0: int, d: int, k: nat): int {
    if k == 0 then t0 else Clock(t0, d, k - 1) + d
  }

  /** The clock after `k` periods is `t0 + k*d`. */
  lemma {:induction false} ClockLinear(t0: int, d: int, k: nat)
    ensures Clock(t0, d, k) == t0 + k * d
  {
    if k > 0 {
      ClockLinear(t0, d, k - 1);
      assert k * d == (k - 1) * d + d;
    }
  }

  /** Starting one period later is counting one period more. */
  lemma {:induction false} ClockShift(t0: int, d: int, k: nat)
    ensures Clock(t0 + d, d, k) == Clock(t0, d, k + 1)
  {
    if k > 0 {
      ClockShift(t0, d, k - 1);
    }
  }

  /** On the simulator, the samples recorded by ticks before the deadline
      are stamped one period apart, starting one period after the source's
      clock, at the held angle. */
  lemma SimulatedSamples(c: Controller, env: Env, ops: seq<Op>)
    requires ValidMath(env.math) && c.modelo.cal.rBot != 0.0
    requires Inv(c) && Running(c.state) && c.fuente.Simulated?
    requires forall i :: 0 <= i < |ops| ==> ops[i].TickAt? && ops[i].now < c.tFin.value
    ensures var h := Ticks(c, env, ops).modelo.history;
      && |h| == |c.modelo.history| + |ops|
      && forall j :: |c.modelo.history| <= j < |h| ==>
           && h[j].tMs == Clock(c.fuente.tMs, c.fuente.dtMs, j - |c.modelo.history| + 1)
           && h[j].servoDeg == c.fuente.servoDeg
  {
    var h := Ticks(c, env, ops).modelo.history;
    var n := |c.modelo.history|;
    SimulatedTicks(c, env, ops);
    forall j | n <= j < |h|
      ensures h[j].tMs == Clock(c.fuente.tMs, c.fuente.dtMs, j - n + 1) && h[j].servoDeg == c.fuente.servoDeg
    {
      SimulatedStamps(c, env, ops, j - n);
    }
  }

  /** On the simulator, ticks before the deadline never fail: each appends
      one sample, the clock advances one period per tick, and the state and
      the run window stay as they were. */
  lemma {:induction false} SimulatedTicks(c: Controller, env: Env, ops: seq<Op>)
    requires ValidMath(env.math) && c.modelo.cal.rBot != 0.0
    requires Inv(c) && Running(c.state) && c.fuente.Simulated?
    requires forall i :: 0 <= i < |ops| ==> ops[i].TickAt? && ops[i].now < c.tFin.value
    ensures var r := Ticks(c, env, ops);
      && r.state == c.state && r.tFin == c.tFin
      && r.fuente == c.fuente.(tMs := Clock(c.fuente.tMs, c.fuente.dtMs, |ops|))
      && |r.modelo.history| == |c.modelo.history| + |ops|
      && r.modelo.history[..|c.modelo.history|] == c.modelo.history
    decreases |ops|
  {
    if |ops| > 0 {
      var next := Tick(c, env, ops[0].now, ops[0].draws);
      SimulatedTick(c, env, ops[0].now, ops[0].draws);
      SimulatedTickInv(c, env, ops[0].now, ops[0].draws);
      assert next.fuente == c.fuente.(tMs := c.fuente.tMs + c.fuente.dtMs);
      var r := Ticks(c, env, ops);
      assert r == Ticks(next, env, ops[1..]);
      SimulatedTicks(next, env, ops[1..]);
      ClockShift(c.fuente.tMs, c.fuente.dtMs, |ops| - 1);
      assert r.fuente == next.fuente.(tMs := Clock(c.fuente.tMs + c.fuente.dtMs, c.fuente.dtMs, |ops| - 1));
      var n := |c.modelo.history|;
      assert r.modelo.history[..n] == r.modelo.history[..n + 1][..n];
    }
  }

  /** The `i`-th sample recorded by simulated ticks. */
  lemma {:induction false} SimulatedStamps(c: Controller, env: Env, ops: seq<Op>, i: nat)
    requires ValidMath(env.math) && c.modelo.cal.rBot != 0.0
    requires Inv(c) && Running(c.state) && c.fuente.Simulated?
    requires forall i :: 0 <= i < |ops| ==> ops[i].TickAt? && ops[i].now < c.tFin.value
    requires i < |ops|
    ensures |Ticks(c, env, ops).modelo.history| == |c.modelo.history| + |ops|
    ensures var h := Ticks(c, env, ops).modelo.history;
      && h[|c.modelo.history| + i].tMs == Clock(c.fuente.tMs, c.fuente.dtMs, i + 1)
      && h[|c.modelo.history| + i].servoDeg == c.fuente.servoDeg
    decreases i
  {
    SimulatedTicks(c, env, ops);
    var next := Tick(c, env, ops[0].now, ops[0].draws);
    SimulatedTick(c, env, ops[0].now, ops[0].draws);
    SimulatedTickInv(c, env, ops[0].now, ops[0].draws);
    var n := |c.modelo.history|;
    SimulatedTicks(next, env, ops[1..]);
    if i == 0 {
      assert Ticks(c, env, ops).modelo.history[n] == Ticks(next, env, ops[1..]).modelo.history[..n + 1][n];
    } else {
      SimulatedStamps(next, env, ops[1..], i - 1);
      assert n + i == (n + 1) + (i - 1);
      ClockShift(c.fuente.tMs, c.fuente.dtMs, i);
    }
  }

  /** A simulated tick before the deadline keeps the invariant and the
      conditions of the next one. */
  lemma SimulatedTickInv(c: Controller, env: Env, now: real, draws: Draws)
    requires ValidMath(env.math) && c.modelo.cal.rBot != 0.0
    requires Inv(c) && Running(c.state) && c.fuente.Simulated? && now < c.tFin.value
    ensures var r := Tick(c, env, now, draws);
      Inv(r) && Running(r.state) && r.fuente.Simulated? && r.tFin == c.tFin && r.state == c.state
  {
    TickInv(c, env, now, draws);
    SimulatedTick(c, env, now, draws);
  }

  /** A sequence of calls is its first call followed by the rest. */
  lemma RunTail(c: Controller, env: Env, ops: seq<Op>)
    requires ValidMath(env.math) && c.modelo.cal.rBot != 0.0 && |ops| > 0
    ensures Run(c, env, ops) == Run(Apply(c, env, ops[0]), env, ops[1..])
  {
  }

  /** One tick on the simulator before the deadline: the clock advances one
      period and the history gains the transform of a sample stamped with
      the new time and the held angle. */
  lemma SimulatedTick(c: Controller, env: Env, now: real, draws: Draws)
    requires ValidMath(env.math) && c.modelo.cal.rBot != 0.0
    requires Inv(c) && Running(c.state) && c.fuente.Simulated? && now < c.tFin.value
    ensures var r := Tick(c, env, now, draws);
      var n := |c.modelo.history|;
      && r == c.(fuente := c.fuente.(tMs := c.fuente.tMs + c.fuente.dtMs), modelo := r.modelo)
      && |r.modelo.history| == n + 1 && r.modelo.history[..n] == c.modelo.history
      && r.modelo.cal == c.modelo.cal
      && r.modelo.history[n].tMs == Clock(c.fuente.tMs, c.fuente.dtMs, 1)
      && r.modelo.history[n].servoDeg == c.fuente.servoDeg
  {
    var read := SimulatedRead(c.fuente, draws);
    assert ReadSample(c.fuente, env.parseFloat, draws) == read;
    TransformConsistent(c.modelo.cal, read.result.value, env.math);
  }

  /** With the shipped settings, an angle accepted in manual mode is held by
      the simulator and stamped on the next recorded sample. */
  lemma ServoReachesSamples(c: Controller, env: Env, deg: int, now: real, draws: Draws)
    requires ValidMath(env.math) && c.modelo.cal.rBot != 0.0
    requires Inv(c) && c.settings == Default && c.state == RunningManual && c.fuente.Simulated?
    requires InServoRange(deg, Default) && now < c.tFin.value
    ensures SetServoDeg(c, deg).raised.None?
    ensures var moved := SetServoDeg(c, deg).after;
      var r := Tick(moved, env, now, draws);
      && moved.fuente.servoDeg == deg
      && r.modelo.history[|c.modelo.history|].servoDeg == deg
  {
    var moved := SetServoDeg(c, deg).after;
    var read := SimulatedRead(moved.fuente, draws);
    assert ReadSample(moved.fuente, env.parseFloat, draws) == read;
    TransformConsistent(moved.modelo.cal, read.result.value, env.math);
  }

  /** After `reset` from any state, setting the checklist makes the
      controller ready again. */
  lemma ReadyAgainAfterReset(c: Controller, env: Env)
    requires ValidMath(env.math) && c.modelo.cal.rBot != 0.0
    ensures var r := SetChecklist(ResetController(c, env), true);
      && r.state == Ready && r.checklistOk && r.modelo.history == []
      && (Inv(c) ==> Inv(r))
  {
  }

  /** On a reachable controller, `reset` releases what `iniciar_recursos`
      took: an opened serial port ends closed after one `STOP` (two when a
      run was interrupted), an opened CSV file ends closed at the same row,
      and the simulator is untouched. */
  lemma ResetReleasesResources(c: Controller, env: Env)
    requires ValidMath(env.math) && c.modelo.cal.rBot != 0.0
    requires Inv(c)
    ensures var r := ResetController(c, env);
      && (c.iniciado && c.fuente.Serial? ==>
            && r.fuente.port == Closed
            && |r.fuente.sent| == |c.fuente.sent| + (if Running(c.state) then 2 else 1))
      && (c.iniciado && c.fuente.Csv? ==> !r.fuente.isOpen && r.fuente.cursor == c.fuente.cursor)
      && (c.fuente.Simulated? ==> r.fuente == c.fuente)
  {
  }
}
