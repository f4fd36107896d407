# Tesla Monitor — a Dafny model of the acquisition core

Tesla Monitor drives a small Tesla-coil experiment. An ESP32 moves a servo
that carries a sensing loop and streams `DATA,<t_ms>,<servo_deg>,<v_div>,<v_rf>,<v_photo>`
frames over a serial line. The PC side decodes each frame into a raw sample,
turns it into a processed sample (distance, input voltage, power, theoretical
signals, errors) and keeps the history of the run. A controller state machine
(IDLE, READY, RUNNING_AUTO, RUNNING_MANUAL, FINISHED, ERROR) enforces the
safety checklist, the run-length and servo limits, and exports the history when
a run ends.

This project models that core as pure Dafny values and functions:

| file | module | what it models |
|---|---|---|
| `base.dfy` | `Base` | `Option`, `Result`, `Max`, `Abs` |
| `text.dfy` | `Text` | `str.strip()`, `split(",")`, `",".join`, `int()` on decimal text, `str()` of an int |
| `configuration.dfy` | `Configuration` | the frozen `Settings` record and the shipped `SETTINGS` value |
| `samples.dfy` | `Samples` | `MuestraCruda`, `MuestraProcesada`; a float that may be infinite is a `Value` |
| `equations.dfy` | `Equations` | `ecuaciones.py`: geometry, divider, two-regime power, `1/r^n` signals, errors |
| `model.dfy` | `Model` | `Modelo`: `procesar_muestra`, `reset`, `get_historial` |
| `decoder.dfy` | `Decoder` | `decodificar_linea_data` and the frame the firmware sends |
| `sources.dfy` | `Sources` | `FuenteSerialESP32`, `FuenteSimulada`, `FuenteCSV` |
| `controller.dfy` | `Controller` | `TeslaController`, one function per public method |
| `controller_facts.dfy` | `ControllerFacts` | the invariant of reachable controllers, runs of calls, runs of ticks |
| `defaults.dfy` | `Defaults` | what the shipped settings guarantee to the equations |

How the model is built:

- Every object with state is a datatype value. An operation returns the new
  value. Where the Python method can raise part-way, it returns a `Step`
  (controller) or an `Effect`/`Read` (source) that carries both the state
  reached and the exception. So the partial effects the code leaves behind
  are kept, for example the resources a rejected `start_experimento` has
  already opened. The one shared mutable object the code hands across calls,
  the caller's `ConfigExperimento`, is copied instead (see "Left out").
- `math.sin`, `math.sqrt`, `**` and `math.pi` are fields of a `MathLib`. All
  that is known about them is `ValidMath`: sine within [-1, 1], square root
  non-negative and squaring back, positive powers of positive bases,
  `b**1 == b` and `b**2 == b*b`.
- Python's `float()` is a parameter `string -> Option<real>`. Round trips pair
  it with the formatter that wrote the values (`FloatFormat`). No formatter
  reads every real back (a decimal literal never denotes 1/3), so read-back is
  required only at the voltages the sample carries.
- The wall clock (`time.time()`) is the `now` argument of `Start` and `Tick`.
- The three draws `random.random()` gives one simulated reading are a
  `Draws` argument. `random.uniform(a, b)` is CPython's `a + (b-a)*random()`.
- The lines the serial port will deliver are the `incoming` field of the
  source. An empty line is a `readline()` that timed out.
- The CSV file is its sequence of rows plus a cursor.
- `exportar_csv` is the `exporter` field of an `Env`. Its result is recorded
  as `ultimoCsv`.
- Floats are reals. `inf` (and the `nan` that `0 * inf` would give) is
  `Undefined`.

Two behaviours of the code that the model keeps:

- The run window (`_t_inicio`, `_t_fin`) is cleared only by
  `_finalizar_experimento` and `reset` (controller.py:324-337, 343-359). So
  in ERROR the window of the interrupted run stays set, and
  `get_tiempo_restante_s` keeps reporting. `Inv` and `TickReadFailure`
  state this.
- The sources check servo angles and compute the streaming rate against the
  module-level `SETTINGS`, not the controller's `settings`. The model passes
  `Default` to them. So `StartSucceedsExactly` holds for a controller built
  with the shipped settings.

## Model

| member | source | states |
|---|---|---|
| `Defaults.DefaultBounds` | src/tesla_monitor/config/settings.py:25-54 | the shipped limits are coherent: runs of 1 to 20 s; servo range 0..30 containing the default angle; a 50 ms period that divides a second; a nonzero lower divider resistor; `Req_baja <= Req_alta`; the 11 V threshold inside the 9–12 V operating range |
| `Defaults.DefaultDistanceBounds` | src/tesla_monitor/model/ecuaciones.py:33-47 | with the shipped arm (0.22 m) and offset (0.325 m), the loop-to-coil distance lies in [0.105, 0.545] m for every servo angle |
| `Defaults.DefaultSamplesDefined` | src/tesla_monitor/model/modelo.py:88-97 | with the shipped settings every processed sample has finite theoretical signals and finite absolute and relative errors, for any frame: the `inf` branches of `tendencia` and `error_rel` are never taken |
| `Defaults.DefaultPowerUnfloored` | src/tesla_monitor/model/ecuaciones.py:69-86 | with the shipped resistances, below 11 V the resistance is 15.25 Ω and from 11 V on it is 19.64 Ω; the `1e-12` floor never engages, so the power is exactly `Vin^2 / Req` |
| `Equations.RadicandBound` | src/tesla_monitor/model/ecuaciones.py:45-47 | the expression under the square root is at least `(abs(L) - abs(y0))^2`, so `math.sqrt` never receives a negative number, for any angle and geometry |
| `Equations.Distance` | src/tesla_monitor/model/ecuaciones.py:33-47 | the distance is non-negative and its square is the law-of-cosines radicand |
| `Equations.VinReal` | src/tesla_monitor/model/ecuaciones.py:54-62 | the reconstructed voltage satisfies `Vin * Rbot == Vdiv * (Rtop + Rbot)` |
| `Equations.VinRealInvertsDivider` | src/tesla_monitor/model/ecuaciones.py:54-62 | reconstruction and the divider equation `Vdiv = Vin * Rbot / (Rtop + Rbot)` are inverse to each other, both ways round |
| `Equations.VinRealLinear` | src/tesla_monitor/model/ecuaciones.py:61-62 | reconstruction is linear in the divider reading |
| `Equations.ReqPorTramos` | src/tesla_monitor/model/ecuaciones.py:69-77 | the result is one of the two regime resistances, and lies between them when they are ordered (the threshold rule in `ReqStep`) |
| `Equations.ReqStep` | src/tesla_monitor/model/ecuaciones.py:69-77 | the low resistance is chosen exactly below the threshold, and the threshold itself belongs to the high regime |
| `Equations.ReqMonotone` | src/tesla_monitor/model/ecuaciones.py:69-77 | when `Req_baja <= Req_alta`, the chosen resistance never decreases as `Vin` grows |
| `Equations.PotenciaIn` | src/tesla_monitor/model/ecuaciones.py:80-86 | the power is non-negative, and multiplied by the floored resistance it gives `Vin^2` |
| `Equations.PotenciaUnfloored` | src/tesla_monitor/model/ecuaciones.py:80-86 | for a resistance at or above the floor, `Pin * Req == Vin^2` |
| `Equations.Tendencia` | src/tesla_monitor/model/ecuaciones.py:93-99 | the sentinel is returned exactly when `r <= 0`; otherwise the value is positive and times `r^n` gives 1 |
| `Equations.BTeo` | src/tesla_monitor/model/ecuaciones.py:102-107 | undefined exactly when `r <= 0`; otherwise `B_teo * r^n == Kb` for every exponent, and `B_teo * r == Kb` for `n = 1` |
| `Equations.LTeo` | src/tesla_monitor/model/ecuaciones.py:110-115 | undefined exactly when `r <= 0`; otherwise `L_teo * r^2 == Kl` |
| `Equations.ErrorAbs` | src/tesla_monitor/model/ecuaciones.py:136-138 | defined exactly when the theory is; `teo + err == exp` |
| `Equations.ErrorAbsExact` | src/tesla_monitor/model/ecuaciones.py:136-138 | a perfect prediction has zero absolute error |
| `Equations.ErrorRel` | src/tesla_monitor/model/ecuaciones.py:141-148 | undefined exactly when the theory is undefined or below `1e-12` in magnitude; otherwise `err * teo == exp - teo` |
| `Equations.ErrorRelOfAbs` | src/tesla_monitor/model/ecuaciones.py:136-148 | whenever the relative error exists, the absolute one does too and `rel * teo == abs` |
| `Model.NewModelo` | src/tesla_monitor/model/modelo.py:28-60 | a new model keeps the calibration it is given and starts with an empty history |
| `Model.Transform` | src/tesla_monitor/model/modelo.py:67-117 | the raw fields are copied and distance and power are non-negative (full specification in `TransformConsistent`) |
| `Model.TransformConsistent` | src/tesla_monitor/model/modelo.py:67-117 | every processed sample relates to its frame as `Consistent` describes: raw fields copied, geometry, electrical, signal and error relations |
| `Model.TransformGeometry` | src/tesla_monitor/model/modelo.py:69-70 | `r_m` is the non-negative root of the radicand at the frame's angle |
| `Model.TransformElectrical` | src/tesla_monitor/model/modelo.py:72-82 | `V_in` undoes the divider for `v_div`; `P_in` is non-negative and consistent with the regime resistance chosen for that `V_in` |
| `Model.TransformSignals` | src/tesla_monitor/model/modelo.py:84-90 | experimental signals are the raw channels; theoretical ones are `Kb/r` and `Kl/r^2`, undefined exactly at `r == 0` |
| `Model.TransformErrors` | src/tesla_monitor/model/modelo.py:92-97 | absolute errors satisfy `exp = teo + err`; relative errors exist exactly when `teo` is finite and not near zero, and scale the absolute ones |
| `Model.Procesar` | src/tesla_monitor/model/modelo.py:67-121 | processing keeps the calibration, appends exactly one sample after the unchanged old history, and returns that sample |
| `Model.ProcesarConsistent` | src/tesla_monitor/model/modelo.py:67-121 | the sample appended and returned satisfies `Consistent` for its frame |
| `Model.Reset` | src/tesla_monitor/model/modelo.py:126-127 | the history becomes empty and the calibration is kept |
| `Model.GetHistorial` | src/tesla_monitor/model/modelo.py:132-134 | the snapshot has the history's length and its samples in order |
| `Model.HistoryCountsProcessed` | src/tesla_monitor/model/modelo.py:119-121 | after processing `n` frames the history has grown by `n`; the old part is unchanged, and entry `i` of the new part is the transform of frame `i` |
| `Model.HistoryAfterReset` | src/tesla_monitor/model/modelo.py:126-127 | after a reset, the history holds one sample per frame processed since |
| `Model.SnapshotIsPrefix` | src/tesla_monitor/model/modelo.py:132-134 | an earlier snapshot is a prefix of every later history |
| `Decoder.Decode` | src/tesla_monitor/controller/decodificador.py:22-77 | a line is rejected as not data exactly when its trimmed form lacks `DATA,`; an accepted line has six fields whose first two read as the sample's integers (full specification in `DecodeSpec`) |
| `Decoder.DecodeSpec` | src/tesla_monitor/controller/decodificador.py:22-77 | a line is rejected as not data exactly when its trimmed form lacks `DATA,`, and on its field count exactly when it does not split into 6 fields; on success the sample holds the converted fields 1–5; the conversion error is raised exactly when one of the five conversions fails |
| `Decoder.DecodeOfFields` | src/tesla_monitor/controller/decodificador.py:51-77 | a tagged line of six fields that all convert decodes to exactly their values |
| `Decoder.DecodeIgnoresPadding` | src/tesla_monitor/controller/decodificador.py:36-37 | surrounding whitespace never changes the outcome |
| `Decoder.DecodeEncode` | src/tesla_monitor/controller/decodificador.py:8-12 | decoding the frame the firmware sends for a sample gives back that sample, whenever the formatter writes each of the sample's voltages as plain text that `float()` reads back |
| `Decoder.DecodeEncodeInstance` | src/tesla_monitor/controller/decodificador.py:8-12 | the requirement of `DecodeEncode` can be met: a sample whose voltages are 1.5, written as `1.5`, decodes back to itself |
| `Decoder.RejectsStatusLine` | src/tesla_monitor/controller/decodificador.py:39-41 | a `READY` status line is rejected as not being a data line |
| `Decoder.RejectsShortFrame` | src/tesla_monitor/controller/decodificador.py:46-49 | `DATA,1,2,3` is rejected for having 4 fields |
| `Decoder.DecodesExample` | src/tesla_monitor/controller/decodificador.py:11-12 | the documented example frame decodes to `(12345, 10, 0.915, 0.6231, 0.1042)` |
| `Text.Strip` | src/tesla_monitor/controller/decodificador.py:36-37 | the result is no longer than the input and neither starts nor ends with whitespace |
| `Text.Split` | src/tesla_monitor/controller/decodificador.py:43-44 | `split(",")` yields at least one field and no field holds a comma (undone by `join`, see `SplitJoin`) |
| `Text.ParseInt` | src/tesla_monitor/controller/decodificador.py:61-63 | only an optionally signed run of decimal digits inside whitespace is accepted; an unsigned one reads as non-negative and a `-` one as non-positive (acceptance of the whole grammar, and the value, in `ParseIntOfGrammar`) |
| `Text.ParseIntOfGrammar` | src/tesla_monitor/controller/decodificador.py:61-63 | every `ws* [+-]? digit+ ws*` field is accepted, and its value is the decimal value of the digits, negated after `-` (so `+12` gives 12 and ` 007 ` gives 7) |
| `Text.StripIgnoresPadding` | src/tesla_monitor/controller/decodificador.py:36-37 | `strip()` removes any surrounding whitespace and nothing else |
| `Text.SplitJoin` | src/tesla_monitor/controller/decodificador.py:43-44 | splitting on commas undoes joining fields that hold no comma |
| `Text.ShowIntRoundTrip` | src/tesla_monitor/controller/decodificador.py:61-63 | `int(str(i)) == i` for every integer |
| `Sources.Connect` | src/tesla_monitor/controller/fuentes.py:77-93 | connecting opens the port; the model keeps the pending lines (the buffer flush is left out) |
| `Sources.Close` | src/tesla_monitor/controller/fuentes.py:95-100 | an open port becomes closed; an unopened or closed one is untouched; a CSV file is marked closed |
| `Sources.PortFailure` | src/tesla_monitor/controller/fuentes.py:118-119 | an operation fails exactly on a port that is not open; an unopened port gives the not-connected error |
| `Sources.SendCommand` | src/tesla_monitor/controller/fuentes.py:106-122 | on an open port the trimmed command plus a newline is written; otherwise nothing is written and the port error is raised |
| `Sources.CommandFraming` | src/tesla_monitor/controller/fuentes.py:121-122 | what is written ends in exactly one newline after the trimmed command, and trimming it again recovers the command |
| `Sources.ServoCommandReadsBack` | src/tesla_monitor/controller/fuentes.py:138 | the written servo line starts with `SERVO=` followed by digits that read back as the angle |
| `Sources.SerialSetServo` | src/tesla_monitor/controller/fuentes.py:124-138 | an out-of-range angle is refused with nothing sent; otherwise `SERVO=<deg>` is sent |
| `Sources.RoundHalfEven` | src/tesla_monitor/controller/fuentes.py:153 | `round()` is within half a unit of its argument, and an exact tie goes to the even neighbour |
| `Sources.RoundHalfEvenUnique` | src/tesla_monitor/controller/fuentes.py:153 | any integer meeting those two conditions is the value of `round()` |
| `Sources.RateHz` | src/tesla_monitor/controller/fuentes.py:153 | a zero period raises a division by zero; otherwise the rate is at least 1 Hz |
| `Sources.RateAtDefault` | src/tesla_monitor/controller/fuentes.py:151-153 | the shipped 50 ms period streams at 20 Hz |
| `Sources.RateTiesToEven` | src/tesla_monitor/controller/fuentes.py:153 | 16 ms gives 62.5 Hz, which `round()` sends to 62 |
| `Sources.RateRange` | src/tesla_monitor/controller/fuentes.py:153 | a negative period yields 1 Hz; a period up to a second yields the integer nearest `1000/dt` |
| `Sources.StartStream` | src/tesla_monitor/controller/fuentes.py:140-157 | on an open port `RAW=0`, `RATE=<hz>`, `START` are sent in that order; a zero period fails after `RAW=0`; a port that is not open fails with nothing sent |
| `Sources.StopStream` | src/tesla_monitor/controller/fuentes.py:159-163 | `STOP` is written on an open port; otherwise the port error is raised |
| `Sources.FirstStop` | src/tesla_monitor/controller/fuentes.py:179-195 | the read stops at the first line that is empty or, once trimmed, starts with `DATA,`; every line before it is skipped |
| `Sources.ScanForData` | src/tesla_monitor/controller/fuentes.py:179-195 | the read consumes at least one pending line and leaves a suffix of them unread (outcome specified by `ScanSpec`) |
| `Sources.ScanSpec` | src/tesla_monitor/controller/fuentes.py:179-195 | at that line an empty read is a timeout and a tagged one is decoded; running out of lines is a timeout; the lines after it stay unread |
| `Sources.ScanOnlyNoise` | src/tesla_monitor/controller/fuentes.py:187-195 | when only status and blank lines arrive, the read times out having consumed them all |
| `Sources.ScanFindsFrame` | src/tesla_monitor/controller/fuentes.py:169-195 | a firmware frame with any line ending, after any number of skipped lines, is decoded to its sample and the following lines stay unread (for voltages whose text reads back) |
| `Sources.SerialRead` | src/tesla_monitor/controller/fuentes.py:169-195 | a serial read on a port that is not open fails without consuming input; on an open port it is the scan of the pending lines, and nothing is written |
| `Sources.Jitter` | src/tesla_monitor/controller/fuentes.py:262-264 | a simulated channel reading differs from its base value by no more than the noise amplitude |
| `Sources.UniformBetween` | src/tesla_monitor/controller/fuentes.py:262-264 | `random.uniform(a, b)` lies between its bounds, whichever is larger |
| `Sources.SimSetServo` | src/tesla_monitor/controller/fuentes.py:236-250 | the simulator holds an in-range angle and refuses an out-of-range one, staying unchanged |
| `Sources.SimulatedRead` | src/tesla_monitor/controller/fuentes.py:252-272 | a simulated read always succeeds; the clock advances one period and stamps the sample, which carries the held angle and channels within noise of their bases |
| `Sources.SimulatedClock` | src/tesla_monitor/controller/fuentes.py:252-272 | over `n` reads the `i`-th sample is stamped `t0 + (i+1)*dt` at the held angle, and the clock ends at `t0 + n*dt` |
| `Sources.IntCell` | src/tesla_monitor/controller/fuentes.py:321-322 | a missing column and an unparsable cell are distinguished; a parsed cell gives its integer |
| `Sources.FloatCell` | src/tesla_monitor/controller/fuentes.py:323-325 | the same, for `float()` |
| `Sources.RowToSample` | src/tesla_monitor/controller/fuentes.py:320-326 | a converted row holds the five cell values; a failure means some cell failed (order of failures in `RowToSampleSpec`) |
| `Sources.RowToSampleSpec` | src/tesla_monitor/controller/fuentes.py:320-326 | a row converts exactly when all five cells do, to their values; otherwise the error of the first failing column in constructor order is raised |
| `Sources.CsvStep` | src/tesla_monitor/controller/fuentes.py:303-326 | a closed file fails and stays put; an open one yields the row at the cursor and advances, or signals the end of data and stays |
| `Sources.CsvNext` | src/tesla_monitor/controller/fuentes.py:303-326 | a closed file fails; an open one converts the row at the cursor and advances, or raises end-of-data and stays; the rows and open flag never change |
| `Sources.SetServo` | src/tesla_monitor/controller/controller.py:195-196 | only an in-range angle is accepted; the simulator then holds it and the serial source writes `SERVO=<deg>`; a refusal or failure leaves the source as it was |
| `Sources.CsvReadsInOrder` | src/tesla_monitor/controller/fuentes.py:309-326 | successive reads of an open CSV source hand out its rows in file order, then end-of-data on every further read |
| `Sources.CsvCursor` | src/tesla_monitor/controller/fuentes.py:309-318 | `n` reads advance the cursor by `n`, stopping at the end of the file |
| `Sources.CsvRowRoundTrip` | src/tesla_monitor/controller/fuentes.py:320-326 | reading back a row written from a sample gives the sample, whenever `float()` reads each written voltage back |
| `Sources.ReadSample` | src/tesla_monitor/controller/fuentes.py:40-41 | a read never changes which kind of source it is |
| `Controller.CalibrationOf` | src/tesla_monitor/controller/controller.py:80-90 | the model receives all nine constants of the settings: geometry, divider resistors, regime resistances and threshold, `Kb` and `Kl` |
| `Controller.Init` | src/tesla_monitor/controller/controller.py:74-102 | a new controller is IDLE, unvalidated, without resources, configuration, window or error, with an empty model built from the settings |
| `Controller.Remaining` | src/tesla_monitor/controller/controller.py:117-120 | there is no remaining time without a run window; otherwise it is `max(0, t_fin - now)` |
| `Controller.SetChecklist` | src/tesla_monitor/controller/controller.py:129-145 | only IDLE→READY on validation and READY→IDLE on withdrawal; every other state is kept |
| `Controller.OpenResources` | src/tesla_monitor/controller/controller.py:151-158 | only the serial source is connected, and only on the first call |
| `Controller.CloseResources` | src/tesla_monitor/controller/controller.py:160-174 | once opened, a serial source is stopped (ignoring failure) and closed and a CSV file closed; the simulator is untouched |
| `Controller.QuietStop` | src/tesla_monitor/controller/controller.py:317-322 | `STOP` is sent on an open serial port; any failure is swallowed; other sources are untouched |
| `Controller.Actuate` | src/tesla_monitor/controller/controller.py:193-196 | only the serial and simulated sources receive the angle; their failure is raised with the new angle already recorded |
| `Controller.SetServoDeg` | src/tesla_monitor/controller/controller.py:180-196 | refused outside RUNNING_MANUAL and outside the servo range, with nothing changed; otherwise forwarded |
| `Controller.Preview` | src/tesla_monitor/controller/controller.py:198-217 | refused outside READY and outside the servo range, with nothing changed; otherwise forwarded |
| `Controller.StartGuard` | src/tesla_monitor/controller/controller.py:225-235 | the guard passes exactly with a validated checklist, READY, and a duration within [min, max]; the first failing check names the error |
| `Controller.WithPath` | src/tesla_monitor/controller/controller.py:237-238 | a configuration without an export path gets the one in the settings; nothing else changes |
| `Controller.Prepare` | src/tesla_monitor/controller/controller.py:237-247 | the configuration is recorded, the history cleared and resources opened; a serial source is connected on the first call and `start_stream` then runs on it, which is the only step that can fail; a serial port ends open |
| `Controller.Start` | src/tesla_monitor/controller/controller.py:223-269 | a failed guard changes nothing. Success means the guard passed and the angle is in range, and gives the mode's running state, the window `[now, now + duration]`, a cleared model and error and the initial angle. A bad initial angle leaves READY with the window untouched but resources opened |
| `Controller.Launch` | src/tesla_monitor/controller/controller.py:249-269 | after preparation: a bad initial angle is raised; otherwise the servo is positioned and, if that succeeds, the run window opens in the mode's running state |
| `Controller.Finalize` | src/tesla_monitor/controller/controller.py:324-337 | a serial stream is stopped, the history exported to the run's path, and the state is FINISHED without a window |
| `Controller.ExportPath` | src/tesla_monitor/controller/controller.py:329-331 | the run's path when one was configured, the settings' path otherwise |
| `Controller.Stop` | src/tesla_monitor/controller/controller.py:271-277 | a running experiment is finalized; anything else is left as it is |
| `Controller.Tick` | src/tesla_monitor/controller/controller.py:283-305 | nothing happens when not running; the deadline finalizes; a failed read moves to ERROR with its cause and a quiet stop; a good read is processed into the model |
| `Controller.ResetController` | src/tesla_monitor/controller/controller.py:343-359 | from any state: IDLE, unvalidated, no configuration, window, export or error, empty history. Opened resources are released: a serial port is closed after `STOP` (sent twice when a run was interrupted), a CSV file is closed at its row, and the simulator is untouched |
| `ControllerFacts.Apply` | src/tesla_monitor/controller/controller.py:74-90 | no call changes the settings, the calibration or the kind of source |
| `ControllerFacts.InitInv` | src/tesla_monitor/controller/controller.py:74-102 | a new controller satisfies the invariant and reports no remaining time |
| `ControllerFacts.ApplyInv` | src/tesla_monitor/controller/controller.py:129-359 | every public call keeps the invariant: a window is set while running and spans the duration; no window in IDLE, READY or FINISHED; READY implies a validated checklist; a configuration has an export path; an opened serial port is open |
| `ControllerFacts.RunInv` | src/tesla_monitor/controller/controller.py:129-359 | every sequence of calls from a controller satisfying the invariant keeps it |
| `ControllerFacts.PrepareStartsStream` | src/tesla_monitor/controller/controller.py:244-247 | a first start on a serial source connects it and writes `RAW=0`, `RATE=20`, `START` in that order without failing, before the initial angle is checked |
| `ControllerFacts.StartInv` | src/tesla_monitor/controller/controller.py:223-269 | `start_experimento` keeps the invariant on every path, including the raising ones |
| `ControllerFacts.LaunchInv` | src/tesla_monitor/controller/controller.py:249-269 | the part after preparation keeps the invariant |
| `ControllerFacts.TickInv` | src/tesla_monitor/controller/controller.py:283-305 | `tick` keeps the invariant |
| `ControllerFacts.TerminalStaysPut` | src/tesla_monitor/controller/controller.py:133-145 | in FINISHED or ERROR every call but `reset` leaves the state as it is, and `reset` goes to IDLE |
| `ControllerFacts.TerminalUntilReset` | src/tesla_monitor/controller/controller.py:343-359 | no sequence of calls without `reset` leaves FINISHED or ERROR |
| `ControllerFacts.RefusesLongRun` | src/tesla_monitor/controller/controller.py:234-235 | with the shipped settings a 25 s run is refused as too long and nothing changes |
| `ControllerFacts.StartSucceedsExactly` | src/tesla_monitor/controller/controller.py:223-269 | with the shipped settings, starting succeeds exactly when the guard passes and the initial angle is in range |
| `ControllerFacts.RemainingAfterStart` | src/tesla_monitor/controller/controller.py:260-261 | right after a successful start the whole duration remains |
| `ControllerFacts.RemainingNonIncreasing` | src/tesla_monitor/controller/controller.py:117-120 | the remaining time never grows as the clock advances |
| `ControllerFacts.TickAtDeadline` | src/tesla_monitor/controller/controller.py:291-295 | a tick at or after the end of the window finishes: FINISHED, no window, history exported, model unchanged |
| `ControllerFacts.TickReadFailure` | src/tesla_monitor/controller/controller.py:297-303 | a failed read moves to ERROR with its cause, keeps the window and the history |
| `ControllerFacts.TickAppends` | src/tesla_monitor/controller/controller.py:297-305 | a good read before the deadline keeps state and window and appends exactly the processed sample |
| `ControllerFacts.SimulatedTick` | src/tesla_monitor/controller/controller.py:297-305 | on the simulator a tick before the deadline advances the source clock one period and appends a sample stamped with the new time and the held angle, changing nothing else |
| `ControllerFacts.SimulatedTicks` | src/tesla_monitor/controller/controller.py:307-311 | on the simulator `n` ticks before the deadline never fail: state and window are kept, the clock advances `n` periods, `n` samples are appended after the unchanged history |
| `ControllerFacts.SimulatedSamples` | src/tesla_monitor/controller/controller.py:307-311 | those samples are stamped one period apart from one period after the start clock, at the held angle |
| `ControllerFacts.ClockLinear` | src/tesla_monitor/controller/fuentes.py:260 | `k` periods after `t0` the clock reads `t0 + k*dt` |
| `ControllerFacts.ServoReachesSamples` | src/tesla_monitor/controller/controller.py:193-196 | with the shipped settings an angle accepted in manual mode is held by the simulator and stamped on the next recorded sample |
| `ControllerFacts.ResetReleasesResources` | src/tesla_monitor/controller/controller.py:343-359 | on a reachable controller, `reset` closes an opened serial port after one `STOP` (two when a run is interrupted), closes an opened CSV file at its row, and leaves the simulator untouched |
| `ControllerFacts.ReadyAgainAfterReset` | src/tesla_monitor/controller/controller.py:343-359 | after `reset` from any state, validating the checklist gives READY with an empty history, and the invariant is kept |

## Left out

- The Streamlit view, `main.py`, the ESP32 logger tool, `microcontrolador.py`,
  `sensores.py` and `CODIGO1_INGESO.py`. They are callers or stubs, not part
  of the acquisition core.
- `exportar_csv`: `almacenamiento.py` as shipped holds only a docstring. The
  exporter is a parameter of the controller's environment, and what it writes
  is not part of this model.
- Controller.Start: `ConfigExperimento` is a mutable dataclass, and the model
  stores a copy of it. So two effects on the caller's object are not modelled.
  First, `cfg.ruta_csv = self.settings.ruta_csv` (controller.py:237-238)
  writes the default path into the caller's object, and the caller sees it even
  when start then raises on the angle or the stream. Second, `self._cfg = cfg`
  (controller.py:240) keeps a reference. A later change by the caller to that
  object therefore changes the path `_finalizar_experimento` exports to
  (controller.py:329-331). Setting `ruta_csv = None` would even reach
  `exportar_csv(hist, None)`, a case `ExportPath` never produces.
- Sources.Connect: `conectar` flushes both line buffers with
  `reset_input_buffer` / `reset_output_buffer`. The model keeps the pending
  lines, because it has no timing that would tell stale lines from fresh ones.
- Serial I/O. There is no pyserial and no byte encoding. A failed
  `serial.Serial(...)` or a missing pyserial (`ImportError`) is not modelled,
  so `Connect` always opens the port.
- The text of exception messages. The controller's `_error_msg` is recorded
  as the `SourceError` that caused it, not as the formatted string.
- Floating point. Reals stand for floats and there is no rounding. `round()`
  is exact banker's rounding on the real `1000/dt`.
- `Model.Transform`, `Controller.Tick`: both require `Rbot != 0`. With
  `Rbot == 0` the code raises `ZeroDivisionError` from `vin_real` inside
  `tick`, where nothing catches it. The shipped settings have a nonzero
  `Rbot` (`Defaults.DefaultBounds`).
- Exceptions raised by `exportar_csv` or by `modelo.procesar_muestra` inside
  `tick` and `_finalizar_experimento`. They would propagate to the caller with
  the state half-updated. The model treats both as total.
- `int()` accepts only ASCII digits with an optional sign and surrounding
  whitespace. Python also accepts underscores between digits and non-ASCII
  digits.
- Opening a CSV file (`FileNotFoundError`) and re-opening it. After `reset`
  closes a CSV source, a later run reads from the closed file, and the model
  gives `FileClosed`, which drives the tick to ERROR.
- `construir_fuente_serial` and `construir_fuente_simulada`. They only call
  constructors with fixed arguments.
- The getters `get_estado`, `get_error_msg` and `get_ultimo_csv_path`. They
  only read fields, which are fields of the `Controller` datatype.
