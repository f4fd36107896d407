/** The three data sources behind the `leer_muestra()` contract: the ESP32
    on a serial line, the noisy simulator, and a CSV file read row by row.
    Each source is a value; every operation returns the source as it is
    afterwards together with what it produced or the error it raised. */
module Sources {
  import opened Base
  import opened Text
  import opened Samples
  import opened Decoder
  import opened Configuration

  /** The life cycle of the pyserial handle: never opened (`_ser is None`),
      open, or closed by `cerrar()` (the handle is kept, so it is not `None`). */
  datatype Port = Unopened | Open | Closed

  /** One value per analogue channel. */
  datatype Channels = Channels(vDiv: real, vRf: real, vPhoto: real)

  /** A draw of `random.random()`: a real in `[0, 1)`. */
  type Unit = f: real | 0.0 <= f < 1.0

  /** The three draws one simulated reading consumes, in channel order. */
  datatype Draws = Draws(div: Unit, rf: Unit, photo: Unit)

  /** A row of `csv.DictReader`: column name to cell text. */
  type Row = map<string, string>

  datatype Source =
      /** `incoming` are the lines `readline()` will return, already decoded;
          an empty line stands for a read that timed out. `sent` are the
          lines written so far. */
    | Serial(port: Port, incoming: seq<string>, sent: seq<string>)
    | Simulated(dtMs: int, tMs: int, servoDeg: int, base: Channels, noise: Channels)
    | Csv(rows: seq<Row>, cursor: nat, isOpen: bool)

  /** Everything a source operation can raise. */
  datatype SourceError =
    | NotConnected            // serial used before `conectar()`
    | PortClosed              // serial used after `cerrar()`
    | Timeout                 // `readline()` returned nothing
    | Protocol(cause: DecodeError)
    | AngleOutOfRange(deg: int)
    | EndOfData               // `StopIteration` at the end of the CSV
    | FileClosed              // CSV read after `cerrar()`
    | MissingColumn(column: string)
    | BadCell(column: string)
    | DivisionByZero          // `1000.0 / dt_ms` with `dt_ms == 0`

  /** The outcome of `leer_muestra()`. */
  datatype Read = Read(result: Result<RawSample, SourceError>, after: Source)

  /** The outcome of an operation that returns nothing but may raise. */
  datatype Effect = Effect(after: Source, failure: Option<SourceError>)

  /** Sources that drive a servo (`FuenteSerialESP32` and `FuenteSimulada`). */
  predicate Actuates(src: Source) {
    src.Serial? || src.Simulated?
  }

  // ---------------------------------------------------------------------
  // Serial source
  // ---------------------------------------------------------------------

  /** `conectar()`: opens (or reopens) the port. */
  function Connect(src: Source): (r: Source)
    requires src.Serial?
    ensures r.Serial? && r.port == Open
    ensures r.incoming == src.incoming && r.sent == src.sent
  {
    src.(port := Open)
  }

  /** `cerrar()` on a serial or CSV source. */
  function Close(src: Source): (r: Source)
    requires src.Serial? || src.Csv?
    ensures src.Serial? ==> r.Serial? && r.incoming == src.incoming && r.sent == src.sent
    ensures src.Serial? && src.port == Unopened ==> r.port == Unopened
    ensures src.Serial? && src.port == Open ==> r.port == Closed
    ensures src.Serial? && src.port == Closed ==> r.port == Closed
    ensures src.Csv? ==> r == src.(isOpen := false)
  {
    if src.Serial? then
      if src.port == Open then src.(port := Closed) else src
    else src.(isOpen := false)
  }

  /** The error a serial operation raises on a port that is not open. */
  function PortFailure(port: Port): (e: Option<SourceError>)
    ensures e.None? <==> port == Open
    ensures port == Unopened ==> e == Some(NotConnected)
    ensures port == Closed ==> e == Some(PortClosed)
  {
    match port
    case Unopened => Some(NotConnected)
    case Closed => Some(PortClosed)
    case Open => None
  }

  /** The bytes `enviar_comando` writes for a command. */
  function Frame(cmd: string): string {
    Strip(cmd) + "\n"
  }

  /** `enviar_comando`: writes the trimmed command and one newline; nothing
      is written when the port is not open. */
  function SendCommand(src: Source, cmd: string): (e: Effect)
    requires src.Serial?
    ensures e.failure == PortFailure(src.port)
    ensures e.failure.Some? ==> e.after == src
    ensures e.failure.None? ==> e.after == src.(sent := src.sent + [Frame(cmd)])
  {
    match PortFailure(src.port)
    case Some(err) => Effect(src, Some(err))
    case None => Effect(src.(sent := src.sent + [Frame(cmd)]), None)
  }

  /** The fixed commands of the streaming protocol. */
  const RawCommand: string := "RAW=0"
  const StartCommand: string := "START"
  const StopCommand: string := "STOP"

  /** The rate command for a frequency in Hz. */
  function RateCommand(hz: int): string {
    "RATE=" + ShowInt(hz)
  }

  /** The servo command for an angle. */
  function ServoCommand(deg: int): string {
    "SERVO=" + ShowInt(deg)
  }

  /** `FuenteSerialESP32.set_servo_deg`: range check against the settings,
      then `SERVO=<deg>`. */
  function SerialSetServo(src: Source, deg: int, g: Settings): (e: Effect)
    requires src.Serial?
    ensures !InServoRange(deg, g) ==> e == Effect(src, Some(AngleOutOfRange(deg)))
    ensures InServoRange(deg, g) ==> e == SendCommand(src, ServoCommand(deg))
  {
    if deg < g.servoDegMin || deg > g.servoDegMax then Effect(src, Some(AngleOutOfRange(deg)))
    else SendCommand(src, ServoCommand(deg))
  }

  /** Python's `round()` on a real: to the nearest integer, ties to even. */
  function RoundHalfEven(q: real): (r: int)
    ensures -0.5 <= r as real - q <= 0.5
    ensures (r as real - q == 0.5 || q - r as real == 0.5) ==> r % 2 == 0
  {
    var f := q.Floor;
    var d := q - f as real;
    if d < 0.5 then f
    else if d > 0.5 then f + 1
    else if f % 2 == 0 then f
    else f + 1
  }

  /** `max(1, int(round(1000.0 / float(dt_ms))))`: the streaming rate in Hz. */
  function RateHz(dtMs: int): (r: Result<int, SourceError>)
    ensures r.Err? <==> dtMs == 0
    ensures r.Err? ==> r.error == DivisionByZero
    ensures r.Ok? ==> r.value >= 1
  {
    if dtMs == 0 then Err(DivisionByZero)
    else
      var hz := RoundHalfEven(1000.0 / dtMs as real);
      Ok(if hz < 1 then 1 else hz)
  }

  /** `start_stream`: `RAW=0`, then `RATE=<hz>`, then `START`. The rate is
      computed after the first command has gone out. */
  function StartStream(src: Source, g: Settings): (e: Effect)
    requires src.Serial?
    ensures e.after.Serial? && e.after.port == src.port && e.after.incoming == src.incoming
    ensures src.port != Open ==> e == Effect(src, PortFailure(src.port))
    ensures src.port == Open && g.dtMs == 0 ==>
      e == Effect(src.(sent := src.sent + [Frame(RawCommand)]), Some(DivisionByZero))
    ensures src.port == Open && g.dtMs != 0 ==>
      && e.failure.None?
      && e.after.sent == src.sent + [Frame(RawCommand)] + [Frame(RateCommand(RateHz(g.dtMs).value))] + [Frame(StartCommand)]
  {
    var raw := SendCommand(src, RawCommand);
    if raw.failure.Some? then raw
    else
      match RateHz(g.dtMs)
      case Err(err) => Effect(raw.after, Some(err))
      case Ok(hz) =>
        var rate := SendCommand(raw.after, RateCommand(hz));
        if rate.failure.Some? then rate else SendCommand(rate.after, StartCommand)
  }

  /** `stop_stream`: writes `STOP` on an open port, fails otherwise. */
  function StopStream(src: Source): (e: Effect)
    requires src.Serial?
    ensures e.failure == PortFailure(src.port)
    ensures e.failure.Some? ==> e.after == src
    ensures e.failure.None? ==> e.after == src.(sent := src.sent + [Frame(StopCommand)])
  {
    SendCommand(src, StopCommand)
  }

  /** A line `leer_muestra` skips: something arrived, but after trimming it
      is empty or is not a data frame. */
  predicate Skippable(line: string) {
    line != "" && !StartsWith(Strip(line), Tag)
  }

  /** The position of the first line `leer_muestra` does not skip, or the
      number of lines when it skips them all. */
  function FirstStop(lines: seq<string>): (k: nat)
    ensures k <= |lines|
    ensures forall i :: 0 <= i < k ==> Skippable(lines[i])
    ensures k < |lines| ==> !Skippable(lines[k])
    decreases |lines|
  {
    if |lines| == 0 || !Skippable(lines[0]) then 0 else 1 + FirstStop(lines[1..])
  }

  /** Decoder failures surface as protocol errors. */
  function AsProtocol(r: Result<RawSample, DecodeError>): Result<RawSample, SourceError> {
    match r
    case Ok(s) => Ok(s)
    case Err(e) => Err(Protocol(e))
  }

  /** The `while True` loop of `leer_muestra`: skip blank and non-data
      lines; stop with a timeout on an empty read or when nothing more
      arrives; decode the first data frame. Returns the outcome and the
      lines left unread. */
  function ScanForData(lines: seq<string>, parseFloat: string -> Option<real>): (r: (Result<RawSample, SourceError>, seq<string>))
    ensures |r.1| <= |lines| && r.1 == lines[|lines| - |r.1|..]
    ensures |lines| > 0 ==> |r.1| < |lines|
    decreases |lines|
  {
    if |lines| == 0 then (Err(Timeout), [])
    else if lines[0] == "" then (Err(Timeout), lines[1..])
    else
      var linea := Strip(lines[0]);
      if linea == "" then ScanForData(lines[1..], parseFloat)
      else if StartsWith(linea, Tag) then (AsProtocol(Decode(linea, parseFloat)), lines[1..])
      else ScanForData(lines[1..], parseFloat)
  }

  // ---------------------------------------------------------------------
  // Simulated source
  // ---------------------------------------------------------------------

  /** `random.uniform(a, b)`, which CPython computes as `a + (b - a) * random()`. */
  function Uniform(a: real, b: real, f: Unit): real {
    a + (b - a) * f
  }

  /** A channel reading: its base value plus uniform noise of the given amplitude. */
  function Jitter(base: real, noise: real, f: Unit): (v: real)
    ensures Abs(v - base) <= Abs(noise)
  {
    UniformBetween(-noise, noise, f);
    base + Uniform(-noise, noise, f)
  }

  /** `FuenteSimulada.set_servo_deg`. */
  function SimSetServo(src: Source, deg: int, g: Settings): (e: Effect)
    requires src.Simulated?
    ensures !InServoRange(deg, g) ==> e == Effect(src, Some(AngleOutOfRange(deg)))
    ensures InServoRange(deg, g) ==> e == Effect(src.(servoDeg := deg), None)
  {
    if deg < g.servoDegMin || deg > g.servoDegMax then Effect(src, Some(AngleOutOfRange(deg)))
    else Effect(src.(servoDeg := deg), None)
  }

  // ---------------------------------------------------------------------
  // CSV source
  // ---------------------------------------------------------------------

  /** The five columns a CSV source reads. */
  const TimeColumn := "t_ms"
  const AngleColumn := "servo_deg"
  const DivColumn := "v_div"
  const RfColumn := "v_rf"
  const PhotoColumn := "v_photo"

  /** `int(fila[column])`. */
  function IntCell(row: Row, column: string): (r: Result<int, SourceError>)
    ensures column !in row ==> r == Err(MissingColumn(column))
    ensures column in row ==> (r.Ok? <==> ParseInt(row[column]).Some?)
    ensures r.Ok? ==> column in row && ParseInt(row[column]) == Some(r.value)
    ensures r.Err? && column in row ==> r == Err(BadCell(column))
  {
    if column !in row then Err(MissingColumn(column))
    else
      match ParseInt(row[column])
      case Some(v) => Ok(v)
      case None => Err(BadCell(column))
  }

  /** `float(fila[column])`. */
  function FloatCell(row: Row, column: string, parseFloat: string -> Option<real>): (r: Result<real, SourceError>)
    ensures column !in row ==> r == Err(MissingColumn(column))
    ensures column in row ==> (r.Ok? <==> parseFloat(row[column]).Some?)
    ensures r.Ok? ==> column in row && parseFloat(row[column]) == Some(r.value)
    ensures r.Err? && column in row ==> r == Err(BadCell(column))
  {
    if column !in row then Err(MissingColumn(column))
    else
      match parseFloat(row[column])
      case Some(v) => Ok(v)
      case None => Err(BadCell(column))
  }

  /** One row as a raw sample, converting the columns in the order the
      constructor call names them; the first failure is the one raised. */
  function RowToSample(row: Row, parseFloat: string -> Option<real>): (r: Result<RawSample, SourceError>)
    ensures r.Ok? ==>
      && IntCell(row, TimeColumn) == Ok(r.value.tMs) && IntCell(row, AngleColumn) == Ok(r.value.servoDeg)
      && FloatCell(row, DivColumn, parseFloat) == Ok(r.value.vDiv)
      && FloatCell(row, RfColumn, parseFloat) == Ok(r.value.vRf)
      && FloatCell(row, PhotoColumn, parseFloat) == Ok(r.value.vPhoto)
    ensures r.Err? ==>
      || IntCell(row, TimeColumn).Err? || IntCell(row, AngleColumn).Err?
      || FloatCell(row, DivColumn, parseFloat).Err? || FloatCell(row, RfColumn, parseFloat).Err?
      || FloatCell(row, PhotoColumn, parseFloat).Err?
  {
    var tMs :- IntCell(row, TimeColumn);
    var servoDeg :- IntCell(row, AngleColumn);
    var vDiv :- FloatCell(row, DivColumn, parseFloat);
    var vRf :- FloatCell(row, RfColumn, parseFloat);
    var vPhoto :- FloatCell(row, PhotoColumn, parseFloat);
    Ok(RawSample(tMs, servoDeg, vDiv, vRf, vPhoto))
  }

  // ---------------------------------------------------------------------
  // The common contract
  // ---------------------------------------------------------------------

  /** `FuenteSerialESP32.leer_muestra`. */
  function SerialRead(src: Source, parseFloat: string -> Option<real>): (r: Read)
    requires src.Serial?
    ensures r.after.Serial? && r.after.port == src.port && r.after.sent == src.sent
    ensures src.port != Open ==> r == Read(Err(PortFailure(src.port).value), src)
    ensures src.port == Open ==>
      var (res, rest) := ScanForData(src.incoming, parseFloat);
      r == Read(res, src.(incoming := rest))
  {
    if src.port != Open then Read(Err(PortFailure(src.port).value), src)
    else
      var (res, rest) := ScanForData(src.incoming, parseFloat);
      Read(res, src.(incoming := rest))
  }

  /** `FuenteSimulada.leer_muestra`: the clock advances by one period and
      every channel gets its own draw. */
  function SimulatedRead(src: Source, draws: Draws): (r: Read)
    requires src.Simulated?
    ensures r.result.Ok? && r.after == src.(tMs := src.tMs + src.dtMs)
    ensures r.result.value.tMs == r.after.tMs && r.result.value.servoDeg == src.servoDeg
    ensures var v := r.result.value;
      && Abs(v.vDiv - src.base.vDiv) <= Abs(src.noise.vDiv)
      && Abs(v.vRf - src.base.vRf) <= Abs(src.noise.vRf)
      && Abs(v.vPhoto - src.base.vPhoto) <= Abs(src.noise.vPhoto)
  {
    var t := src.tMs + src.dtMs;
    var sample := RawSample(t, src.servoDeg,
      Jitter(src.base.vDiv, src.noise.vDiv, draws.div),
      Jitter(src.base.vRf, src.noise.vRf, draws.rf),
      Jitter(src.base.vPhoto, src.noise.vPhoto, draws.photo));
    Read(Ok(sample), src.(tMs := t))
  }

  /** `FuenteCSV.leer_muestra`: a closed file fails first; past the last
      row the cursor stays put. */
  function CsvNext(src: Source, parseFloat: string -> Option<real>): (r: Read)
    requires src.Csv?
    ensures r.after.Csv? && r.after.rows == src.rows && r.after.isOpen == src.isOpen
    ensures !src.isOpen ==> r == Read(Err(FileClosed), src)
    ensures src.isOpen && src.cursor < |src.rows| ==>
      r == Read(RowToSample(src.rows[src.cursor], parseFloat), src.(cursor := src.cursor + 1))
    ensures src.isOpen && src.cursor >= |src.rows| ==> r == Read(Err(EndOfData), src)
  {
    CsvStep(src, Converter(parseFloat))
  }

  /** The conversion of one row, as a value. */
  function Converter(parseFloat: string -> Option<real>): Row -> Result<RawSample, SourceError> {
    row => RowToSample(row, parseFloat)
  }

  /** One read from a CSV source whose rows `convert` turns into samples. */
  function CsvStep(src: Source, convert: Row -> Result<RawSample, SourceError>): (r: Read)
    requires src.Csv?
    ensures r.after.Csv? && r.after.rows == src.rows && r.after.isOpen == src.isOpen
    ensures !src.isOpen ==> r == Read(Err(FileClosed), src)
    ensures src.isOpen ==> r.result == RowAt(src.rows, src.cursor, convert)
    ensures src.isOpen ==> r.after.cursor == if src.cursor < |src.rows| then src.cursor + 1 else src.cursor
  {
    if !src.isOpen then Read(Err(FileClosed), src)
    else if src.cursor >= |src.rows| then Read(Err(EndOfData), src)
    else Read(convert(src.rows[src.cursor]), src.(cursor := src.cursor + 1))
  }

  /** What the read at a given row position yields. */
  function RowAt(rows: seq<Row>, at: nat, convert: Row -> Result<RawSample, SourceError>): Result<RawSample, SourceError> {
    if at < |rows| then convert(rows[at]) else Err(EndOfData)
  }

  /** `leer_muestra()`, dispatched on the kind of source. The serial source
      reads lines as they arrive, the simulator consumes three draws of
      `random.random()`, the CSV source the next row. */
  function ReadSample(src: Source, parseFloat: string -> Option<real>, draws: Draws): (r: Read)
    ensures r.after.Serial? == src.Serial? && r.after.Simulated? == src.Simulated? && r.after.Csv? == src.Csv?
  {
    match src
    case Serial(_, _, _) => SerialRead(src, parseFloat)
    case Simulated(_, _, _, _, _) => SimulatedRead(src, draws)
    case Csv(_, _, _) => CsvNext(src, parseFloat)
  }

  /** `set_servo_deg` on a source that drives a servo. */
  function SetServo(src: Source, deg: int, g: Settings): (e: Effect)
    requires Actuates(src)
    ensures e.failure.None? ==> InServoRange(deg, g)
    ensures !InServoRange(deg, g) ==> e == Effect(src, Some(AngleOutOfRange(deg)))
    ensures e.after.Serial? == src.Serial? && e.after.Simulated? == src.Simulated?
    ensures e.failure.Some? ==> e.after == src
    ensures src.Simulated? && e.failure.None? ==> e.after == src.(servoDeg := deg)
    ensures src.Serial? && e.failure.None? ==> e.after == src.(sent := src.sent + [Frame(ServoCommand(deg))])
  {
    if src.Serial? then SerialSetServo(src, deg, g) else SimSetServo(src, deg, g)
  }

  /** `n` consecutive reads, one set of draws each. */
  function ReadMany(src: Source, parseFloat: string -> Option<real>, draws: seq<Draws>): (r: (seq<Result<RawSample, SourceError>>, Source))
    ensures |r.0| == |draws|
    decreases |draws|
  {
    if |draws| == 0 then ([], src)
    else
      var first := ReadSample(src, parseFloat, draws[0]);
      var rest := ReadMany(first.after, parseFloat, draws[1..]);
      ([first.result] + rest.0, rest.1)
  }

  // ---------------------------------------------------------------------
  // Lemmas
  // ---------------------------------------------------------------------

  /** What reaches the firmware is the trimmed command followed by exactly
      one newline, so the firmware's own trimming recovers the command. */
  lemma CommandFraming(cmd: string)
    ensures var line := Frame(cmd);
      && |line| >= 1 && line[|line| - 1] == '\n'
      && line[..|line| - 1] == Strip(cmd)
      && Strip(line) == Strip(cmd)
      && (|line| == 1 || !IsSpace(line[|line| - 2]))
  {
    var t := Strip(cmd);
    var line := t + "\n";
    assert line[..|line| - 1] == t;
    assert AllSpace("\n");
    assert AllSpace("");
    StripIgnoresPadding("", t, "\n");
    assert "" + t + "\n" == line;
    StripIdempotent(cmd);
  }

  /** The servo command carries the angle in a form the firmware reads back. */
  lemma ServoCommandReadsBack(deg: int)
    ensures var line := Strip(Frame(ServoCommand(deg)));
      && StartsWith(line, "SERVO=")
      && ParseInt(line[6..]) == Some(deg)
  {
    var c := ServoCommand(deg);
    var digits := ShowInt(deg);
    ShowIntPlain(deg);
    assert c[0] == 'S' && c[|c| - 1] == digits[|digits| - 1];
    StripUnpadded(c);
    CommandFraming(c);
    assert c[..6] == "SERVO=";
    assert c[6..] == digits;
    ShowIntRoundTrip(deg);
  }

  /** Any integer within half a unit of `q`, and even when exactly half a
      unit away, is what `round()` returns. */
  lemma RoundHalfEvenUnique(q: real, k: int)
    requires -0.5 <= k as real - q <= 0.5
    requires (k as real - q == 0.5 || q - k as real == 0.5) ==> k % 2 == 0
    ensures RoundHalfEven(q) == k
  {
    var r := RoundHalfEven(q);
    assert -1 <= r - k <= 1;
  }

  /** The shipped period of 50 ms streams at 20 Hz. */
  lemma RateAtDefault()
    ensures RateHz(50) == Ok(20)
  {
    RoundHalfEvenUnique(1000.0 / 50.0, 20);
  }

  /** A period of 16 ms gives 62.5 Hz, which rounds to the even 62. */
  lemma RateTiesToEven()
    ensures RateHz(16) == Ok(62)
  {
    RoundHalfEvenUnique(1000.0 / 16.0, 62);
  }

  /** A negative period yields the floor rate of 1 Hz; a positive one up to
      a second yields the rate nearest to `1000 / dt`. */
  lemma RateRange(dtMs: int)
    ensures dtMs < 0 ==> RateHz(dtMs) == Ok(1)
    ensures 0 < dtMs <= 1000 ==> -0.5 <= RateHz(dtMs).value as real - 1000.0 / dtMs as real <= 0.5
  {
    if 0 < dtMs <= 1000 {
      assert 1000.0 / dtMs as real >= 1.0;
    }
  }

  /** The index of the first unskipped line is determined by the lines. */
  lemma {:induction false} FirstStopUnique(lines: seq<string>, k: nat)
    requires k <= |lines|
    requires forall i :: 0 <= i < k ==> Skippable(lines[i])
    requires k < |lines| ==> !Skippable(lines[k])
    ensures FirstStop(lines) == k
    decreases k
  {
    if k > 0 {
      assert Skippable(lines[0]);
      var tail := lines[1..];
      forall i | 0 <= i < k - 1
        ensures Skippable(tail[i])
      {
        assert tail[i] == lines[i + 1];
      }
      if k < |lines| {
        assert tail[k - 1] == lines[k];
      }
      FirstStopUnique(tail, k - 1);
    }
  }

  /** The read stops at the first line it does not skip: an empty read or
      the end of the input is a timeout, anything else is decoded; the lines
      after the stopping one stay unread. */
  lemma {:induction false} ScanSpec(lines: seq<string>, parseFloat: string -> Option<real>)
    ensures var r := ScanForData(lines, parseFloat);
      var k := FirstStop(lines);
      && (k == |lines| ==> r == (Err(Timeout), []))
      && (k < |lines| ==> r.1 == lines[k + 1..])
      && (k < |lines| && lines[k] == "" ==> r.0 == Err(Timeout))
      && (k < |lines| && lines[k] != "" ==> r.0 == AsProtocol(Decode(Strip(lines[k]), parseFloat)))
    decreases |lines|
  {
    if |lines| > 0 && Skippable(lines[0]) {
      ScanSpec(lines[1..], parseFloat);
      assert lines[1..][FirstStop(lines[1..])..] == lines[FirstStop(lines)..];
    }
  }

  /** When only noise arrives, the read times out having consumed everything. */
  lemma ScanOnlyNoise(lines: seq<string>, parseFloat: string -> Option<real>)
    requires forall i :: 0 <= i < |lines| ==> Skippable(lines[i])
    ensures ScanForData(lines, parseFloat) == (Err(Timeout), [])
  {
    FirstStopUnique(lines, |lines|);
    ScanSpec(lines, parseFloat);
  }

  /** A frame the firmware sends, with any line ending, is decoded back to the
      sample it was built from, whatever non-data lines arrived before it;
      the lines after it stay unread. */
  lemma ScanFindsFrame(noise: seq<string>, s: RawSample, f: FloatFormat, ending: string, rest: seq<string>)
    requires forall i :: 0 <= i < |noise| ==> Skippable(noise[i])
    requires SampleShowsPlain(f, s) && AllSpace(ending)
    ensures ScanForData(noise + [Encode(s, f.show) + ending] + rest, f.parse) == (Ok(s), rest)
  {
    var line := Encode(s, f.show) + ending;
    var lines := noise + [line] + rest;
    FrameLine(s, f, ending);
    assert lines[|noise|] == line;
    forall i | 0 <= i < |noise|
      ensures Skippable(lines[i])
    {
      assert lines[i] == noise[i];
    }
    FirstStopUnique(lines, |noise|);
    ScanSpec(lines, f.parse);
    assert lines[|noise| + 1..] == rest;
    DecodeEncode(s, f);
  }

  /** A frame line, with its line ending, strips back to the frame and is
      not skipped. */
  lemma FrameLine(s: RawSample, f: FloatFormat, ending: string)
    requires SampleShowsPlain(f, s) && AllSpace(ending)
    ensures Strip(Encode(s, f.show) + ending) == Encode(s, f.show)
    ensures StartsWith(Encode(s, f.show), Tag)
    ensures Encode(s, f.show) + ending != "" && !Skippable(Encode(s, f.show) + ending)
  {
    var e := Encode(s, f.show);
    EncodeFields(s, f);
    EncodeUnpadded(s, f);
    assert AllSpace("");
    StripIgnoresPadding("", e, ending);
    assert "" + e + ending == e + ending;
  }

  /** The frame built from a sample neither starts nor ends with whitespace. */
  lemma EncodeUnpadded(s: RawSample, f: FloatFormat)
    requires SampleShowsPlain(f, s)
    ensures Strip(Encode(s, f.show)) == Encode(s, f.show)
  {
    var parts := FrameFields(s, f.show);
    var e := Encode(s, f.show);
    JoinFirst(parts, ',');
    assert e[0] == 'D';
    assert PlainField(parts[5]);
    JoinLast(parts, ',');
    StripUnpadded(e);
  }

  /** The simulator's clock: the `i`-th of `n` reads is stamped `t0 + (i+1)*dt`,
      every read succeeds at the held angle, and the clock ends at `t0 + n*dt`. */
  lemma SimulatedClock(src: Source, parseFloat: string -> Option<real>, draws: seq<Draws>)
    requires src.Simulated?
    ensures var (rs, after) := ReadMany(src, parseFloat, draws);
      && after == src.(tMs := src.tMs + |draws| * src.dtMs)
      && forall i :: 0 <= i < |rs| ==>
           rs[i].Ok? && rs[i].value.tMs == src.tMs + (i + 1) * src.dtMs && rs[i].value.servoDeg == src.servoDeg
  {
    ReadManyIsSimRun(src, parseFloat, draws);
    SimRunClock(src, draws);
  }

  /** Reads from the simulator, one set of draws each. */
  function SimRun(src: Source, draws: seq<Draws>): (r: (seq<Result<RawSample, SourceError>>, Source))
    requires src.Simulated?
    ensures |r.0| == |draws|
    decreases |draws|
  {
    if |draws| == 0 then ([], src)
    else
      var first := SimulatedRead(src, draws[0]);
      var rest := SimRun(first.after, draws[1..]);
      ([first.result] + rest.0, rest.1)
  }

  /** On the simulator, the common read loop is `SimRun`. */
  lemma {:induction false} ReadManyIsSimRun(src: Source, parseFloat: string -> Option<real>, draws: seq<Draws>)
    requires src.Simulated?
    ensures ReadMany(src, parseFloat, draws) == SimRun(src, draws)
    decreases |draws|
  {
    if |draws| > 0 {
      assert ReadSample(src, parseFloat, draws[0]) == SimulatedRead(src, draws[0]);
      ReadManyIsSimRun(SimulatedRead(src, draws[0]).after, parseFloat, draws[1..]);
    }
  }

  /** `SimRun` advances the clock by one period per read. */
  lemma {:induction false} SimRunClock(src: Source, draws: seq<Draws>)
    requires src.Simulated?
    ensures var (rs, after) := SimRun(src, draws);
      && after == src.(tMs := src.tMs + |draws| * src.dtMs)
      && forall i :: 0 <= i < |rs| ==>
           rs[i].Ok? && rs[i].value.tMs == src.tMs + (i + 1) * src.dtMs && rs[i].value.servoDeg == src.servoDeg
    decreases |draws|
  {
    if |draws| > 0 {
      var first := SimulatedRead(src, draws[0]);
      SimRunClock(first.after, draws[1..]);
      var (rs, after) := SimRun(src, draws);
      var tail := SimRun(first.after, draws[1..]).0;
      assert |draws| * src.dtMs == src.dtMs + (|draws| - 1) * src.dtMs;
      forall i | 0 <= i < |rs|
        ensures rs[i].Ok? && rs[i].value.tMs == src.tMs + (i + 1) * src.dtMs && rs[i].value.servoDeg == src.servoDeg
      {
        if i > 0 {
          assert rs[i] == tail[i - 1];
          assert (i + 1) * src.dtMs == src.dtMs + i * src.dtMs;
        }
      }
    }
  }

  /** An open CSV source hands out its rows in file order, then `EndOfData`
      on every further read. */
  lemma CsvReadsInOrder(src: Source, parseFloat: string -> Option<real>, draws: seq<Draws>)
    requires src.Csv? && src.isOpen
    ensures forall i :: 0 <= i < |draws| ==>
      ReadMany(src, parseFloat, draws).0[i] == CsvRead(src.rows, src.cursor + i, parseFloat)
  {
    var convert := Converter(parseFloat);
    ReadManyIsCsvRun(src, parseFloat, draws);
    forall i | 0 <= i < |draws|
      ensures CsvRun(src, convert, |draws|)[i] == CsvRead(src.rows, src.cursor + i, parseFloat)
    {
      CsvRunAt(src, convert, |draws|, i);
    }
  }

  /** What the read at a given row position of a CSV file yields. */
  function CsvRead(rows: seq<Row>, at: nat, parseFloat: string -> Option<real>): Result<RawSample, SourceError> {
    if at < |rows| then RowToSample(rows[at], parseFloat) else Err(EndOfData)
  }

  /** `n` reads from a CSV source. */
  function CsvRun(src: Source, convert: Row -> Result<RawSample, SourceError>, n: nat): (r: seq<Result<RawSample, SourceError>>)
    requires src.Csv?
    ensures |r| == n
    decreases n
  {
    if n == 0 then []
    else
      var first := CsvStep(src, convert);
      [first.result] + CsvRun(first.after, convert, n - 1)
  }

  /** On a CSV source, the common read loop is `CsvRun`. */
  lemma {:induction false} ReadManyIsCsvRun(src: Source, parseFloat: string -> Option<real>, draws: seq<Draws>)
    requires src.Csv?
    ensures ReadMany(src, parseFloat, draws).0 == CsvRun(src, Converter(parseFloat), |draws|)
    decreases |draws|
  {
    if |draws| > 0 {
      assert ReadSample(src, parseFloat, draws[0]) == CsvStep(src, Converter(parseFloat));
      ReadManyIsCsvRun(CsvNext(src, parseFloat).after, parseFloat, draws[1..]);
    }
  }

  /** The `i`-th of `n` reads from an open CSV source. */
  lemma {:induction false} CsvRunAt(src: Source, convert: Row -> Result<RawSample, SourceError>, n: nat, i: nat)
    requires src.Csv? && src.isOpen && i < n
    ensures CsvRun(src, convert, n)[i] == RowAt(src.rows, src.cursor + i, convert)
    decreases i
  {
    var first := CsvStep(src, convert);
    if i > 0 {
      CsvRunAt(first.after, convert, n - 1, i - 1);
      assert CsvRun(src, convert, n)[i] == CsvRun(first.after, convert, n - 1)[i - 1];
    }
  }

  /** Reading an open CSV source advances the cursor one row per read, and
      stops at the end of the file. */
  lemma {:induction false} CsvCursor(src: Source, parseFloat: string -> Option<real>, draws: seq<Draws>)
    requires src.Csv? && src.isOpen && src.cursor <= |src.rows|
    ensures var after := ReadMany(src, parseFloat, draws).1;
      && after == src.(cursor := if src.cursor + |draws| <= |src.rows| then src.cursor + |draws| else |src.rows|)
    decreases |draws|
  {
    if |draws| > 0 {
      var first := ReadSample(src, parseFloat, draws[0]);
      CsvCursor(first.after, parseFloat, draws[1..]);
    }
  }

  /** A row converts exactly when all five cells are present and parse, to
      the sample of their values; otherwise the first failing column, in
      the order `t_ms`, `servo_deg`, `v_div`, `v_rf`, `v_photo`, is reported. */
  lemma RowToSampleSpec(row: Row, parseFloat: string -> Option<real>)
    ensures var r := RowToSample(row, parseFloat);
      var t := IntCell(row, TimeColumn);
      var a := IntCell(row, AngleColumn);
      var d := FloatCell(row, DivColumn, parseFloat);
      var f := FloatCell(row, RfColumn, parseFloat);
      var p := FloatCell(row, PhotoColumn, parseFloat);
      && (r.Ok? <==> t.Ok? && a.Ok? && d.Ok? && f.Ok? && p.Ok?)
      && (r.Ok? ==> r.value == RawSample(t.value, a.value, d.value, f.value, p.value))
      && (t.Err? ==> r == Err(t.error))
      && (t.Ok? && a.Err? ==> r == Err(a.error))
      && (t.Ok? && a.Ok? && d.Err? ==> r == Err(d.error))
      && (t.Ok? && a.Ok? && d.Ok? && f.Err? ==> r == Err(f.error))
      && (t.Ok? && a.Ok? && d.Ok? && f.Ok? && p.Err? ==> r == Err(p.error))
  {
  }

  /** The CSV row holding a sample's formatted values. */
  function RowOf(s: RawSample, show: real -> string): Row {
    map[TimeColumn := ShowInt(s.tMs), AngleColumn := ShowInt(s.servoDeg),
        DivColumn := show(s.vDiv), RfColumn := show(s.vRf), PhotoColumn := show(s.vPhoto)]
  }

  /** Reading back a row written from a sample gives the sample. */
  lemma CsvRowRoundTrip(s: RawSample, f: FloatFormat)
    requires SampleReadsBack(f, s)
    ensures RowToSample(RowOf(s, f.show), f.parse) == Ok(s)
  {
    var row := RowOf(s, f.show);
    ShowIntRoundTrip(s.tMs);
    ShowIntRoundTrip(s.servoDeg);
    assert row[TimeColumn] == ShowInt(s.tMs);
    assert row[AngleColumn] == ShowInt(s.servoDeg);
    assert row[DivColumn] == f.show(s.vDiv);
    assert row[RfColumn] == f.show(s.vRf);
    assert row[PhotoColumn] == f.show(s.vPhoto);
  }

  /** `random.uniform(a, b)` lies between its bounds, whichever is larger. */
  lemma UniformBetween(a: real, b: real, f: Unit)
    ensures a <= b ==> a <= Uniform(a, b, f) <= b
    ensures b <= a ==> b <= Uniform(a, b, f) <= a
  {
    if a <= b {
      MulNonneg(b - a, 1.0 - f);
      MulNonneg(b - a, f);
    } else {
      MulNonneg(a - b, 1.0 - f);
      MulNonneg(a - b, f);
    }
  }

  lemma MulNonneg(x: real, y: real)
    requires x >= 0.0 && y >= 0.0
    ensures x * y >= 0.0
  {
  }
}
