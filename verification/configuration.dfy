/** The frozen `Settings` record: one immutable value, built once and passed
    explicitly to the model, the data sources and the controller. Being a
    Dafny datatype value, no operation of the model can change it. */
module Configuration {

  datatype Settings = Settings(
    // serial link to the ESP32
    puertoSerial: string,
    baudrate: int,
    timeoutS: real,
    // run length bounds (thermal safety) and sampling period
    minExperimentoS: int,
    maxExperimentoS: int,
    dtMs: int,
    // servo bounds (mechanical safety)
    servoDegMin: int,
    servoDegMax: int,
    servoDegDefault: int,
    // geometry, in metres
    lM: real,
    y0M: real,
    // voltage divider, in ohms
    rTop: real,
    rBot: real,
    // two-regime equivalent resistance and its switching voltage
    reqBaja: real,
    reqAlta: real,
    vinUmbralReqV: real,
    // theoretical scale constants
    kb: real,
    kl: real,
    // reference operating voltage range
    vinMinV: real,
    vinMaxV: real,
    // default export path
    rutaCsv: string
  )

  /** The shipped configuration (`SETTINGS = Settings()`). */
  const Default: Settings := Settings(
    "COM3", 115200, 1.0,
    1, 20, 50,
    0, 30, 0,
    0.22, 0.325,
    99800.0, 9935.0,
    15.25, 19.64, 11.0,
    0.3, 1.0,
    9.0, 12.0,
    "salidas/experimento.csv"
  )

  /** `deg` lies within the servo's mechanical range. */
  predicate InServoRange(deg: int, s: Settings) {
    s.servoDegMin <= deg <= s.servoDegMax
  }
}
