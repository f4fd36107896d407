/** The two records exchanged between source, model and controller
    (`MuestraCruda` and `MuestraProcesada`), and the tri-state number used
    where the source would produce `float("inf")`. */
module Samples {

  /** One raw frame as produced by a data source. */
  datatype RawSample = RawSample(tMs: int, servoDeg: int, vDiv: real, vRf: real, vPhoto: real)

  /** A finite number, or the "undefined / infinite" sentinel. */
  datatype Value = Defined(x: real) | Undefined

  /** A raw frame enriched with the derived physical quantities. */
  datatype ProcessedSample = ProcessedSample(
    tMs: int,
    servoDeg: int,
    vDiv: real,
    vRf: real,
    vPhoto: real,
    rM: real,
    vIn: real,
    pIn: real,
    bExp: real,
    bTeo: Value,
    lExp: real,
    lTeo: Value,
    errBAbs: Value,
    errLAbs: Value,
    errBRel: Value,
    errLRel: Value
  )
}
