/** Values shared by the acquisition server and the browser monitor: the run
    mode, JavaScript strings, and the JSON record the server publishes. */
module Telemetry {

  datatype Option<T> = None | Some(value: T)

  /** An unsigned 16-bit holding register, and a UTF-16 code unit. */
  type u16 = x: int | 0 <= x < 0x1_0000

  /** A JavaScript string: a sequence of UTF-16 code units. */
  type JsString = seq<u16>

  /** "LOT ENDED", the lot shown when the lot-status register is 0. */
  const LOT_ENDED: JsString := [0x4C, 0x4F, 0x54, 0x20, 0x45, 0x4E, 0x44, 0x45, 0x44]

  /** "CONNECTING...", the lot of a machine that has not been read yet. */
  const CONNECTING: JsString := [0x43, 0x4F, 0x4E, 0x4E, 0x45, 0x43, 0x54, 0x49, 0x4E, 0x47, 0x2E, 0x2E, 0x2E]

  /** The `mode` field: "run" or "stop". */
  datatype Mode = Run | Stop

  /** One machine as the live endpoint returns it, values in volts and amperes. */
  datatype Reading = Reading(
    id: int,
    name: string,
    department: string,
    spec: string,
    mode: Mode,
    lot: JsString,
    stdV: real,
    stdA: real,
    currentV: real,
    currentA: real,
    volts: seq<real>,
    amps: seq<real>)

  /** One row of generated backlog: a time label and the six readings per quantity. */
  datatype BacklogRow = BacklogRow(time: JsString, volts: seq<real>, amps: seq<real>)
}
