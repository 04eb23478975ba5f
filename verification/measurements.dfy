/**
  The measurement tool's result, reduced to the fields the exporter reads,
  and the outcome of one run of the tool.
 */
module Measurements {

  /** The server the tool measured against (only the fields used as labels). */
  datatype Server = Server(name: string, location: string, country: string, host: string)

  /**
    One immutable snapshot of a measurement. `timestamp` is the result's own
    timestamp, on the same integer clock as `now` and the refresh interval.
    Numeric readings are idealised reals; latency and jitter are in
    milliseconds, bandwidths in bytes per second.
   */
  datatype Measurement = Measurement(
    timestamp: int,
    latencyMs: real,
    jitterMs: real,
    downloadBandwidth: real,
    downloadBytes: real,
    uploadBandwidth: real,
    uploadBytes: real,
    packetLoss: real,
    server: Server)

  /** The zero-valued result the runner hands back alongside an error. */
  const Zero: Measurement :=
    Measurement(0, 0.0, 0.0, 0.0, 0.0, 0.0, 0.0, 0.0, Server("", "", "", ""))

  /** Why a run produced no result: the process failed, or its output did not decode. */
  datatype RunError = ExecutionFailed | DecodeFailed

  /** What one run of the external tool yields, as seen by the exporter. */
  datatype Outcome = Ok(result: Measurement) | Err(error: RunError) {

    /** The result half of the runner's (result, error) pair. */
    function Returned(): Measurement {
      match this
      case Ok(m) => m
      case Err(_) => Zero
    }
  }
}
