/**
 * What every probe has in common: the captured run of its external tool and
 * the ways a probe can fail.
 */
module Probes {

  /**
   * The run of an external tool as the parsers see it: either it exited
   * successfully with this standard output, or running it failed (it could
   * not start or exited non-zero) with this error text.
   */
  datatype Process = Exited(stdout: string) | Failed(reason: string)

  datatype ProbeError =
    | ProcessError(reason: string)       // the error returned by running the tool
    | NoIPAddressFound                   // nslookup printed no usable address
    | UnexpectedCurlOutput(output: string) // curl printed fewer than three fields

  /** The text of the Go error value. */
  function Message(e: ProbeError): string {
    match e
    case ProcessError(reason) => reason
    case NoIPAddressFound => "no IP address found"
    case UnexpectedCurlOutput(output) => "unexpected curl output: " + output
  }
}
