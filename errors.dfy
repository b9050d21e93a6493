/**
 * The error values that travel through the driver. Go signals failure with a
 * nullable `error`; here `Option<Error>` plays that role (None is nil).
 */
module Errors {

  datatype Option<+T> = None | Some(value: T)

  /** The value-or-error result of an operation such as `Read() ([]byte, error)`. */
  datatype Result<+T> = Ok(value: T) | Err(error: Error)

  /**
   * Every error the protocol layer can hand back to its caller.
   * The first seven are the named library errors, in the order of the
   * library's error enumeration; UnknownError is the fallback for any other
   * library code; InvalidChecksum is raised by the wrapper's own checksum gate;
   * ProcessorError stands for whatever error the transport returns, which the
   * wrapper passes on unchanged.
   */
  datatype Error =
    | NoPackageReceived
    | InvalidSensorName
    | InvalidArgument
    | InvalidFunctionCode
    | InvalidCrc
    | RequestTimeout
    | TransportError
    | UnknownError
    | InvalidChecksum
    | ProcessorError(cause: string)

  /** The text each error carries; a transport error keeps the transport's own text. */
  function Message(e: Error): (m: string)
    ensures e.ProcessorError? ==> m == e.cause
    ensures !e.ProcessorError? ==> |m| > 0
  {
    match e
    case NoPackageReceived => "no package received"
    case InvalidSensorName => "invalid sensor name"
    case InvalidArgument => "invalid argument"
    case InvalidFunctionCode => "invalid function code"
    case InvalidCrc => "invalid CRC"
    case RequestTimeout => "request timeout"
    case TransportError => "transport error"
    case UnknownError => "unknown error"
    case InvalidChecksum => "invalid checksum"
    case ProcessorError(cause) => cause
  }

  /** The nine errors the protocol layer raises itself all have different texts. */
  lemma MessagesDistinct(a: Error, b: Error)
    requires !a.ProcessorError? && !b.ProcessorError? && a != b
    ensures Message(a) != Message(b)
  {
  }
}
