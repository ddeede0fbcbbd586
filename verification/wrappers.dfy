/** Option and Result, the two failure-carrying shapes the rest of the model uses
    for PHP's nullable values and thrown domain exceptions. */
module Wrappers {

  /** A nullable value: `None` plays PHP's `null`. */
  datatype Option<+T> = None | Some(value: T) {

    /** PHP's `$x ?? $default`. */
    function GetOr(default: T): T {
      match this
      case Some(v) => v
      case None => default
    }
  }

  /** The outcome of an operation that either returns a value or throws a domain exception. */
  datatype Result<+R, +E> = Success(value: R) | Failure(error: E)
}

/** Log records are kept by level only; message texts and context arrays are not modelled. */
module Logging {

  datatype LogLevel = Debug | Warning | Error
}
