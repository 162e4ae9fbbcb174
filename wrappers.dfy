/** Failure-compatible result types and the exceptions the report writer raises. */
module Wrappers {

  datatype Option<+T> = None | Some(value: T) {
    function GetOr(default: T): T {
      match this
      case Some(v) => v
      case None => default
    }
  }

  datatype Result<+R, +E> = Success(value: R) | Failure(error: E)

  datatype Outcome<+E> = Pass | Fail(error: E)

  /** The exception classes the core throws, each carrying its message. */
  datatype Error =
    | InvalidArgumentException(message: string)
    | LogicException(message: string)
    | ReportWriterException(message: string)
}
