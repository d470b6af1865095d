/** Failure-compatible wrappers and the exception kinds the client can raise. */
module Wrappers {

  /** Java's `null` / Kotlin's `T?`: a value that may be absent. */
  datatype Option<+T> = None | Some(value: T) {

    /** The value, or `default` when absent. */
    function GetOr(default: T): T {
      match this
      case Some(v) => v
      case None => default
    }
  }

  /**
   * The error object of an Open Spherical Camera reply, `{"code": ..., "message": ...}`.
   * Both members are read reflectively, so either may be missing.
   */
  datatype CameraError = CameraError(code: Option<string>, message: Option<string>)

  /** Why an `IOException` was raised. */
  datatype IoReason =
    | Unauthorized          // HTTP 401 from the camera
    | UnexpectedLine        // a multipart line that is neither blank nor the boundary
    | StreamClosed          // reading a stream after `close()`
    | NoReply               // the transport delivered no reply
    | EndOfStream           // end of stream inside a line (only in the corrected reader)

  /** The exception kinds the modelled code raises, one constructor per JVM class. */
  datatype Exception =
    | NullPointer
    | IllegalArgument
    | IllegalState
    | UnsupportedOperation
    | ClassCast
    | NumberFormat
    | IO(reason: IoReason)
    | Serialization          // kotlinx.serialization and Gson syntax errors
    | Camera(error: CameraError)

  /** The result of an operation that may throw. */
  datatype Result<+T> = Success(value: T) | Failure(error: Exception) {

    predicate IsFailure() {
      Failure?
    }

    function PropagateFailure<U>(): Result<U>
      requires Failure?
    {
      Failure(error)
    }

    function Extract(): T
      requires Success?
    {
      value
    }

    function ToOption(): Option<T> {
      match this
      case Success(v) => Some(v)
      case Failure(_) => None
    }
  }

  /** The two implementations in the repository: the Gson-based Java one and the kotlinx-based Kotlin one. */
  datatype Flavor = Java | Kotlin
}
