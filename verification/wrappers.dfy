/** Small failure-carrying datatypes shared by the other modules. */
module Wrappers {

  /** A value that may be absent: JavaScript `null`/`undefined`, Python `None`. */
  datatype Option<+T> = None | Some(value: T) {
    function GetOr(default: T): T {
      match this
      case Some(v) => v
      case None => default
    }
  }

  /** The outcome of an operation that either succeeds with a value or fails with a message. */
  datatype Result<+R, +E> = Success(value: R) | Failure(error: E)
}

/** What the web client sees of a browser `File`: its name and its size in bytes. */
module Browser {
  datatype File = File(name: string, size: nat)
}
