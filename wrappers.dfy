/** Option and Result values: the model's stand-ins for C# nullable references and thrown exceptions. */
module Wrappers {

  /** A C# reference or value that may be null. */
  datatype Option<+T> = None | Some(value: T) {
    function GetOr(default: T): T {
      match this
      case Some(v) => v
      case None => default
    }
  }

  /** The outcome of a .NET call that either returns a value or throws. */
  datatype Result<+T, +E> = Success(value: T) | Failure(error: E)

  /** The outcome of a .NET call that returns nothing or throws. */
  datatype Outcome<+E> = Pass | Fail(error: E)
}
