/** Option and Result, the two failure-carrying shapes used throughout the model. */
module Wrappers {

  /** A value that may be absent: a JavaScript `undefined` or `null` field, or a call that was not made. */
  datatype Option<+T> = None | Some(value: T)
  {
    function GetOr(default: T): T
    {
      match this
      case Some(v) => v
      case None => default
    }
  }

  /** The outcome of a step that can throw: a value, or the thrown error's message. */
  datatype Result<+T> = Success(value: T) | Failure(error: string)
}
