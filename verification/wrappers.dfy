/** Option and Result datatypes shared by the model. */
module Wrappers {

  /** An optional value. In this model `None` stands for a JavaScript value that
      is either `null` or `undefined`: the nullish-coalescing operator `??`
      treats the two alike. */
  datatype Option<+T> = None | Some(value: T) {

    /** The wrapped value, or `default` when there is none (JavaScript `x ?? default`). */
    function GetOr(default: T): T {
      match this
      case Some(v) => v
      case None => default
    }
  }

  /** The outcome of an operation that can fail with an error of type `E`. */
  datatype Result<+R, +E> = Success(value: R) | Failure(error: E)
}
