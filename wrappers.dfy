/** Option and Result wrappers shared by every module of the model. */
module Wrappers {

  /** `undefined`/`null` on one side, a present value on the other. */
  datatype Option<+T> = None | Some(value: T) {
    function GetOr(default: T): T {
      match this
      case Some(v) => v
      case None => default
    }
  }

  /** The outcome of a JavaScript call that either returns or throws. */
  datatype Result<+R, +E> = Success(value: R) | Failure(error: E)
}
