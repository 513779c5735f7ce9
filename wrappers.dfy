/** Optional values and pass/fail outcomes shared by the argument binder and the padding model. */
module Wrappers {

  /** Swift's `Optional`: `None` is `nil`. */
  datatype Option<+T> = None | Some(value: T) {

    /** Swift's `??`: the wrapped value, or `default` when there is none. */
    function GetOr(default: T): T {
      match this
      case Some(v) => v
      case None => default
    }
  }

  /** The result of an operation that either completes or stops with an error. */
  datatype Outcome<+E> = Pass | Fail(error: E)
}
