/** The optional-value datatype used across the model. */
module Wrappers {

  /** `None` stands for JavaScript's `undefined` (or an absent key); `Some(v)` for a present value. */
  datatype Option<+T> = None | Some(value: T) {

    /** The value, or `default` when absent. */
    function GetOr(default: T): T {
      match this
      case Some(v) => v
      case None => default
    }
  }
}
