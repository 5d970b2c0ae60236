/** Option and Result, as the model uses them for JS's `undefined`/`null` and for thrown errors. */
module Wrappers {

  /** `None` stands for JS `undefined` or `null`, `Some(v)` for a present value. */
  datatype Option<+T> = None | Some(value: T) {

    /** JS `x ?? d` when `d` is a plain value. */
    function GetOr(default: T): T {
      match this
      case Some(v) => v
      case None => default
    }

    /** JS `x ?? y` when `y` may itself be absent. */
    function Or(other: Option<T>): Option<T> {
      if Some? then this else other
    }
  }

  /** A settled computation: a value, or the thing that was thrown. */
  datatype Result<+R, +E> = Ok(value: R) | Err(error: E)
}
