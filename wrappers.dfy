/** Option and Result: null-able values and thrown exceptions of the source. */
module Wrappers {

  datatype Option<+T> = None | Some(value: T) {
    function GetOr(default: T): T {
      match this
      case Some(v) => v
      case None => default
    }
  }

  /** PHP `empty()` on a nullable string: null, "" and "0" are empty. */
  predicate IsEmpty(v: Option<string>) {
    v.None? || v.value == "" || v.value == "0"
  }

  /** A value, or the exception the source throws instead of returning one. */
  datatype Result<+R, +E> = Success(value: R) | Failure(error: E)
}
