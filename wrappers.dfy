/** Option and Result, for the values and errors the survey code passes around. */
module Wrappers {

  /** `None` also stands for Python's `None` and for NumPy's NaN field sentinel. */
  datatype Option<+T> = None | Some(value: T) {
    function GetOr(default: T): T {
      match this
      case Some(v) => v
      case None => default
    }
  }

  /** A value, or the exception the source raises instead of returning one. */
  datatype Result<+R, +E> = Ok(value: R) | Err(error: E)
}
