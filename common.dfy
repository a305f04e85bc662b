/** Failure-compatible wrappers shared by the other modules: an optional
    value (Python's `None`) and a result that either carries a value or the
    exception the Python code would raise. */
module Common {

  datatype Option<+T> = None | Some(value: T)

  datatype Result<+T, +E> = Ok(value: T) | Err(error: E)
}
