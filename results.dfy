/** Optional values and success/failure results, used where the handler's
    Python code passes `None` or raises and catches an exception. */
module Results {

  datatype Option<+T> = None | Some(value: T)

  /** `Err` carries the text Python's `str(e)` would give for the exception. */
  datatype Result<+T, +E> = Ok(value: T) | Err(error: E)
}
