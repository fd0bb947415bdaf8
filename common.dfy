// Small wrappers shared by the other modules.

module Common {

  /** A value that may be absent (a missing frame, an unloaded model, a NaN mean). */
  datatype Option<T> = None | Some(value: T)

  /** A page outcome: a value, or the error message the page stops with. */
  datatype Result<T> = Ok(value: T) | Err(message: string)
}
