/** Small shared datatypes: an optional value and a success-or-failure result. */
module Base {

  /** Python's `X | None`. */
  datatype Option<T> = None | Some(value: T)
  {
    function GetOr(default: T): T
    {
      match this
      case Some(v) => v
      case None => default
    }
  }

  /** A value or the exception that the source would raise instead. */
  datatype Result<T, E> = Ok(value: T) | Err(error: E)
}
