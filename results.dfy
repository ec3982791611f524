/** The optional values and fallible results the editor returns. */
module Results {
  datatype Option<+T> = None | Some(value: T)

  datatype Result<+T, +E> = Ok(value: T) | Err(error: E) {
    /** `unwrap_or_default`, with the default supplied by the caller. */
    function UnwrapOr(default: T): T {
      match this
      case Ok(v) => v
      case Err(_) => default
    }
  }
}
