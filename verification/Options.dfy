/** The two datatypes that stand for an absent value and for a raised exception. */
module Options {

  /** Python's None, a NULL column, or a missing JSON member. */
  datatype Option<+T> = None | Some(value: T)

  /** A returned value, or the exception raised in its place. */
  datatype Result<+T, +E> = Ok(value: T) | Err(error: E)
}
