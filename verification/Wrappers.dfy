module Wrappers {
  datatype Option<+T> = None | Some(value: T)

  datatype Result<+T, +E> = Ok(value: T) | Err(error: E)

  /** A list of one or none. */
  function When<T>(condition: bool, x: T): seq<T> { if condition then [x] else [] }
}
