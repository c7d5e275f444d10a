/** Failure-carrying results. Every `panic!`, failed `assert!` and `unwrap` of
    the compiler becomes an `Err` value of one of these types. */
module Wrappers {

  datatype Option<+T> = None | Some(value: T)

  datatype Result<+T, +E> = Ok(value: T) | Err(error: E)

  /** A cursor operation `r` agrees with its specification `spec`, which also
      gives the cursor position `pos` reached on success. */
  predicate Agrees<T(==), E(==)>(spec: Result<(T, nat), E>, r: Result<T, E>, pos: nat)
  {
    match spec
    case Ok((v, p)) => r == Ok(v) && pos == p
    case Err(e) => r == Err(e)
  }

  /** A cursor operation's specification with the final position dropped. */
  function WithoutPosition<T, E>(spec: Result<(T, nat), E>): Result<T, E>
  {
    match spec
    case Ok((v, _)) => Ok(v)
    case Err(e) => Err(e)
  }
}
