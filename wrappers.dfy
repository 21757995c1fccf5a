/** Option and Result values, the shapes of Rust's `Option<T>` and `Result<T, E>`. */
module Wrappers {

  datatype Option<+T> = None | Some(value: T)

  datatype Result<+T, +E> = Success(value: T) | Failure(error: E)

  /** Rust's `Result::ok`: the success value, or None for an error. */
  function Ok<T, E>(r: Result<T, E>): (o: Option<T>)
    ensures o.None? <==> r.Failure?
    ensures r.Success? ==> o == Some(r.value)
  {
    match r
    case Success(v) => Some(v)
    case Failure(_) => None
  }

  /** Rust's `Option::unwrap_or`. */
  function UnwrapOr<T>(o: Option<T>, default: T): (v: T)
    ensures o.Some? ==> v == o.value
    ensures o.None? ==> v == default
  {
    match o
    case Some(x) => x
    case None => default
  }
}
