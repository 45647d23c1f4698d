/** Option and Result, with the few combinators of Rust's `Option` that the services chain together. */
module Wrappers {

  datatype Option<+T> = None | Some(value: T) {

    /** `Option::unwrap_or`. */
    function GetOr(default: T): T {
      match this
      case Some(v) => v
      case None => default
    }

    /** `Option::or`: this value if present, otherwise `other`. */
    function Or(other: Option<T>): Option<T> {
      if Some? then this else other
    }
  }

  /** `Option::and_then`. */
  function AndThen<T, U>(o: Option<T>, f: T -> Option<U>): Option<U> {
    match o
    case Some(v) => f(v)
    case None => None
  }

  datatype Result<+R, +E> = Success(value: R) | Failure(error: E)
}
