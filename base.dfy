/** Failure-compatible wrappers shared by every module of the model. */
module Base {

  /** An optional value: Rust's `Option<T>`, TypeScript's `T | null`. */
  datatype Option<+T> = None | Some(value: T) {
    function GetOr(default: T): T {
      match this
      case Some(v) => v
      case None => default
    }
  }

  /** A value or an error: Rust's `Result<T, E>`, or a settled TypeScript promise. */
  datatype Result<+T, +E> = Ok(value: T) | Err(error: E) {
    function GetOr(default: T): T {
      match this
      case Ok(v) => v
      case Err(_) => default
    }

    /** The value, or `None` for an error: a promise with `.catch(() => null)`. */
    function ToOption(): Option<T> {
      match this
      case Ok(v) => Some(v)
      case Err(_) => None
    }
  }

  /** Success or an error, for calls whose value is ignored. */
  datatype Outcome<+E> = Pass | Fail(error: E)

  /** The elements of `o` as a sequence of length zero or one. */
  function OptList<T>(o: Option<T>): (r: seq<T>)
    ensures |r| <= 1
    ensures o.Some? ==> r == [o.value]
    ensures o.None? <==> r == []
  {
    if o.Some? then [o.value] else []
  }
}
