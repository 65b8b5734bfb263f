/** Shared result types: Python's `None`, and the exceptions the logistics core raises. */
module Common {

  datatype Option<T> = None | Some(value: T)

  /** The two exception classes the core raises. */
  datatype Error = PermissionError | ValueError

  /** The outcome of a call that either returns normally or raises. */
  datatype Outcome = Done | Raised(error: Error)

  /** A value, or the exception raised instead of returning it. */
  datatype Result<T> = Ok(value: T) | Err(error: Error)

  /** The value of `o`, or `default` when it is `None`. */
  function GetOr<T>(o: Option<T>, default: T): T
  {
    if o.Some? then o.value else default
  }

  /** Python truthiness of an optional string: `None` and `""` are both falsy. */
  predicate Truthy(s: Option<string>)
  {
    s.Some? && s.value != ""
  }
}
