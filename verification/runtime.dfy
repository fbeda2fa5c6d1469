/** The few .NET runtime notions the orientation resolver relies on: absent
    values, the exception classes it throws or catches, and the result of a
    call that may throw. */
module Runtime {

  /** A value that may be absent (an unset reference). */
  datatype Option<+T> = None | Some(value: T)

  /** The exception classes that can arise inside the resolver.  Each is its
      own class: none derives from another, so a `catch` for one never
      catches another. */
  datatype Exception =
    | ArgumentException
    | FormatException
    | InvalidOperationException
    | IndexOutOfRangeException

  /** What evaluating a call yields: its value, or the exception it throws. */
  datatype Result<+T> = Ok(value: T) | Throw(exception: Exception)
}
