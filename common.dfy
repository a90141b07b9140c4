/** Value types shared by every module: optional values, Go error returns and panics. */
module Common {

  /** A value that may be missing, or nil in Go. */
  datatype Option<+T> = None | Some(value: T)

  /** A Go `(value, error)` return: the value, or the text of the error (`err.Error()`). */
  datatype Result<+T> = Ok(value: T) | Err(error: string)

  /** Whether a Go call came back normally or panicked (log.Panic, a nil
      dereference, an index out of range). A panic is not an error value:
      it unwinds past every caller in this model. */
  datatype Outcome<+T> = Returned(value: T) | Panicked(reason: string)

  const NilDereference := "runtime error: invalid memory address or nil pointer dereference"

  /** The panic of indexing element 0 of an empty slice. */
  const IndexOutOfRange := "runtime error: index out of range [0] with length 0"
}
