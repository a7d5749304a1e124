/** Values that stand for Go's conventions at the boundary of the bridge:
    errors, `(value, error)` pairs, panics, and the trace of external calls
    an operation issues. */
module Go {

  /** A non-nil Go `error`; only its identity matters to the bridge. */
  datatype Error = Error(message: string)

  datatype Option<+T> = None | Some(value: T)

  /** The outcome of an external call that either answers or fails. */
  datatype Result<+T> = Ok(value: T) | Err(error: Error)

  /** Connecting a contract binding: it either succeeds or yields an error. */
  datatype Outcome = Pass | Fail(error: Error)

  /** Go's `(value, error)` return pair for a non-pointer value. */
  datatype Ret<+T> = Ret(val: T, err: Option<Error>)

  /** How a Go call ends: it returns normally, or it panics (a nil-pointer
      dereference or an out-of-range slice) and returns nothing. */
  datatype Exit<+T> = Return(value: T) | Panic

  /** A result together with the external calls issued to compute it, in order. */
  datatype Traced<+T, +C> = Traced(out: T, calls: seq<C>)
}
