/** Values that may be absent, results that may be a raised exception, and
    the regrouping of appended sequences the handlers' logs rely on. */
module Outcomes {

  /** Python's `None` or a present value. */
  datatype Option<+T> = None | Some(value: T)

  /** The outcome of a call that either returns a value or raises an exception;
      `error` is the exception's text, as `str(e)` renders it. */
  datatype Result<+T> = Ok(value: T) | Raised(error: string)

  /** Appending in two steps is appending once. */
  lemma AppendAssoc<T>(a: seq<T>, b: seq<T>, c: seq<T>)
    ensures (a + b) + c == a + (b + c)
  {
  }
}