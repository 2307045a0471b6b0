/** Failure-carrying values shared by the API clients and the position sizer:
    a thrown JavaScript error becomes a `Failure`, a value that may be missing
    or of the wrong JavaScript type becomes an `Option`. */
module Common {

  datatype Option<+T> = None | Some(value: T)

  datatype Result<+T, +E> = Success(value: T) | Failure(error: E)

  /** JavaScript's `Math.abs` on a finite number. */
  function Abs(x: real): real {
    if x < 0.0 then -x else x
  }
}
