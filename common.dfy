/** Failure-carrying wrappers shared by every module of the model. */
module Common {

  datatype Option<T> = None | Some(value: T)

  /** How a Rust call of the crate ends when it does not return a value:
      a Python exception handed back through `PyResult` (`Raised`), a Rust
      panic (`Panicked`: `unwrap` on `None`, an index out of bounds,
      `panic!`), or a formatter error `fmt::Error` (`FormatError`). */
  datatype Failure = Raised(message: string) | Panicked(message: string) | FormatError

  datatype Result<T> = Ok(value: T) | Err(failure: Failure) {
    predicate IsFailure() { Err? }

    function PropagateFailure<U>(): Result<U>
      requires Err?
    {
      Err(failure)
    }

    function Extract(): T
      requires Ok?
    {
      value
    }
  }

  /** Panic message of `Option::unwrap` on `None`. */
  const UnwrapNone := "called `Option::unwrap()` on a `None` value"

  /** Panic message of a slice index past the end. */
  const IndexOutOfBounds := "index out of bounds"
}
