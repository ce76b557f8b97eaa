/** Shared wrappers: an optional value, the exceptions the program raises, and
    results that either carry a value or the exception that replaced it. */
module Common {

  datatype Option<+T> = None | Some(value: T)

  /** The exceptions of the program that the model keeps, one constructor each. */
  datatype Error =
    | IllegalArgument        // IllegalArgumentException("Invalid URL")
    | IndexOutOfBounds       // ArrayIndexOutOfBoundsException, StringIndexOutOfBoundsException
    | NumberFormat           // NumberFormatException from Double.parseDouble
    | NoPreview              // NoPreviewException: the track has no preview clip
    | QueueOverflow          // QueueOverflowException
    | NoSuchElement          // NoSuchElementException
    | NullPointer            // NullPointerException: a song read before it was scored
    | Malformed              // the parse error the tensor parser is meant to raise
    | PythonError(code: int) // PythonError carrying a process exit code

  /** A value, or the exception raised instead of returning one. */
  datatype Result<+T> = Ok(value: T) | Err(error: Error)

  /** The outcome of an operation that returns nothing. */
  datatype Outcome = Pass | Fail(error: Error)
}
