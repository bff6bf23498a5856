/** Explicit outcomes for the places where the tutorial script would raise a
    Python exception. */
module Results {

  /** `None` stands for Python's `None` (for instance the best validation
      accuracy before the first epoch). */
  datatype Option<+T> = None | Some(value: T)

  /** The exceptions the modelled code can raise. */
  datatype Error =
    | ValueError(literal: string)  // int() applied to a string that is not an integer literal
    | ZeroDivisionError            // an accuracy computed over zero samples

  datatype Result<+T> = Success(value: T) | Failure(error: Error)
}
