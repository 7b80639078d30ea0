/** The exceptions the acoustic core can raise, and the result type that carries them. */
module Errors {

  /** Python exceptions raised by the core. */
  datatype Error =
    | NotImplementedError  // unknown band layout string
    | ValueError           // `list.index` of a start frequency that is not a third-octave band
    | KeyError             // a frequency missing from the other spectrum
    | ZeroDivisionError    // float or Decimal division by zero
    | MathDomainError      // logarithm of a non-positive number

  datatype Result<T> = Ok(value: T) | Err(error: Error)

  datatype Option<T> = None | Some(value: T)
}
