/** Outcome of an analysis step: a value, or the Python exception the step raises. */
module Wrappers {

  /** The exceptions the modelled code can raise on its own (not through the exchange client). */
  datatype Failure =
    | MaxOfEmpty      // ValueError from max()/min() on an empty list
    | DivisionByZero  // ZeroDivisionError from a float division by 0.0

  datatype Result<+T> = Ok(value: T) | Err(error: Failure)
}
