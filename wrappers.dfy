/** Failure-compatible wrappers: the engine's thrown errors become `Err` values. */
module Wrappers {

  /** A value that may be absent (a TypeScript optional field or `undefined`). */
  datatype Option<+T> = None | Some(value: T)

  /** The kinds of error the calculators throw. */
  datatype Error =
    | InvalidArgument        // a numeric argument is negative
    | BracketNotFound        // no table entry contains the amount
    | InvalidDeductionEntry  // a salary-deduction entry has neither a fixed amount nor rate and adjustment
    | UnknownResidenceYear   // no housing-loan limits for the residence year

  /** Either a computed value or the error that aborts the whole computation. */
  datatype Result<+T> = Ok(value: T) | Err(error: Error) {

    predicate IsFailure() {
      Err?
    }

    function PropagateFailure<U>(): Result<U>
      requires Err?
    {
      Err(error)
    }

    function Extract(): T
      requires Ok?
    {
      value
    }
  }
}
