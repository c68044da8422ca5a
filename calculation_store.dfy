/**
 * The calculation store: the last refund result, a loading flag and an error
 * message, overwritten by four transitions. A result and an error are never held
 * together.
 */
module CalculationState {
  import opened Wrappers
  import opened DomainTypes

  class CalculationStore {
    var result: Option<RefundResult>
    var isLoading: bool
    var error: Option<string>

    /** A result and an error message are never both present. */
    predicate Valid()
      reads this
    {
      !(result.Some? && error.Some?)
    }

    /** The initial state: no result, not loading, no error. */
    constructor ()
      ensures Valid() && result.None? && !isLoading && error.None?
    {
      result := None;
      isLoading := false;
      error := None;
    }

    /** Loading starts and the error is cleared; the previous result stays. */
    method StartCalculation()
      modifies this
      ensures Valid() && result == old(result) && isLoading && error.None?
    {
      isLoading := true;
      error := None;
    }

    method SetCalculationResult(r: RefundResult)
      modifies this
      ensures Valid() && result == Some(r) && !isLoading && error.None?
    {
      result := Some(r);
      isLoading := false;
      error := None;
    }

    method SetCalculationError(message: string)
      modifies this
      ensures Valid() && result.None? && !isLoading && error == Some(message)
    {
      result := None;
      isLoading := false;
      error := Some(message);
    }

    /** Back to the initial state. */
    method ClearCalculationResult()
      modifies this
      ensures Valid() && result.None? && !isLoading && error.None?
    {
      result := None;
      isLoading := false;
      error := None;
    }
  }
}
