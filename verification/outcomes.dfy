/** Result and number types shared by the estimator and fitter models.

    The source signals errors in two ways: `logger.TBError` (fatal, ends the
    call) and Python exceptions.  Both become `Err` here.  Floating-point
    results that the source returns silently as NaN or infinity (a division
    by zero inside numpy) become `Err(NonFinite)`, since exact reals have no
    such values. */
module Outcomes {

  /** Why a computation did not produce a value. */
  datatype Error =
    | Fatal(msg: string)   // logger.TBError or a raised exception, with its message
    | NonFinite            // numpy would have produced NaN or infinity
    | IndexOutOfRange      // an index the source reads does not exist
    | ShapeMismatch        // numpy refuses to combine arrays of different length

  datatype Result<+T> = Ok(value: T) | Err(error: Error) {

    predicate IsFailure() {
      Err?
    }

    function PropagateFailure<U>(): Result<U>
      requires Err?
    {
      Err(error)
    }

    function Extract(): T
      requires Ok?
    {
      value
    }
  }

  datatype Option<+T> = None | Some(value: T)

  /** A float as the fitter stores it: finite, +infinity or NaN.  Used where
      the source deliberately stores `np.inf` or `np.nan`. */
  datatype Ext = Fin(v: real) | Inf | NaN

  function Abs(x: real): (r: real)
    ensures r >= 0.0
    ensures r == x || r == -x
  {
    if x < 0.0 then -x else x
  }
}
