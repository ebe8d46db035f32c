/** Failure-carrying wrappers used throughout the model, and the errors the
    reading pipeline can raise. */
module Results {

  /** Python's `Optional[T]`: either nothing or a value. */
  datatype Option<+T> = None | Some(value: T)

  /** The outcome of an operation that may raise. */
  datatype Result<+R, +E> = Success(value: R) | Failure(error: E) {
    predicate IsFailure() {
      Failure?
    }

    /** The same failure, carried into a result of another value type. */
    function PropagateFailure<U>(): Result<U, E>
      requires Failure?
    {
      Failure(error)
    }

    function Extract(): R
      requires Success?
    {
      value
    }
  }

  /** The exceptions the modelled code paths can raise. */
  datatype Error =
    | UnknownSpread(message: string)   // create_reading's rejection of an unregistered spread id
    | NegativeSampleSize(count: int)   // random.sample with a negative sample size (ValueError)
    | MissingSpread(key: string)       // TAROT_SPREADS[spread_type] on an unregistered key (KeyError)
}
