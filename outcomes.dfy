/** Option, the failures the two ensembles can run into, and the result
    types that carry them. */
module Outcomes {

  datatype Option<T> = None | Some(value: T)

  /** What goes wrong inside `fit` or `predict`, named after its cause. */
  datatype Failure =
    | ZeroDivision       // float floor division `1.5 * n // n_estimators` with n_estimators == 0
    | EmptyPopulation    // numpy.random.choice(0, size) with size > 0
    | EmptyInput         // a tree asked to fit or predict a matrix with no rows or no columns
    | ColumnOutOfRange   // fancy indexing X[:, feat] with a stored index past the last column
    | NonFinite          // the forest average divided by n_estimators == 0: NaN entries

  datatype Result<T> = Ok(value: T) | Err(failure: Failure)

  /** The outcome of a `fit` call: it returns normally, or raises. */
  datatype Outcome = Pass | Fail(failure: Failure)
}
