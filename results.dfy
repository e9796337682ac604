/** Option and Result values for the error paths of the two scripts. */
module Results {

  datatype Option<T> = None | Some(value: T)

  /** The failures the model represents. A malformed non-empty date passed to
      convert_date is outside the model (the date conversion is a parameter). */
  datatype Failure =
    | DivisionByZero   // ZeroDivisionError: a mean over zero records
    | EmptyColumn      // ValueError: min() or max() of an empty list
    | EmptyDate        // ValueError: strptime of the "" a sentinel scan keeps

  datatype Result<T> = Ok(value: T) | Err(error: Failure)
}
