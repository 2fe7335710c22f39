/** Success/failure values shared by every module: the Python and TypeScript
    code signals its failures by raising, by dividing by zero (NaN, Infinity)
    or by reading past the end of an array (undefined); here each such outcome
    is an explicit error. */
module Results {

  datatype Error =
    | InsufficientHistory   // a window shorter than a statistic needs
    | DivisionByZero        // a mean over nothing, or a zero divisor
    | IndexOutOfBounds      // an array read that yields `undefined`
    | NotFitted             // transform / predict before fit
    | DimensionMismatch     // row or column counts that do not agree
    | ShapeError            // prediction vectors of unequal length
    | MissingColumn(name: string)
    | InvalidArgument       // a library argument outside its domain

  datatype Result<+T> = Ok(value: T) | Err(error: Error) {
    predicate IsFailure() { Err? }

    function PropagateFailure<U>(): Result<U>
      requires Err?
    {
      Err(error)
    }

    function Extract(): T
      requires Ok?
    {
      value
    }
  }

  datatype Option<+T> = None | Some(value: T)
}
