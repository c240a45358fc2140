/** The validation errors this validator can produce: an `IsInstanceOf`
    line error, which a composite validator may aggregate with others, and
    an internal error, which aborts the whole validation call. */
module Errors {
  import opened Results
  import opened PyHost
  import opened Inputs

  /** The error kinds used here (`ErrorType` has many more elsewhere). */
  datatype ErrorType = IsInstanceOf(cls: string, context: Option<Obj>)

  /** One step of an error location: a key or an index. */
  datatype LocItem = S(key: string) | I(index: int)

  /** One validation error, with the offending input and its location. */
  datatype ValLineError = ValLineError(errorType: ErrorType, inputValue: Input, location: seq<LocItem>)

  datatype ValError =
    | LineErrors(errors: seq<ValLineError>)
    | InternalErr(exc: PyExc)

  /** `ValError::new(error_type, input)`: a single line error at the empty
      location. */
  function NewValError(errorType: ErrorType, input: Input): ValError
  {
    LineErrors([ValLineError(errorType, input, [])])
  }

  type ValResult<T> = Result<T, ValError>
}
