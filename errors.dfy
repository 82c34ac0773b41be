/** The ways one weather request can fail, and the Result type that carries them. */
module Errors {

  /** Why a step of the request failed. The handler only logs it; the caller never sees it. */
  datatype Failure =
    | Transport      // http.Get failed, or reading the response body failed
    | UnexpectedEnd  // json.Unmarshal was handed no bytes at all (a nil json.RawMessage)
    | SyntaxError    // the bytes handed to json.Unmarshal are not one JSON value
    | TypeMismatch   // the JSON value does not fit the Go type it is decoded into
    | NoForecasts    // the periods list decoded to an empty slice

  /** A value, or the failure that stopped the computation; usable with `:-`. */
  datatype Result<+T> = Ok(value: T) | Err(error: Failure) {
    predicate IsFailure() { Err? }

    function PropagateFailure<U>(): Result<U>
      requires Err?
    {
      Err(error)
    }

    function Extract(): T
      requires Ok?
    {
      value
    }
  }
}
