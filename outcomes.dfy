/**
 * Values that Python code returns or raises, as the pipeline sees them.
 */
module Outcomes {

  datatype Option<+T> = None | Some(value: T)

  /** A Python exception: its class and the text `str(e)` gives. */
  datatype Exception =
    | ValueError(message: string)
    | TypeError(message: string)
    | ExternalError(message: string)  // raised inside a call the model does not see (LLM, search client, file system)

  /** What a Python call did: return a value or raise an exception. */
  datatype Outcome<+T> = Returned(value: T) | Raised(error: Exception)

  /** `str(e)`. */
  function ExceptionText(e: Exception): string {
    e.message
  }
}
