/**
 * The failure vocabulary shared by the whole model: Python's `None` as
 * `Option`, and every exception the core raises (or lets through) as a
 * constructor of `Error`, carried by `Result`.
 */
module Outcomes {

  datatype Option<+T> = None | Some(value: T) {
    /** `x or default` for an optional value: the value when present, else the default. */
    function GetOr(default: T): T {
      match this
      case Some(v) => v
      case None => default
    }
  }

  /** The exceptions of the core, one constructor per raise site or foreign failure. */
  datatype Error =
    | MissingApiKey                      // RuntimeError in the service constructor
    | EmptyResponse                      // "Empty response from Gemini API"
    | ServiceFailure                     // an exception raised inside the model call itself
    | KeyError(name: string)             // str.format met a placeholder it has no argument for
    | InvalidEnumValue(value: string)    // DocumentType(...)/ToneType(...) on a foreign string
    | UnsupportedFormat(format: string)  // ValueError of export_document
    | TooShort(length: nat)              // pydantic min_length violation
    | AsyncGeneratorNotIterable          // TypeError: a sync `for` over an async generator
    | NoneAttribute(name: string)        // AttributeError: a string method called on `None`

  datatype Result<+T> = Ok(value: T) | Err(error: Error)
}
