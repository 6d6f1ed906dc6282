/** Error values as the Go code builds and reports them, and the optional/fallible
    wrappers used for `(value, error)` returns. */
module Errors {

  datatype Option<+T> = None | Some(value: T)

  /** The kinds of Go `error` the modelled code produces or passes on. */
  datatype Error =
      /** An error raised by code outside this model (the domain, a store, a remote service),
          known only by its text. */
    | Failure(text: string)
      /** The test repository's error for a training UUID it does not hold. */
    | TrainingNotFound(trainingUUID: string)
      /** `errors.Wrap` from github.com/pkg/errors: a context message in front of a cause. */
    | Wrapped(context: string, cause: Error)
      /** The shared kernel's slug error: a human message plus a machine-readable slug. */
    | SlugError(text: string, slug: string)

  /** A Go `(T, error)` return where exactly one side is meaningful. */
  datatype Result<+T> = Ok(value: T) | Err(error: Error)

  /** The text `err.Error()` gives for each kind of error. */
  function Message(e: Error): string
  {
    match e
    case Failure(t) => t
    case TrainingNotFound(u) => "training '" + u + "' not found"
    case Wrapped(c, cause) => c + ": " + Message(cause)
    case SlugError(t, _) => t
  }

  /** The error half of a Result, as Go's `err` variable would hold it. */
  function ErrorOf<T>(r: Result<T>): Option<Error>
  {
    match r
    case Ok(_) => None
    case Err(e) => Some(e)
  }
}
