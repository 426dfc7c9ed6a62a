/**
 * The error cell shared by the three data hooks: what a failed fetch stores
 * in `error`.
 */
module Fetch {

  /** An `Error` object; only its message is modelled. */
  datatype FetchError = FetchError(message: string)

  /** What a failed step of a fetch can throw: an `Error` instance, or any other value. */
  datatype Thrown = ThrownError(error: FetchError) | ThrownValue

  /**
   * `err instanceof Error ? err : new Error(fallback)`: an `Error` is kept as
   * it is; anything else is replaced by a new error with the hook's message.
   */
  function Caught(thrown: Thrown, fallback: string): (e: FetchError)
    ensures thrown.ThrownError? ==> e == thrown.error
    ensures thrown.ThrownValue? ==> e.message == fallback
  {
    match thrown
    case ThrownError(err) => err
    case ThrownValue => FetchError(fallback)
  }
}
