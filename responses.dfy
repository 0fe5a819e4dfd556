/** How the components read the answer of a JSON POST or PUT to one of the
    application's routes. */
module Responses {
  import opened Wrappers

  /** A parsed OK body, a non-OK status whose JSON body may carry an
      `error` text, or an exception (network failure, unparsable body)
      with its message. */
  datatype PostAnswer<T> = Answered(body: T) | Refused(error: Option<string>) | Thrown(message: string)

  /** The message shown for a failed request: `data.error || fallback` for
      a refusal (an empty text counts as missing), the exception's message
      otherwise. */
  function FailureText<T>(answer: PostAnswer<T>, fallback: string): (r: string)
    requires !answer.Answered?
    ensures answer.Thrown? ==> r == answer.message
    ensures answer.Refused? && answer.error.Some? && answer.error.value != "" ==> r == answer.error.value
    ensures answer.Refused? && (answer.error.None? || answer.error.value == "") ==> r == fallback
  {
    match answer
    case Refused(error) => if error.Some? && error.value != "" then error.value else fallback
    case Thrown(message) => message
  }
}
