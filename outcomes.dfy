/** Values shared by the AI task components: optional values, results of the
    foreign calls (model request, JSON parsing, base64 decoding) and what a
    `catch (e)` clause receives when one of them throws. */
module Outcomes {

  datatype Option<+T> = None | Some(value: T)

  /** The outcome of a foreign call: a value, or the thrown `E`. */
  datatype Result<+T, +E> = Ok(value: T) | Err(error: E)

  /** What a `catch (e)` sees: an `Error` instance with its message, or any
      other thrown value. */
  datatype Thrown = Error(message: string) | NotAnError

  /** Text used by every component when the thrown value is not an `Error`. */
  const RetryHint: string := "Por favor, inténtalo de nuevo."

  /** The message every component stores in its `error` field from a catch
      block: a fixed prefix followed by the error's message or the retry hint. */
  function FailureMessage(prefix: string, e: Thrown): string
  {
    prefix + match e
      case Error(msg) => msg
      case NotAnError => RetryHint
  }

  /** JavaScript truthiness of an optional string prop such as `pageContent`:
      `null` and `""` are both falsy. */
  predicate Present(s: Option<string>)
  {
    s.Some? && s.value != ""
  }

  /** `x || fallback` for an optional string. */
  function OrElse(s: Option<string>, fallback: string): (r: string)
    ensures Present(s) ==> r == s.value
    ensures !Present(s) ==> r == fallback
  {
    if Present(s) then s.value else fallback
  }
}
