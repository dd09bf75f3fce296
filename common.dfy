/** Value types shared by every part of the model: nullable values, the outcome
    of a call into a remote collaborator, identifiers, timestamps, and the .NET
    whitespace test that the orchestrators use to reject blank input. */
module Common {

  /** A value that may be null (C#'s `T?`). */
  datatype Option<+T> = None | Some(value: T) {

    /** C#'s null-coalescing `x ?? fallback`. */
    function GetOr(fallback: T): T {
      match this
      case Some(v) => v
      case None => fallback
    }
  }

  /** What one awaited remote call produced: its value, or the message of the
      exception it threw. */
  datatype Outcome<+T> = Ok(value: T) | Err(message: string)

  /** What an orchestration run hands back to its caller: a value, or the
      exception it lets escape. */
  datatype Result<+T, +E> = Returned(value: T) | Threw(error: E)

  /** A `System.Guid`: an opaque identifier compared only for equality. */
  type Guid = nat

  /** A `DateTime` reading: an opaque instant; nothing is assumed about its value. */
  type Timestamp = int

  /** Serialised JSON text (a `JsonObject` or an anonymous object): opaque here. */
  type Json = string

  /** `char.IsWhiteSpace`: the Unicode space separators, line and paragraph
      separators, and the control characters U+0009 to U+000D and U+0085. */
  predicate IsWhiteSpace(c: char) {
    ('\t' <= c <= '\r') || c == ' ' || c == '\U{85}' || c == '\U{A0}' || c == '\U{1680}'
    || ('\U{2000}' <= c <= '\U{200A}') || c == '\U{2028}' || c == '\U{2029}'
    || c == '\U{202F}' || c == '\U{205F}' || c == '\U{3000}'
  }

  /** `string.IsNullOrWhiteSpace`: null, empty, or only whitespace characters. */
  predicate IsNullOrWhiteSpace(s: Option<string>) {
    s.None? || forall i :: 0 <= i < |s.value| ==> IsWhiteSpace(s.value[i])
  }
}
