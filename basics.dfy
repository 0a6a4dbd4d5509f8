/** Python values the rest of the model needs: an optional value (`None` or a
    string), an exception-or-value result, and the truthiness test the source
    applies to optional strings. */
module Basics {

  datatype Option<T> = None | Some(value: T)

  datatype Result<T, E> = Success(value: T) | Failure(error: E)

  /** `if s:` on an optional string: true only for a present, non-empty string. */
  predicate Truthy(s: Option<string>) {
    s.Some? && s.value != ""
  }
}
