/** Small wrapper datatypes shared by the whole model: optional values, what a
    JavaScript `throw` can carry, and the outcome of a call that may throw. */
module Wrappers {

  datatype Option<+T> = None | Some(value: T)

  /** A thrown value: an `Error` object with its message, or anything else. */
  datatype Thrown = Err(message: string) | NonErrorValue

  /** The outcome of an (awaited) call: it returned a value or it threw. */
  datatype Call<+T> = Returned(value: T) | Threw(thrown: Thrown)

  /** JavaScript truthiness of an optional string: absent and "" are falsy. */
  predicate Truthy(s: Option<string>) {
    s.Some? && s.value != ""
  }

  /** `s || fallback` for an optional string. */
  function OrElse(s: Option<string>, fallback: string): string {
    if Truthy(s) then s.value else fallback
  }

  /** `n || 0` for an optional integer: absent and 0 both give 0. */
  function OrZero(n: Option<int>): int {
    if n.Some? then n.value else 0
  }
}
