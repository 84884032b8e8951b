/** Option values, standing for JavaScript's null/undefined and Python's None. */
module Wrappers {

  datatype Option<+T> = None | Some(value: T) {

    /** The value, or `default` when there is none (JavaScript's `x ?? default`). */
    function GetOr(default: T): T {
      match this
      case Some(v) => v
      case None => default
    }
  }

  /**
   * JavaScript's `s || default` on an optional string: null, undefined and the
   * empty string are falsy, so each of them gives `default`.
   */
  function OrElse(s: Option<string>, default: string): (r: string)
    ensures s.Some? && s.value != "" ==> r == s.value
    ensures (s.None? || s.value == "") ==> r == default
  {
    if s.Some? && s.value != "" then s.value else default
  }
}
