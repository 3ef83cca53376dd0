/**
 * Small helpers shared by the front-end modules: optional values, and the
 * JavaScript truthiness rules the components apply to strings read from the
 * environment, from the wallet and from server replies.
 */
module Env {

  datatype Option<+T> = None | Some(value: T)

  /**
   * A JavaScript `string | undefined` used in a boolean position: both
   * `undefined` and the empty string are falsy.
   */
  predicate Present(s: Option<string>)
  {
    s.Some? && s.value != ""
  }

  /** `s || fallback` for a string `s`, where "" stands for a missing field. */
  function Or(s: string, fallback: string): (r: string)
    ensures s != "" ==> r == s
    ensures s == "" ==> r == fallback
  {
    if s != "" then s else fallback
  }

  /** `s.startsWith(prefix)`. */
  predicate StartsWith(s: string, prefix: string)
  {
    |prefix| <= |s| && s[..|prefix|] == prefix
  }

  /** `s.endsWith(suffix)`. */
  predicate EndsWith(s: string, suffix: string)
  {
    |suffix| <= |s| && s[|s| - |suffix|..] == suffix
  }
}
