/** JavaScript value conventions the dashboard's logic relies on:
    an absent property (`null` / `undefined`) and the truthiness tests
    written with `&&`, `||` and `if (x)`. */
module Js {

  /** A property that may be absent (`null` or `undefined`). */
  datatype Option<+T> = None | Some(value: T)

  /** `if (s)` on an optional string: present and not the empty string. */
  predicate Truthy(s: Option<string>) {
    s.Some? && s.value != ""
  }

  /** `s || fallback` on an optional string. */
  function OrElse(s: Option<string>, fallback: string): (r: string)
    ensures Truthy(s) ==> r == s.value
    ensures !Truthy(s) ==> r == fallback
  {
    if Truthy(s) then s.value else fallback
  }

  /** `a || b` on two optional strings, which yields `b` whenever `a` is falsy. */
  function Or(a: Option<string>, b: Option<string>): (r: Option<string>)
    ensures Truthy(a) ==> r == a
    ensures !Truthy(a) ==> r == b
  {
    if Truthy(a) then a else b
  }
}
