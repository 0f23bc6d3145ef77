/**
 * Python truthiness of an optional string (`None`, `""` and non-empty text),
 * and the binary `or` operator on such values.
 */
module Truthiness {
  import opened Wrappers

  /** `bool(v)` in Python: `None` and the empty string are falsy. */
  predicate Truthy(v: Option<string>) {
    v.Some? && v.value != ""
  }

  /** `x or y` in Python: `x` itself when it is truthy, otherwise `y` itself. */
  function Or(x: Option<string>, y: Option<string>): (r: Option<string>)
    ensures Truthy(x) ==> r == x
    ensures !Truthy(x) ==> r == y
    ensures Truthy(r) <==> Truthy(x) || Truthy(y)
  {
    if Truthy(x) then x else y
  }
}
