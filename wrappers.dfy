/** Python's `Optional[str]` and the truthiness test `if x:` applied to it. */
module Wrappers {

  datatype Option<+T> = None | Some(value: T)

  /** `if s:` on an `Optional[str]`: false for `None` and for the empty string. */
  predicate Truthy(s: Option<string>)
  {
    s.Some? && s.value != ""
  }

  /** The optional string with its falsy values collapsed to `None`. */
  function Normalized(s: Option<string>): (r: Option<string>)
    ensures r.Some? <==> Truthy(s)
    ensures r.Some? ==> r == s
  {
    if Truthy(s) then s else None
  }
}
