/**
 * Values shared by every part of the storefront model: an optional value
 * (a JavaScript `null`/`undefined` or a missing row) and the two ways the
 * source turns a possibly-empty string into a value with `||`.
 */
module Common {

  /** A value that may be absent: `null`, `undefined`, a missing row or NaN. */
  datatype Option<+T> = None | Some(value: T) {

    /** The value, or `default` when absent. */
    function GetOr(default: T): T {
      match this
      case Some(v) => v
      case None => default
    }
  }

  /** JavaScript truthiness of an optional string: present and non-empty. */
  predicate Truthy(s: Option<string>) {
    s.Some? && s.value != ""
  }

  /** `s || fallback` for an optional string: the empty string and absence are falsy. */
  function OrElse(s: Option<string>, fallback: string): (r: string)
    ensures Truthy(s) ==> r == s.value
    ensures !Truthy(s) ==> r == fallback
    ensures fallback != "" ==> r != ""
  {
    if s.Some? && s.value != "" then s.value else fallback
  }

  /** `s || null`: the empty string becomes `null`. */
  function NullIfEmpty(s: Option<string>): (r: Option<string>)
    ensures r.Some? <==> Truthy(s)
    ensures r.Some? ==> r == s
  {
    if s.Some? && s.value != "" then s else None
  }
}
