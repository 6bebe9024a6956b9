/** Optional values and the JavaScript `||` default on strings.
    A JavaScript object field that may be missing is an `Option`; `a || d`
    on a string yields `d` when `a` is missing or the empty string (both
    are falsy) and `a` otherwise. */
module JsValues {

  datatype Option<+T> = None | Some(value: T) {
    function GetOr(default: T): T {
      match this
      case Some(v) => v
      case None => default
    }
  }

  /** True when the string is a truthy JavaScript value: present and non-empty. */
  predicate Truthy(o: Option<string>) {
    o.Some? && o.value != ""
  }

  /** `o || d` for an optional string. */
  function Or(o: Option<string>, d: string): (r: string)
    ensures Truthy(o) ==> r == o.value
    ensures !Truthy(o) ==> r == d
    ensures r == "" ==> d == "" && !Truthy(o)
  {
    if o.Some? && o.value != "" then o.value else d
  }
}
