/** JavaScript values as the route file sees them after JSON decoding. */
module JsValues {

  /** A value that may be `undefined`/`null` (None) or present. */
  datatype Option<+T> = None | Some(value: T)

  /** JavaScript truthiness of an optional string: `undefined`, `null` and `""` are falsy. */
  predicate Truthy(o: Option<string>) {
    o.Some? && o.value != ""
  }

  /** `o || fallback` for an optional string. */
  function OrElse(o: Option<string>, fallback: string): string {
    if Truthy(o) then o.value else fallback
  }

  /** `o || []` for an optional list of strings. */
  function OrEmpty(o: Option<seq<string>>): (s: seq<string>)
    ensures o.None? ==> s == []
    ensures o.Some? ==> s == o.value
  {
    if o.Some? then o.value else []
  }

  /** `o || null` for an optional string: falsy values collapse to null. */
  function OrNull(o: Option<string>): Option<string> {
    if Truthy(o) then o else None
  }
}
