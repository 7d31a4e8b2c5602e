/** Optional values and error-or-value results, the model's stand-ins for
    JavaScript's null/undefined and for thrown errors. */
module Wrappers {

  datatype Option<+T> = None | Some(value: T)

  datatype Result<+T, +E> = Ok(value: T) | Err(error: E)

  /** JavaScript truthiness of an optional number: `undefined`, `null` and `0` are falsy. */
  predicate Truthy(o: Option<int>)
  {
    o.Some? && o.value != 0
  }

  /** JavaScript truthiness of an optional string: `undefined`, `null` and `''` are falsy. */
  predicate Filled(o: Option<string>)
  {
    o.Some? && o.value != ""
  }

  /** `s || d` for an optional string and a string default. */
  function StrOr(s: Option<string>, d: string): string
  {
    if Filled(s) then s.value else d
  }

  /** `s || null` for an optional string: the empty string becomes null. */
  function NullIfEmpty(s: Option<string>): Option<string>
  {
    if Filled(s) then s else None
  }
}
