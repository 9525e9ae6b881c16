/** JavaScript values as the two scripts use them: `null`/`undefined` as an
    absent value, and the truthiness of strings in `||`, `!!` and `if`.
    The truthiness of numbers is written out where a number is tested. */
module JsValues {

  /** An optional value; `None` stands for JavaScript `null` or `undefined`. */
  datatype Option<+T> = None | Some(value: T)

  /** A string-valued expression is truthy when it is present and not empty. */
  predicate Truthy(v: Option<string>) {
    v.Some? && v.value != ""
  }

  /** `v || fallback` for a possibly absent string. */
  function OrElse(v: Option<string>, fallback: string): (r: string)
    ensures Truthy(v) ==> r == v.value
    ensures !Truthy(v) ==> r == fallback
  {
    if Truthy(v) then v.value else fallback
  }
}
