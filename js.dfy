/** The few JavaScript value conventions the plugin relies on. */
module Js {

  /** A value that may be `null`/`undefined` (None) or present (Some). */
  datatype Option<+T> = None | Some(value: T)

  /** The outcome of a call that may throw: a value, or the error it threw. */
  datatype Result<+T, +E> = Success(value: T) | Failure(error: E)

  /** JavaScript's `!v` for a value that is `null`, `undefined` or a string:
      the missing value and the empty string are both falsy. */
  predicate Falsy(v: Option<string>)
  {
    v.None? || v.value == ""
  }

  /** The `v || ""` idiom: the value itself when truthy, else the empty string. */
  function OrEmpty(v: Option<string>): (r: string)
    ensures r == "" <==> Falsy(v)
    ensures r != "" ==> v == Some(r)
  {
    if Falsy(v) then "" else v.value
  }
}
