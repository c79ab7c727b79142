/**
 * The few JavaScript values the tracker handles as strings: a string, `null`
 * or `undefined`. Two operations matter: truthiness (what `x ? … : …` and
 * `x || dflt` test) and template-literal conversion (what `${x}` produces).
 */
module Js {
  datatype Value = Str(s: string) | Null | Undefined

  /** A string is truthy exactly when it is non-empty; `null` and `undefined` are falsy. */
  predicate Truthy(v: Value) {
    v.Str? && v.s != ""
  }

  /** The text a template literal `${v}` inserts for `v`. */
  function Render(v: Value): string {
    match v
    case Str(s) => s
    case Null => "null"
    case Undefined => "undefined"
  }

  /** `v || dflt` on a string-valued `v`. */
  function OrElse(v: Value, dflt: string): (r: string)
    ensures Truthy(v) ==> r == v.s
    ensures !Truthy(v) ==> r == dflt
  {
    if Truthy(v) then v.s else dflt
  }
}
