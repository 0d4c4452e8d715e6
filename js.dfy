/**
 * The handful of dynamically typed JavaScript values that flow through the
 * storefront's authentication code unchecked: a GraphQL field that may be
 * `null`, an optional parameter that may be `undefined`, and a parameter that
 * receives a string where a boolean was declared.
 */
module Js {

  datatype Value = Undefined | Null | Bool(b: bool) | Str(s: string)

  /** JavaScript truthiness: `undefined`, `null`, `false` and `''` are falsy. */
  predicate Truthy(v: Value)
  {
    (v.Bool? && v.b) || (v.Str? && v.s != "")
  }

  /** `v || fallback` for any fallback value. */
  function Or(v: Value, fallback: Value): (r: Value)
    ensures Truthy(v) ==> r == v
    ensures !Truthy(v) ==> r == fallback
  {
    if Truthy(v) then v else fallback
  }

  /** The text a template literal `${v}` produces. */
  function Interpolate(v: Value): (r: string)
    ensures v.Str? ==> r == v.s
    ensures v.Null? ==> r == "null"
    ensures v.Undefined? ==> r == "undefined"
  {
    match v
    case Undefined => "undefined"
    case Null => "null"
    case Bool(b) => if b then "true" else "false"
    case Str(s) => s
  }
}
