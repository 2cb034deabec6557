/** The few JavaScript value rules the page script relies on: a string-valued
    lookup that may yield `null`, truthiness, the short-circuit `&&` and `||`
    operators, and a query string read through `URLSearchParams.get`. */
module Js {

  datatype Option<+T> = None | Some(value: T)

  /** A value that is either `null` (an absent attribute or query parameter,
      or an absent object property) or a string. */
  datatype JsString = Null | Str(value: string) {
    /** JavaScript truthiness: `null` and the empty string are falsy. */
    predicate Truthy() {
      Str? && value != ""
    }
  }

  /** `a && b`: yields `a` itself when it is falsy, otherwise `b`. */
  function And(a: JsString, b: JsString): (r: JsString)
    ensures r.Truthy() <==> a.Truthy() && b.Truthy()
    ensures a.Truthy() ==> r == b
  {
    if a.Truthy() then b else a
  }

  /** `a || b`: yields `a` itself when it is truthy, otherwise `b`. */
  function Or(a: JsString, b: JsString): (r: JsString)
    ensures r.Truthy() <==> a.Truthy() || b.Truthy()
    ensures r == a || r == b
    ensures !a.Truthy() ==> r == b
  {
    if a.Truthy() then a else b
  }

  /** How a template literal renders an interpolated value. */
  function Interpolate(a: JsString): string {
    match a
    case Null => "null"
    case Str(s) => s
  }

  /** The template literal `${a}:${b}`. */
  function Pair(a: JsString, b: JsString): (r: JsString)
    ensures r.Truthy()
    ensures a.Str? && b.Str? ==> r == Str(a.value + ":" + b.value)
  {
    Str(Interpolate(a) + ":" + Interpolate(b))
  }

  /** A query string, one value per parameter name. */
  type Query = map<string, string>

  /** `URLSearchParams.get`: the parameter's value, or `null` when absent. */
  function Get(q: Query, name: string): (r: JsString)
    ensures r.Str? <==> name in q
    ensures r.Str? ==> r.value == q[name]
  {
    if name in q then Str(q[name]) else Null
  }
}
