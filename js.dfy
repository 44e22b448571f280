/** The few JavaScript value semantics the library relies on: absent
    arguments and truthiness (what `||` and `Boolean(...)` test). */
module Js {

  /** An optional argument: `None` is an omitted (undefined) argument. */
  datatype Option<+T> = None | Some(value: T)

  /** The JavaScript values a caller may pass for the `read` flag:
      `undefined`, `null`, booleans, integer numbers, strings, and objects
      (arrays and functions included), which carry no state that matters
      here. Fractional numbers, NaN, BigInt and symbols are not modelled. */
  datatype Value = Undefined | Null | Bool(b: bool) | Number(n: int) | Str(s: string) | Object

  /** JavaScript truthiness: `undefined`, `null`, `false`, `0` and `""` are
      falsy, every other value is truthy. */
  predicate Truthy(v: Value)
    ensures Truthy(v) <==> v !in {Undefined, Null, Bool(false), Number(0), Str("")}
  {
    match v
    case Undefined => false
    case Null => false
    case Bool(b) => b
    case Number(n) => n != 0
    case Str(s) => s != ""
    case Object => true
  }

  /** `a || fallback` for a string operand `a` that may be undefined: an
      omitted or empty `a` gives the fallback, any other string is kept, so
      a non-empty fallback makes the result non-empty. */
  function StringOr(a: Option<string>, fallback: string): (r: string)
    ensures a == None || a == Some("") ==> r == fallback
    ensures a.Some? && a.value != "" ==> r == a.value
    ensures fallback != "" ==> r != ""
  {
    if Truthy(OfString(a)) then a.value else fallback
  }

  /** Defaulting a result a second time with the same fallback changes
      nothing. */
  lemma StringOrIdempotent(a: Option<string>, fallback: string)
    ensures StringOr(Some(StringOr(a, fallback)), fallback) == StringOr(a, fallback)
  {
  }

  /** An optional string argument seen as a JavaScript value. */
  function OfString(o: Option<string>): Value
  {
    match o
    case None => Undefined
    case Some(s) => Str(s)
  }

  /** An optional integer argument seen as a JavaScript value. */
  function OfInt(o: Option<int>): Value
  {
    match o
    case None => Undefined
    case Some(n) => Number(n)
  }
}
