/**
 * The JavaScript values the modelled code inspects, with the language's
 * truthiness and `typeof`. A missing key of an object reads as `Undefined`,
 * so a record field holding `Undefined` stands for a field that is absent.
 */
module JsValues {

  datatype Value =
    | Undefined
    | Null
    | Boolean(b: bool)
    | Number(n: real)
    | NaN
    | Str(s: string)
    | Object

  /** The JavaScript falsy values; every other value is truthy. */
  const Falsy: set<Value> := {Undefined, Null, Boolean(false), Number(0.0), NaN, Str("")}

  /** `!!v` in JavaScript. */
  predicate Truthy(v: Value)
    ensures Truthy(v) <==> v !in Falsy
  {
    match v
    case Undefined => false
    case Null => false
    case Boolean(b) => b
    case Number(n) => n != 0.0
    case NaN => false
    case Str(s) => s != ""
    case Object => true
  }

  /** `typeof v` in JavaScript (`typeof null` is "object", `typeof NaN` is "number"). */
  function TypeOf(v: Value): (t: string)
    ensures t == "number" <==> v.Number? || v.NaN?
    ensures t == "undefined" <==> v.Undefined?
  {
    match v
    case Undefined => "undefined"
    case Null => "object"
    case Boolean(_) => "boolean"
    case Number(_) => "number"
    case NaN => "number"
    case Str(_) => "string"
    case Object => "object"
  }

  /** A plain JavaScript object as its own enumerable keys. */
  type Obj = map<string, Value>

  /** Property read `o[k]`: a missing key reads as `undefined`. */
  function Get(o: Obj, k: string): (v: Value)
    ensures k !in o ==> v == Undefined
    ensures k in o ==> v == o[k]
  {
    if k in o then o[k] else Undefined
  }

  /** `x && {k: x}` spread into an object literal: the field is present only when `x` is truthy. */
  function IfTruthy(x: Value): (v: Value)
    ensures Truthy(x) ==> v == x
    ensures !Truthy(x) ==> v == Undefined
  {
    if Truthy(x) then x else Undefined
  }
}
