/**
 * Dynamically typed Python values, as they reach the service's validators
 * (decoded JSON), and the error records the validation library collects.
 */
module Values {

  /** A Python value; a dict is the ordered list of its items. */
  datatype Value =
    | NoneValue
    | Bool(b: bool)
    | Int(i: int)
    | Str(s: string)
    | List(items: seq<Value>)
    | Dict(entries: seq<(Value, Value)>)

  /** Python truthiness, as tested by `if v:`. */
  predicate Truthy(v: Value)
  {
    match v
    case NoneValue => false
    case Bool(b) => b
    case Int(i) => i != 0
    case Str(s) => s != ""
    case List(items) => items != []
    case Dict(entries) => entries != []
  }

  /** `type(v).__name__`. */
  function TypeName(v: Value): string
  {
    match v
    case NoneValue => "NoneType"
    case Bool(_) => "bool"
    case Int(_) => "int"
    case Str(_) => "str"
    case List(_) => "list"
    case Dict(_) => "dict"
  }

  function StrList(xs: seq<string>): (r: Value)
    ensures r.List? && |r.items| == |xs|
    ensures forall k :: 0 <= k < |xs| ==> r.items[k] == Str(xs[k])
  {
    if xs == [] then List([]) else List([Str(xs[0])] + StrList(xs[1..]).items)
  }

  /** One part of an error location: a field name or a list index. */
  datatype LocPart = Name(name: string) | Index(index: int)

  /** One entry of a validation error: where it happened and why. */
  datatype ErrorDict = ErrorDict(loc: seq<LocPart>, msg: string)
}
