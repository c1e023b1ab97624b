/** The Option datatype used for values that may be absent. */
module Wrappers {
  datatype Option<+T> = None | Some(value: T)
}

/**
 * Decoded JSON values as the request handlers see them after `get_json()`,
 * together with the few pieces of Python semantics the handlers rely on:
 * truthiness, `dict.get`, the `or` operator and hashability.
 */
module Json {

  datatype Value =
    | Null
    | Bool(b: bool)
    | Num(n: int)
    | Float(x: real)
    | Str(s: string)
    | Arr(items: seq<Value>)
    | Obj(fields: map<string, Value>)

  /** A JSON object: a request body, or one stored customer or invoice. */
  type Record = map<string, Value>

  /** Python's truth value of a decoded JSON value (`if x`, `not x`, `x or y`). */
  predicate Truthy(v: Value)
  {
    match v
    case Null => false
    case Bool(b) => b
    case Num(n) => n != 0
    case Float(x) => x != 0.0
    case Str(s) => s != ""
    case Arr(items) => items != []
    case Obj(fields) => fields != map[]
  }

  /** `d.get(k)`: the value stored under `k`, or `None`. */
  function Get(d: Record, k: string): Value
  {
    if k in d then d[k] else Null
  }

  /** `d.get(k, default)`. */
  function GetOr(d: Record, k: string, default: Value): Value
  {
    if k in d then d[k] else default
  }

  /** Python's `a or b`: the first operand when it is truthy, the second otherwise. */
  function Or(a: Value, b: Value): Value
  {
    if Truthy(a) then a else b
  }

  /** Lists and dicts cannot be dictionary keys: using one raises TypeError. */
  predicate Hashable(v: Value)
  {
    !v.Arr? && !v.Obj?
  }

  /** The name Python gives the type of a decoded JSON value. */
  function TypeName(v: Value): string
  {
    match v
    case Null => "NoneType"
    case Bool(_) => "bool"
    case Num(_) => "int"
    case Float(_) => "float"
    case Str(_) => "str"
    case Arr(_) => "list"
    case Obj(_) => "dict"
  }

  /** `str(e)` of the AttributeError raised by `v.get(...)` when `v` is not a dict. */
  function NoGetMessage(v: Value): string
  {
    "'" + TypeName(v) + "' object has no attribute 'get'"
  }

  /** `str(e)` of the TypeError raised when `v` is used as a dictionary key. */
  function UnhashableMessage(v: Value): string
  {
    "unhashable type: '" + TypeName(v) + "'"
  }
}
