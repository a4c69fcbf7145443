/** Decoded JSON values as Python sees them after `json.loads`, with the
    parts of Python's semantics the client relies on: truthiness (`if x:`)
    and subscripting (`v["key"]`, `v[0]`), where a failing subscript is the
    exception the client catches. */
module Json {

  import opened Wrappers

  /** A JSON value. Numbers are integers (fractions are not modelled). */
  datatype Value =
    | Null
    | Bool(b: bool)
    | Num(n: int)
    | Str(s: string)
    | Arr(items: seq<Value>)
    | Obj(fields: map<string, Value>)

  /** The outcome of `json.loads` on a string: a value, or the exception. */
  datatype ParseResult = Parsed(value: Value) | ParseFail

  /** Python truthiness of a decoded JSON value. */
  predicate Truthy(v: Value) {
    match v
    case Null => false
    case Bool(b) => b
    case Num(n) => n != 0
    case Str(s) => s != ""
    case Arr(items) => items != []
    case Obj(fields) => fields != map[]
  }

  /** `v[key]` for a string key: only a dict that has the key answers;
      a missing key (KeyError) or any other kind of value (TypeError) fails. */
  function Lookup(v: Value, key: string): Option<Value> {
    if v.Obj? && key in v.fields then Some(v.fields[key]) else None
  }

  /** `v[0]`: the first element of a non-empty list, or the first character
      (as a one-character string) of a non-empty string; anything else
      raises (IndexError on an empty one, KeyError on a dict, whose keys are
      strings, TypeError otherwise). */
  function IndexZero(v: Value): Option<Value> {
    match v
    case Arr(items) => if |items| > 0 then Some(items[0]) else None
    case Str(s) => if |s| > 0 then Some(Str(s[..1])) else None
    case _ => None
  }
}
