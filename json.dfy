/**
 * Python values as the backend sees them after JSON decoding (request bodies, MQTT payloads,
 * documents), together with the parts of Python's semantics the handlers rely on:
 * truthiness, `dict.get` with a default, and `==` against an int or a str literal.
 */
module Json {
  import opened Wrappers

  datatype Value =
    | Null
    | Bool(b: bool)
    | Int(i: int)
    | Real(r: real)
    | Str(s: string)
    | Arr(items: seq<Value>)
    | Obj(fields: map<string, Value>)

  /** A JSON object as a Python dict. */
  type Dict = map<string, Value>

  /** Python's `bool(v)`: None, False, 0, 0.0, "", [] and {} are false, everything else true. */
  predicate Truthy(v: Value)
  {
    match v
    case Null => false
    case Bool(b) => b
    case Int(i) => i != 0
    case Real(r) => r != 0.0
    case Str(s) => s != ""
    case Arr(items) => items != []
    case Obj(fields) => fields != map[]
  }

  /** `d.get(k, default)`. */
  function Get(d: Dict, k: string, default: Value): (r: Value)
    ensures k in d ==> r == d[k]
    ensures k !in d ==> r == default
  {
    if k in d then d[k] else default
  }

  /** Python's `v == n` for an int literal `n`: bools and integral floats compare equal to ints. */
  predicate EqualsInt(v: Value, n: int)
  {
    match v
    case Bool(b) => (if b then 1 else 0) == n
    case Int(i) => i == n
    case Real(r) => r == n as real
    case _ => false
  }

  /** Python's `v == s` for a str literal `s`: only a str can be equal to it. */
  predicate EqualsStr(v: Value, s: string)
  {
    v == Str(s)
  }

  /** Python's `k in d` for a dict, list or str container (None, numbers: a TypeError). */
  function Contains(container: Value, k: string): (r: Option<bool>)
    ensures container.Obj? ==> r == Some(k in container.fields)
    ensures container.Arr? ==> r == Some(Str(k) in container.items)
    ensures (container.Null? || container.Bool? || container.Int? || container.Real?) ==> r == None
  {
    match container
    case Obj(fields) => Some(k in fields)
    case Arr(items) => Some(Str(k) in items)
    case Str(s) => Some(IsSubstring(k, s))
    case _ => None
  }

  /** Python's `needle in haystack` for two strings. */
  predicate IsSubstring(needle: string, haystack: string)
  {
    exists i, j :: 0 <= i <= j <= |haystack| && haystack[i..j] == needle
  }
}
