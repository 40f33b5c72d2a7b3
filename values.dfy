/** The dynamically typed values that reach the core from outside: a YAML
    document loaded by the settings loader, the JSON object parsed from the
    classifier's reply, and the fields of a Firestore token document. */
module Values {
  import opened Common

  /** A Python value built from YAML, JSON or a Firestore document. Dictionary
      keys are strings. Python's `int` and `float` are kept apart, since the
      source never converts between them. */
  datatype Value =
    | Null
    | Bool(b: bool)
    | Int(i: int)
    | Real(r: real)
    | Str(s: string)
    | List(items: seq<Value>)
    | Dict(entries: map<string, Value>)

  /** Python's `d.get(key, default)`: the stored value when the key is
      present (even when that value is `None`), the default otherwise. */
  function Get(d: map<string, Value>, key: string, default: Value): Value
  {
    if key in d then d[key] else default
  }

  /** Python truthiness: `None`, `False`, zero, and empty strings,
      lists and dictionaries are false; everything else is true. */
  predicate Truthy(v: Value)
  {
    match v
    case Null => false
    case Bool(b) => b
    case Int(i) => i != 0
    case Real(r) => r != 0.0
    case Str(s) => s != ""
    case List(items) => items != []
    case Dict(entries) => entries != map[]
  }

  /** The number a value stands for in Python arithmetic (`bool` is a
      subclass of `int`); `None` when arithmetic on it raises a `TypeError`. */
  function NumberOf(v: Value): Option<real>
  {
    match v
    case Bool(b) => Some(if b then 1.0 else 0.0)
    case Int(i) => Some(i as real)
    case Real(r) => Some(r)
    case _ => None
  }
}
