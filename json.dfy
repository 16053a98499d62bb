// JSON-like values: the shape of YAML configuration trees, response metadata and the
// records written to and read back from chat files.
module Json {
  import opened Text

  datatype Value =
    | Null
    | Bool(b: bool)
    | Int(i: int)
    | Float(r: real)
    | Str(s: string)
    | Arr(items: seq<Value>)
    | Obj(fields: map<string, Value>)

  /** Python truthiness of the corresponding value. */
  predicate Truthy(v: Value) {
    match v
    case Null => false
    case Bool(b) => b
    case Int(i) => i != 0
    case Float(r) => r != 0.0
    case Str(s) => s != []
    case Arr(a) => a != []
    case Obj(m) => m != map[]
  }

  /** dict.get(key, default) on a dictionary. */
  function GetOr(m: map<string, Value>, key: string, default: Value): Value {
    if key in m then m[key] else default
  }

  /** The name Python gives the type of the corresponding value. */
  function TypeName(v: Value): string {
    match v
    case Null => "NoneType"
    case Bool(_) => "bool"
    case Int(_) => "int"
    case Float(_) => "float"
    case Str(_) => "str"
    case Arr(_) => "list"
    case Obj(_) => "dict"
  }

  /** str() of the TypeError raised by v["key"] on a value that is not a dictionary, in the
      wording of CPython 3.11. */
  function KeyIndexError(v: Value): string {
    match v
    case Str(_) => "string indices must be integers, not 'str'"
    case Arr(_) => "list indices must be integers or slices, not str"
    case _ => "'" + TypeName(v) + "' object is not subscriptable"
  }

  /** str(v): exact for strings, integers, booleans and None; floats, lists and dictionaries
      are shown by their type name. */
  function Show(v: Value): string {
    match v
    case Null => "None"
    case Bool(b) => if b then "True" else "False"
    case Int(i) => IntToString(i)
    case Str(s) => s
    case _ => "<" + TypeName(v) + ">"
  }
}
