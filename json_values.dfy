/** Python values as they reach the callback: task results, host variables and task
    arguments are dictionaries of JSON-representable values. */
module JsonValues {

  datatype Option<+T> = None | Some(value: T)

  /** A JSON-representable Python value; `Null` stands for `None`, `Float` for a finite float. */
  datatype Value =
    | Null
    | Bool(b: bool)
    | Int(i: int)
    | Float(f: real)
    | Str(s: string)
    | List(items: seq<Value>)
    | Dict(entries: map<string, Value>)

  /** `d.get(key, default)` on a Python dictionary. */
  function Get(d: map<string, Value>, key: string, default: Value): Value
  {
    if key in d then d[key] else default
  }
}
