/** Decoded JSON values as Python sees them after `json.loads`, with Python's truthiness. */
module JsonValues {

  /** JSON numbers are modelled as integers only. */
  datatype Json =
    | Null
    | Bool(b: bool)
    | Int(i: int)
    | Str(s: string)
    | Arr(elems: seq<Json>)
    | Obj(members: map<string, Json>)

  /** Python's `bool(v)` for a decoded JSON value. */
  predicate Truthy(v: Json) {
    match v
    case Null => false
    case Bool(b) => b
    case Int(i) => i != 0
    case Str(s) => s != ""
    case Arr(xs) => xs != []
    case Obj(m) => m != map[]
  }

  /** Python's `d.get(k)`: the stored value, or `None` when the key is absent. */
  function Get(d: map<string, Json>, k: string): (r: Json) {
    if k in d then d[k] else Null
  }
}
