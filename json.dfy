/** JSON values as the Python code sees them (dicts, lists, strings, numbers,
    None), and the three Python operations the code applies to them:
    `d.get(k, default)`, `d[k]` and iteration with `for`. */
module Json {
  import opened Errors

  /** The vector the sentence-encoding model returns; its contents are never
      inspected by the repository. */
  type Embedding(==)

  datatype Value =
    | Null
    | Bool(b: bool)
    | Int(i: int)
    | Str(s: string)
    | Arr(items: seq<Value>)
    | Obj(fields: map<string, Value>)
    | Vector(embedding: Embedding)

  /** A corpus record or a search hit's `_source`. */
  type Document = map<string, Value>

  /** `v.get(key, default)`: a dict answers with the stored value (even when it
      is None) or with the default; any other value has no `get`. */
  function Get(v: Value, key: string, default: Value): Result<Value>
  {
    match v
    case Obj(m) => Ok(if key in m then m[key] else default)
    case _ => Err(AttributeError("get"))
  }

  /** `v[key]` with a string key. */
  function Subscript(v: Value, key: string): Result<Value>
  {
    match v
    case Obj(m) => if key in m then Ok(m[key]) else Err(KeyError(key))
    case Null => Err(TypeError("'NoneType' object is not subscriptable"))
    case Arr(_) => Err(TypeError("list indices must be integers or slices, not str"))
    case Str(_) => Err(TypeError("string indices must be integers"))
    case _ => Err(TypeError("object is not subscriptable"))
  }

  /** What `for x in v` visits. A dict yields its keys, in an insertion order
      that a `map` does not record; callers only need to know whether there
      are any, since each of them then fails on the first key. */
  datatype Iteration = Elements(items: seq<Value>) | DictKeys(keys: set<string>) | NotIterable

  function Iterate(v: Value): Iteration
  {
    match v
    case Arr(items) => Elements(items)
    case Str(s) => Elements(seq(|s|, i requires 0 <= i < |s| => Str([s[i]])))
    case Obj(m) => DictKeys(m.Keys)
    case _ => NotIterable
  }
}
