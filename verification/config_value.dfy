/** The already-parsed JSON configuration object (`jsonconfig.Obj`) and the
    two type assertions the resolver performs on its entries. */
module ConfigValue {
  import opened Wrappers

  /** A decoded JSON value, as `encoding/json` produces it into `interface{}`. */
  datatype Value =
    | Null
    | Bool(b: bool)
    | Number(n: real)
    | Str(s: string)
    | List(items: seq<Value>)
    | Object(fields: map<string, Value>)

  /** The configuration: string keys to loosely-typed values. */
  type ConfigObj = map<string, Value>

  /** A string type assertion on `conf[key]`, in its two-result form: the string when the key is
      present and holds a string, nothing otherwise. */
  function StringAt(conf: ConfigObj, key: string): (r: Option<string>)
    ensures r.Some? <==> key in conf && conf[key].Str?
    ensures r.Some? ==> conf[key] == Str(r.value)
  {
    if key in conf && conf[key].Str? then Some(conf[key].s) else None
  }

  /** A JSON-array type assertion on `conf[key]`, in its two-result form: the elements when
      the key is present and holds a JSON array, nothing otherwise. */
  function ListAt(conf: ConfigObj, key: string): (r: Option<seq<Value>>)
    ensures r.Some? <==> key in conf && conf[key].List?
    ensures r.Some? ==> conf[key] == List(r.value)
  {
    if key in conf && conf[key].List? then Some(conf[key].items) else None
  }
}
