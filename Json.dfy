/** The dynamically typed values the client puts into request payloads
    (Go's `map[string]interface{}`), and the maps that hold them. Context
    maps, whose type is declared elsewhere, are taken to hold the same
    values. Every `Value` can be marshalled: values `json.Marshal` rejects
    (functions, channels, NaN) cannot be expressed. */
module Json {

  datatype Value =
    | Null
    | Str(s: string)
    | Int(i: int)
    | Bool(b: bool)
    | List(items: seq<Value>)
    | Object(fields: map<string, Value>)

  /** A Go `map[string]interface{}`. */
  type Map = map<string, Value>

  /** Indexing a Go map: a missing key reads as the zero value, `nil`. */
  function Get(m: Map, key: string): Value
  {
    if key in m then m[key] else Null
  }
}
