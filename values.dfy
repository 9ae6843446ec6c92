/** Field values. A field's value is an `interface{}` in the source; the model
    gives it the shapes the logger itself puts into fields. */
module Values {

  datatype Value =
    | Str(s: string)                         // a string
    | Int(n: int)                            // an integer, such as a status code
    | Query(params: map<string, seq<string>>) // `url.Values`
    | Obj(fields: map<string, Value>)        // a nested `map[string]interface{}`

  /** A field set: key to value, keys unique. */
  type Fields = map<string, Value>
}
