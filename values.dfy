/** Values that flow through the proxy: the parsed JSON payloads the upstream
    catalog API returns, and an Option for "found / not found". */
module Values {

  datatype Option<+T> = None | Some(value: T)

  /** A parsed JSON document as `response.json()` yields it. The cache never
      looks inside one; only its JavaScript truthiness matters to the handlers. */
  datatype Json =
    | Null
    | Bool(b: bool)
    | Number(n: real)
    | Str(s: string)
    | Arr(items: seq<Json>)
    | Obj(fields: seq<(string, Json)>)

  /** JavaScript truthiness of a parsed JSON value: `null`, `false`, `0` and the
      empty string are falsy; every array and every object is truthy. */
  predicate Truthy(j: Json)
  {
    match j
    case Null => false
    case Bool(b) => b
    case Number(n) => n != 0.0
    case Str(s) => s != ""
    case Arr(_) => true
    case Obj(_) => true
  }
}
