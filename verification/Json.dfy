/** Decoded JSON values, as encoding/json hands them to the Go code. */
module Json {
  type Object = map<string, Value>

  datatype Value =
    | Null
    | Bool(b: bool)
    | Number(n: real)
    | Str(s: string)
    | Array(items: seq<Value>)
    | Obj(fields: Object)
}
