/** JSON values as held in process variables; a number is its exact value. */
module Json {
  datatype Value =
    | Null
    | Bool(b: bool)
    | Number(n: real)
    | String(s: string)
    | Array(items: seq<Value>)
    | Object(fields: map<string, Value>)

  type Variables = map<string, Value>
}
