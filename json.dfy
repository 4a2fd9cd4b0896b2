/**
 * JSON values as `JSON.parse` produces them and `JSON.stringify` consumes them.
 * The text encoding is not modelled: a payload on the wire is a `Value`, and a
 * payload that fails to parse is represented by an absent value.
 */
module Json {
  datatype Value =
    | Null
    | Bool(b: bool)
    | Number(n: real)
    | String(s: string)
    | Array(items: seq<Value>)
    | Object(members: map<string, Value>)
}
