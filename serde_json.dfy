/**
  The loosely-typed JSON value that a schema carries in its `example` field
  (a `serde_json::Value`).  A number is kept as the text its `to_string` prints;
  an object is the ordered sequence of its members as they were read.
 */
module SerdeJson {

  datatype Value =
    | Null
    | Bool(b: bool)
    | Number(text: string)
    | String(s: string)
    | Array(elements: seq<Value>)
    | Object(members: seq<(string, Value)>)
}
