/** JSON-shaped Python values: what `dict`/`list` literals, tool arguments and
    decoded tool calls hold. Floating-point numbers are not modelled. */
module Json {

  datatype Value =
    | Null
    | Bool(b: bool)
    | Int(i: int)
    | Str(s: string)
    | Arr(items: seq<Value>)
    | Obj(fields: map<string, Value>)
}
