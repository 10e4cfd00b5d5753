/**
 JSON values and an abstract codec. The text level (lexing, printing, number literals) is a
 parameter: results that need more than an arbitrary pair of functions ask for `Lawful`.
 */
module Json {
  import opened Common

  /** A decoded JSON value. `Num` holds an opaque number literal. */
  datatype Value =
    | Null
    | Bool(b: bool)
    | Num(literal: int)
    | Str(s: string)
    | Arr(items: seq<Value>)
    | Obj(fields: map<string, Value>)

  datatype Codec = Codec(decode: string -> Option<Value>, encode: Value -> string)

  /** What encoding/json promises: printed values decode to themselves and carry no outer white space. */
  ghost predicate Lawful(c: Codec) {
    forall v :: RoundTrips(c, v)
  }

  ghost predicate RoundTrips(c: Codec, v: Value) {
    var text := c.encode(v);
    && c.decode(text) == Some(v)
    && text != "" && !IsSpace(text[0]) && !IsSpace(text[|text| - 1])
  }
}
