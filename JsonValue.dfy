/** The value json.loads hands to pydantic; the text tokeniser itself is not modelled.
    Objects are dicts keyed by string, numbers are exact reals. */
module JsonValue {

  datatype Json =
    | Null
    | Bool(b: bool)
    | Number(n: real)
    | Str(s: string)
    | Array(items: seq<Json>)
    | Object(fields: map<string, Json>)
}
