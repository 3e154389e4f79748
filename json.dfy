/**
  * The values exchanged between the extractor, the backend and the browser.
  * One datatype serves both as a Python object built from JSON-like data
  * (None, bool, int, str, list, dict) and as the JSON document that
  * `jsonify` writes and `response.json()` reads back.
  */
module Json {

  datatype Value =
    | Null
    | Bool(b: bool)
    | Int(i: int)
    | Str(s: string)
    | List(items: seq<Value>)
    | Dict(fields: map<string, Value>)

  /** The body `{"error": message}` the backend sends with a failure status. */
  function ErrorBody(message: string): (v: Value)
    ensures v.Dict? && v.fields.Keys == {"error"} && v.fields["error"] == Str(message)
  {
    Dict(map["error" := Str(message)])
  }
}
