/** A decoded JSON document, as `json.loads` returns it. Decoding itself is
    library code: it is a parameter of type `Loads`. */
module Json {
  import opened Outcomes

  datatype Json =
    | JNull
    | JBool(b: bool)
    | JNumber(literal: string)
    | JString(s: string)
    | JArray(items: seq<Json>)
    | JObject(fields: map<string, Json>)

  /** `json.loads`: `None` stands for a `JSONDecodeError`. */
  type Loads = string -> Option<Json>

  /** Python's `len` is defined on strings, lists and dicts only. */
  predicate HasLen(v: Json) {
    v.JString? || v.JArray? || v.JObject?
  }
}
