/** An already-decoded JSON document, as `response.json()` hands it to the client. */
module Json {

  /** JSON values. Objects are Python dicts: each key at most once. Fractional numbers
      are not modelled; no field of the schemas holds one. */
  datatype Json =
    | JNull
    | JBool(b: bool)
    | JInt(i: int)
    | JString(s: string)
    | JArray(items: seq<Json>)
    | JObject(fields: map<string, Json>)

  /** Every key of `dump` is in `m` with the same value; `m` may hold more keys.
      This is how a validated record relates to the JSON object it came from,
      since unknown keys are ignored. */
  predicate Agrees(dump: map<string, Json>, m: map<string, Json>) {
    forall k :: k in dump ==> k in m && m[k] == dump[k]
  }
}
