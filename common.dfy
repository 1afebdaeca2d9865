/** Values shared by every part of the collector: optional values, results that carry an
    error text, and the decoded JSON values that the status parsers put into a raw metrics bag. */
module Common {

  datatype Option<T> = None | Some(value: T)

  /** A value or the text of the error that Go would return beside a nil value. */
  datatype Result<T> = Ok(value: T) | Err(error: string)

  /** A decoded JSON value, as `encoding/json` hands it over in an `interface{}`.
      Numbers are modelled as integers. */
  datatype Json =
    | JNull
    | JBool(b: bool)
    | JInt(n: int)
    | JString(s: string)
    | JArray(elems: seq<Json>)
    | JObject(fields: map<string, Json>)

  /** The raw metrics bag: source field name to value (a Go `map[string]interface{}`). */
  type Bag = map<string, Json>

  /** A Go map lookup on an `interface{}` map: a missing key reads as nil. */
  function Lookup(m: map<string, Json>, key: string): Json
  {
    if key in m then m[key] else JNull
  }
}
