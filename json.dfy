/** The values `json.loads` produces, and `json.loads` itself as an abstract
    decoder: the scripts only ever see either a value or a decode failure
    carrying its message and the character offset where decoding stopped. */
module Json {

  /** A decoded JSON document. Python keeps ints and floats apart, so do we;
      a float is kept as an exact real. */
  datatype Json =
    | Null
    | Bool(b: bool)
    | Int(i: int)
    | Float(r: real)
    | Str(s: string)
    | Array(items: seq<Json>)
    | Object(fields: map<string, Json>)

  /** What one call of `json.loads(doc)` does: return a value, or raise
      `JSONDecodeError` whose `str()` is `msg` and whose `.pos` is `pos`, an
      offset into `doc`. */
  datatype Decoded = Value(value: Json) | DecodeError(msg: string, pos: nat)

  /** A `json.loads` variant (strict or not) seen from outside. */
  type Decoder = string -> Decoded
}
