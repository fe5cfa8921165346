/** A PHP value as `json_decode($text, true)` produces it: objects and lists
    both become PHP arrays, numbers keep their literal text (their numeric
    reading is left to a parameter, see ToShippingInfo.FloatVal). */
module Json {
  import opened Wrappers

  datatype Value =
    | Null
    | Bool(b: bool)
    | Number(literal: string)
    | String(s: string)
    | List(items: seq<Value>)
    | Object(fields: map<string, Value>)

  /** PHP's `is_array`: a decoded JSON object or list. */
  predicate IsArray(v: Value)
  {
    v.List? || v.Object?
  }

  /** The JSON parser, which this model does not define: `None` when the text
      is not valid JSON. */
  type Decoder = string -> Option<Value>

  /** `json_decode($text, true)`, which answers null for text it cannot parse. */
  function DecodeOrNull(decode: Decoder, text: string): Value
  {
    match decode(text)
    case None => Null
    case Some(decoded) => decoded
  }
}
