/** What `localStorage` hands back for a key, after `JSON.parse`. Reading
    and parsing are outside the model; their outcome is an input. */
module Storage {

  /** A parsed JSON value. */
  datatype Json =
    | JNull
    | JBool(b: bool)
    | JNumber(n: real)
    | JString(s: string)
    | JArray(items: seq<Json>)
    | JObject(fields: seq<(string, Json)>)

  /** The outcome of reading one key: absent (or the empty string, which
      both stores treat as absent), text that does not parse (or a storage
      error), or a parsed value. */
  datatype Stored = Missing | Unparsable | Parsed(value: Json)

  /** `JSON.stringify` of a string array, as the parser gives it back. */
  function EncodeStrings(s: seq<string>): (j: Json)
    ensures j.JArray? && |j.items| == |s|
    ensures forall i :: 0 <= i < |s| ==> j.items[i] == JString(s[i])
  {
    JArray(seq(|s|, i requires 0 <= i < |s| => JString(s[i])))
  }

}
