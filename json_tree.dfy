/**
 * The Gson element tree (JsonElement and its subclasses) and the accessors of it that the
 * endpoint layer uses. Parsing and printing are Gson's and stay abstract: they are the
 * function-typed fields of a `Codec` value that callers pass in.
 */
module JsonTree {
  import opened Wrappers

  /** A JSON value. A number keeps the text it was parsed from, as Gson's lazily parsed numbers do. */
  datatype Json =
    | JObject(members: map<string, Json>)
    | JArray(elements: seq<Json>)
    | JString(text: string)
    | JNumber(lexeme: string)
    | JBool(truth: bool)
    | JNull

  /** JsonElement.isJsonPrimitive: strings, numbers and booleans; not null, objects or arrays. */
  predicate IsPrimitive(j: Json) {
    j.JString? || j.JNumber? || j.JBool?
  }

  /** JsonElement.getAsJsonObject; `None` stands for the IllegalStateException it throws. */
  function AsObject(j: Json): (r: Option<map<string, Json>>)
    ensures r.Some? <==> j.JObject?
    ensures r.Some? ==> JObject(r.value) == j
  {
    if j.JObject? then Some(j.members) else None
  }

  /**
   * JsonElement.getAsString. A primitive gives its string form; an array with exactly one
   * element gives that element's string form; anything else (null, an object, an array of
   * another size) throws, here `None`.
   */
  function AsString(j: Json): (r: Option<string>)
    ensures IsPrimitive(j) ==> r.Some?
    ensures j.JNull? || j.JObject? ==> r.None?
    ensures j.JArray? && |j.elements| != 1 ==> r.None?
    ensures j.JString? ==> r == Some(j.text)
  {
    match j
    case JString(s) => Some(s)
    case JNumber(lexeme) => Some(lexeme)
    case JBool(b) => Some(if b then "true" else "false")
    case JArray(elements) => if |elements| == 1 then AsString(elements[0]) else None
    case _ => None
  }

  /**
   * Gson's text conversions: `parse` is JsonParser.parseString (`None` for a syntax error),
   * `render` is JsonElement.toString, `toJson` is the configurable Gson instance's toJson
   * (JSONUtils.setGsonInstance chooses it).
   */
  datatype Codec = Codec(parse: string -> Option<Json>, render: Json -> string, toJson: Json -> string)
}
