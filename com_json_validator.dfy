/**
 * com.gbursali.utils.json_validator.JSONValidator, as far as Endpoint uses it: built from schema
 * text, and validating an instance through the schema engine, which stays abstract (`engine`
 * takes the schema's text and the instance's text and reports the violations).
 */
module ComJsonValidator {
  import opened Wrappers
  import opened JsonTree
  import opened Exceptions
  import ComJsonUtils

  datatype JsonValidator = JsonValidator(schema: map<string, Json>)

  const FailureHeader := "Schema validation failed"

  /** fromString: jsonify, then getAsJsonObject. */
  function FromString(schema: string, codec: Codec): (r: Result<JsonValidator, Exception>)
    ensures codec.parse(schema).None? ==> r == Failure(InvalidJson(ComGbursali, Some(ComJsonUtils.InvalidContent)))
    ensures codec.parse(schema).Some? ==>
              (r.Success? <==> codec.parse(schema).value.JObject?)
              && (r.Success? ==> JObject(r.value.schema) == codec.parse(schema).value)
              && (r.Failure? ==> r.error == NotAJsonObject(codec.parse(schema).value))
  {
    match ComJsonUtils.Jsonify(schema, codec)
    case Failure(e) => Failure(e)
    case Success(element) =>
      match AsObject(element)
      case None => Failure(NotAJsonObject(element))
      case Some(members) => Success(JsonValidator(members))
  }

  /** validate: passes when the engine reports nothing; otherwise throws with every error, in order. */
  function Validate(v: JsonValidator, instance: string, engine: (string, string) -> seq<ValidationError>, codec: Codec): (r: Option<Exception>)
    ensures r.None? <==> engine(codec.toJson(JObject(v.schema)), instance) == []
    ensures r.Some? ==> r.value == SchemaValidation(FailureHeader, engine(codec.toJson(JObject(v.schema)), instance))
  {
    var errors := engine(codec.toJson(JObject(v.schema)), instance);
    if errors == [] then None else Some(SchemaValidation(FailureHeader, errors))
  }
}
