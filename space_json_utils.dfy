/**
 * space.gbsdev.utils.JSONUtils: the same projections and objToStringMap as com.gbursali's copy,
 * and a jsonify that maps a syntax error to InvalidJSONException(ERROR_INVALID_JSON). Each helper
 * is the com.gbursali helper; its contract restates the behaviour in full.
 */
module SpaceJsonUtils {
  import opened Wrappers
  import opened JsonTree
  import opened Exceptions
  import ComJsonUtils

  /** ERROR_INVALID_JSON. */
  const ErrorInvalidJson := "Provided content is not a valid JSON"

  /** doIfJsonHas: the action runs once, on the key's value, exactly when the key is present. */
  function DoIfJsonHas(obj: map<string, Json>, key: string): (r: Option<Json>)
    ensures r.None? <==> key !in obj
    ensures r.Some? ==> r.value == obj[key]
  {
    ComJsonUtils.DoIfJsonHas(obj, key)
  }

  /** doIfJsonHasObject: absent keys are skipped; a present value that is not an object throws. */
  function DoIfJsonHasObject(obj: map<string, Json>, key: string): (r: Result<Option<map<string, Json>>, Exception>)
    ensures key !in obj ==> r == Success(None)
    ensures key in obj ==> (r.Success? <==> obj[key].JObject?)
    ensures key in obj && r.Success? ==> r.value.Some? && JObject(r.value.value) == obj[key]
    ensures r.Failure? ==> key in obj && r.error == NotAJsonObject(obj[key])
  {
    ComJsonUtils.DoIfJsonHasObject(obj, key)
  }

  /** doIfJsonHasString: absent keys are skipped; a present value hands over its string form or throws. */
  function DoIfJsonHasString(obj: map<string, Json>, key: string): (r: Result<Option<string>, Exception>)
    ensures key !in obj ==> r == Success(None)
    ensures key in obj ==> (r.Success? <==> AsString(obj[key]).Some?)
    ensures key in obj && r.Success? ==> r.value == AsString(obj[key])
    ensures key in obj && IsPrimitive(obj[key]) ==> r.Success? && r.value.Some?
    ensures r.Failure? ==> key in obj && r.error == NotAString(obj[key])
  {
    ComJsonUtils.DoIfJsonHasString(obj, key)
  }

  /** objToStringMap: exactly the primitive-valued entries, each as its string form. */
  function ObjToStringMap(obj: map<string, Json>): (r: map<string, string>)
    ensures forall k :: k in r <==> k in obj && IsPrimitive(obj[k])
    ensures forall k :: k in r ==> AsString(obj[k]) == Some(r[k])
  {
    ComJsonUtils.ObjToStringMap(obj)
  }

  /** jsonify: a syntax error becomes InvalidJSONException(ERROR_INVALID_JSON). */
  function Jsonify(content: string, codec: Codec): (r: Result<Json, Exception>)
    ensures r.Failure? <==> codec.parse(content).None?
    ensures r.Success? ==> r.value == codec.parse(content).value
    ensures r.Failure? ==> r.error == InvalidJson(SpaceGbsdev, Some(ErrorInvalidJson))
  {
    match codec.parse(content)
    case None => Failure(InvalidJson(SpaceGbsdev, Some(ErrorInvalidJson)))
    case Some(element) => Success(element)
  }
}
