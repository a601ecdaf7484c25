/**
 * com.gbursali.utils.JSONUtils: the "do if key present" projections, objToStringMap, and how
 * parse and read failures become InvalidJSONException. The callbacks the Java helpers take are
 * replaced by what they would be called with: `None` means the action is never invoked,
 * `Some(v)` that it is invoked exactly once, with `v`.
 */
module ComJsonUtils {
  import opened Wrappers
  import opened JsonTree
  import opened Platform
  import opened Exceptions
  import ComInvalidJsonException

  const InvalidContent := "Provided content is not a valid JSON"
  const DefaultReadError := "File not found or contains invalid JSON content"

  /** doIfJsonHas: the action runs once, on obj.get(key), exactly when the key is present. */
  function DoIfJsonHas(obj: map<string, Json>, key: string): (r: Option<Json>)
    ensures r.None? <==> key !in obj
    ensures r.Some? ==> r.value == obj[key]
  {
    if key !in obj then None else Some(obj[key])
  }

  /**
   * doIfJsonHasObject: an absent key is skipped; a present key whose value is an object hands
   * over its members; a present key with any other value throws (it is not skipped).
   */
  function DoIfJsonHasObject(obj: map<string, Json>, key: string): (r: Result<Option<map<string, Json>>, Exception>)
    ensures key !in obj ==> r == Success(None)
    ensures key in obj ==> (r.Success? <==> obj[key].JObject?)
    ensures key in obj && r.Success? ==> r.value.Some? && JObject(r.value.value) == obj[key]
    ensures r.Failure? ==> key in obj && r.error == NotAJsonObject(obj[key])
  {
    match DoIfJsonHas(obj, key)
    case None => Success(None)
    case Some(element) =>
      match AsObject(element)
      case None => Failure(NotAJsonObject(element))
      case Some(members) => Success(Some(members))
  }

  /**
   * doIfJsonHasString: an absent key is skipped; a present key hands over the value's string
   * form (a primitive always has one); a value without one throws.
   */
  function DoIfJsonHasString(obj: map<string, Json>, key: string): (r: Result<Option<string>, Exception>)
    ensures key !in obj ==> r == Success(None)
    ensures key in obj ==> (r.Success? <==> AsString(obj[key]).Some?)
    ensures key in obj && r.Success? ==> r.value == AsString(obj[key])
    ensures key in obj && IsPrimitive(obj[key]) ==> r.Success? && r.value.Some?
    ensures key in obj && obj[key].JString? ==> r == Success(Some(obj[key].text))
    ensures r.Failure? ==> key in obj && r.error == NotAString(obj[key])
  {
    match DoIfJsonHas(obj, key)
    case None => Success(None)
    case Some(element) =>
      match AsString(element)
      case None => Failure(NotAString(element))
      case Some(text) => Success(Some(text))
  }

  /**
   * objToStringMap: keeps exactly the entries whose value is a JSON primitive (null, objects
   * and arrays are dropped), each mapped to the primitive's string form.
   */
  function ObjToStringMap(obj: map<string, Json>): (r: map<string, string>)
    ensures forall k :: k in r <==> k in obj && IsPrimitive(obj[k])
    ensures forall k :: k in r ==> AsString(obj[k]) == Some(r[k])
    ensures forall k :: k in obj && (obj[k].JNull? || obj[k].JObject? || obj[k].JArray?) ==> k !in r
  {
    map k | k in obj && IsPrimitive(obj[k]) :: AsString(obj[k]).value
  }

  /** jsonify: parses the text; a syntax error becomes InvalidJSONException with a fixed message. */
  function Jsonify(content: string, codec: Codec): (r: Result<Json, Exception>)
    ensures r.Failure? <==> codec.parse(content).None?
    ensures r.Success? ==> r.value == codec.parse(content).value
    ensures r.Failure? ==> r.error == InvalidJson(ComGbursali, Some(InvalidContent))
  {
    match codec.parse(content)
    case None => Failure(InvalidJson(ComGbursali, Some(InvalidContent)))
    case Some(element) => Success(element)
  }

  /**
   * readJsonFile(filePath, errorMessage): only a read failure (IOException) is mapped to the
   * given message plus the path; text that does not parse surfaces jsonify's own message, and
   * a top-level value that is not an object fails in getAsJsonObject.
   */
  function ReadJsonFileWith(path: Path, errorMessage: string, fs: FileSystem, codec: Codec): (r: Result<map<string, Json>, Exception>)
    ensures path !in fs.contents ==> r == Failure(ComInvalidJsonException.WithFile(errorMessage, path, fs))
    ensures path in fs.contents && codec.parse(fs.contents[path]).None? ==> r == Failure(InvalidJson(ComGbursali, Some(InvalidContent)))
    ensures path in fs.contents && codec.parse(fs.contents[path]).Some? ==>
              var element := codec.parse(fs.contents[path]).value;
              && (r.Success? <==> element.JObject?)
              && (r.Success? ==> JObject(r.value) == element)
              && (r.Failure? ==> r.error == NotAJsonObject(element))
  {
    match ReadString(fs, path)
    case None => Failure(ComInvalidJsonException.WithFile(errorMessage, path, fs))
    case Some(text) =>
      match Jsonify(text, codec)
      case Failure(e) => Failure(e)
      case Success(element) =>
        match AsObject(element)
        case None => Failure(NotAJsonObject(element))
        case Some(members) => Success(members)
  }

  /** readJsonFile(filePath): the same, with the message "File not found or contains invalid JSON content". */
  function ReadJsonFile(path: Path, fs: FileSystem, codec: Codec): (r: Result<map<string, Json>, Exception>)
    ensures path !in fs.contents ==> r == Failure(ComInvalidJsonException.WithFile(DefaultReadError, path, fs))
    ensures path in fs.contents && r.Failure? ==> r.error == InvalidJson(ComGbursali, Some(InvalidContent)) || r.error.NotAJsonObject?
  {
    ReadJsonFileWith(path, DefaultReadError, fs, codec)
  }

  /** The message given to readJsonFile is used for read failures only. */
  lemma MessageOnlyForReadFailures(path: Path, message1: string, message2: string, fs: FileSystem, codec: Codec)
    requires path in fs.contents
    ensures ReadJsonFileWith(path, message1, fs, codec) == ReadJsonFileWith(path, message2, fs, codec)
  {
  }

  /**
   * A read failure and a parse failure of readJsonFile can never be confused: the first
   * message always carries a line break (the requested-file line), jsonify's never does.
   */
  lemma ReadAndParseFailuresDiffer(errorMessage: string, path: Path, fs: FileSystem)
    ensures ComInvalidJsonException.WithFile(errorMessage, path, fs) != InvalidJson(ComGbursali, Some(InvalidContent))
  {
    var built := ComInvalidJsonException.BuildMessage(errorMessage, path, fs.absolute(path));
    assert built[|errorMessage|] == '\n' by {
      assert built[|errorMessage|..|errorMessage| + |ComInvalidJsonException.FileLabel|] == ComInvalidJsonException.FileLabel;
    }
    assert '\n' !in InvalidContent;
  }
}
