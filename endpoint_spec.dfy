/**
 * What building an endpoint from a JSON fragment does, as functions on values. Both packages'
 * Endpoint classes are proved against these: the endpoint's own route (method and path) and
 * the base's shared request, before and after.
 */
module EndpointSpec {
  import opened Wrappers
  import opened JsonTree
  import opened Platform
  import opened Exceptions
  import opened MethodTypes
  import opened RestRequest
  import opened ComJsonUtils

  /** The fields an endpoint holds for itself: its method and its path (null until set). */
  datatype Route = Route(methodType: Method, path: Option<string>)

  /** A new endpoint: method GET, no path. */
  const Initial := Route(GET, None)

  /** The route after a step, and the exception that ended the step early, if one did. */
  datatype Step = Step(route: Route, error: Option<Exception>)

  /** The route, the base's request and the escaping exception after building from JSON. */
  datatype Configured = Configured(route: Route, request: Request, error: Option<Exception>)

  /** params(Map) on the shared request: one more batch. */
  function WithParams(request: Request, params: map<string, string>): Request {
    request.(params := request.params + [params])
  }

  /** body(String) on the shared request. */
  function WithBody(request: Request, body: string): Request {
    request.(body := Some(body))
  }

  /**
   * pullSettings: "path" first (withPath with its string form), then "method" (withType(String),
   * an exact enum lookup); each only when present. An exception stops the rest, but what was
   * already set stays set.
   */
  function PullSettings(route: Route, settings: map<string, Json>): (s: Step)
    ensures "path" !in settings ==> s.route.path == route.path
    ensures "method" !in settings ==> s.route.methodType == route.methodType
    ensures s.error.None? && "path" in settings ==> s.route.path == AsString(settings["path"])
    ensures s.error.None? && "method" in settings ==> Some(Name(s.route.methodType)) == AsString(settings["method"])
    ensures s.error.Some? ==> s.error.value.NotAString? || s.error.value.NoEnumConstant?
  {
    match DoIfJsonHasString(settings, "path")
    case Failure(e) => Step(route, Some(e))
    case Success(path) =>
      var withPath := if path.Some? then route.(path := path) else route;
      match DoIfJsonHasString(settings, "method")
      case Failure(e) => Step(withPath, Some(e))
      case Success(name) =>
        if name.None? then Step(withPath, None)
        else match ValueOf(name.value)
          case Failure(e) => Step(withPath, Some(e))
          case Success(m) => Step(withPath.(methodType := m), None)
  }

  /**
   * fromJson after the endpoint exists: "settings", then "params", then "body", each only when
   * present and each required to be an object. Params go to the shared request as
   * objToStringMap of the object; the body as the object's JSON text. The first exception
   * ends the sequence; the effects before it remain.
   */
  function ApplyJson(route: Route, obj: map<string, Json>, request: Request, codec: Codec): (c: Configured)
    ensures c.request.baseUri == request.baseUri && c.request.cookies == request.cookies
            && c.request.headers == request.headers
    ensures request.params <= c.request.params && |c.request.params| <= |request.params| + 1
    ensures "params" !in obj ==> c.request.params == request.params
    ensures "body" !in obj ==> c.request.body == request.body
    ensures "settings" !in obj ==> c.route == route
    ensures c.error.Some? ==> c.error.value.NotAJsonObject? || c.error.value.NotAString? || c.error.value.NoEnumConstant?
  {
    match DoIfJsonHasObject(obj, "settings")
    case Failure(e) => Configured(route, request, Some(e))
    case Success(settings) =>
      var s := if settings.Some? then PullSettings(route, settings.value) else Step(route, None);
      if s.error.Some? then Configured(s.route, request, s.error)
      else
        match DoIfJsonHasObject(obj, "params")
        case Failure(e) => Configured(s.route, request, Some(e))
        case Success(params) =>
          var withParams := if params.Some? then WithParams(request, ObjToStringMap(params.value)) else request;
          match DoIfJsonHasObject(obj, "body")
          case Failure(e) => Configured(s.route, withParams, Some(e))
          case Success(body) =>
            var withBody := if body.Some? then WithBody(withParams, codec.render(JObject(body.value))) else withParams;
            Configured(s.route, withBody, None)
  }

  /** makeWithJson's path: resolved against jsonBasePath when one is set, else used unchanged. */
  function ResolveJsonPath(jsonBasePath: Option<Path>, jsonPath: Path, fs: FileSystem): (p: Path)
    ensures jsonBasePath.None? ==> p == jsonPath
    ensures jsonBasePath.Some? ==> p == fs.resolve(jsonBasePath.value, jsonPath)
  {
    if jsonBasePath.Some? then fs.resolve(jsonBasePath.value, jsonPath) else jsonPath
  }

  // Properties of pullSettings

  /** Absent keys keep the prior path and method; with neither key nothing changes. */
  lemma SettingsKeepAbsent(route: Route, settings: map<string, Json>)
    ensures "path" !in settings ==> PullSettings(route, settings).route.path == route.path
    ensures "method" !in settings ==> PullSettings(route, settings).route.methodType == route.methodType
    ensures "path" !in settings && "method" !in settings ==> PullSettings(route, settings) == Step(route, None)
  {
  }

  /** A path with a string form is set, even when the method that follows then fails. */
  lemma SettingsSetPathFirst(route: Route, settings: map<string, Json>, path: string)
    requires "path" in settings && AsString(settings["path"]) == Some(path)
    ensures PullSettings(route, settings).route.path == Some(path)
  {
  }

  /**
   * The method name is matched exactly, case included: a name that is no constant's name fails
   * with the enum's exception and keeps the prior method; a constant's name sets it.
   */
  lemma SettingsMethodIsCaseSensitive(route: Route, settings: map<string, Json>, name: string)
    requires "method" in settings && AsString(settings["method"]) == Some(name)
    requires "path" !in settings || AsString(settings["path"]).Some?
    ensures (forall m :: Name(m) != name) ==>
              PullSettings(route, settings).error == Some(NoEnumConstant(name))
              && PullSettings(route, settings).route.methodType == route.methodType
    ensures forall m :: Name(m) == name ==>
              PullSettings(route, settings).error.None? && PullSettings(route, settings).route.methodType == m
  {
  }

  /** "get" is not a method name for settings, although it is for valueOfIgnoreCase. */
  lemma LowerCaseMethodRejected(route: Route)
    ensures PullSettings(route, map["method" := JString("get")]).error == Some(NoEnumConstant("get"))
  {
    assert forall m :: Name(m) != "get";
  }

  // Properties of fromJson

  /** A fragment with none of the three keys changes nothing; any key may be left out. */
  lemma AbsentKeysChangeNothing(route: Route, obj: map<string, Json>, request: Request, codec: Codec)
    requires "settings" !in obj && "params" !in obj && "body" !in obj
    ensures ApplyJson(route, obj, request, codec) == Configured(route, request, None)
  {
  }

  /**
   * A fragment with only "params" keeps the route (a new endpoint stays GET with no path) and
   * adds the primitive entries, as strings, to the shared request.
   */
  lemma OnlyParams(route: Route, obj: map<string, Json>, request: Request, codec: Codec)
    requires "settings" !in obj && "body" !in obj && "params" in obj && obj["params"].JObject?
    ensures ApplyJson(route, obj, request, codec)
         == Configured(route, WithParams(request, ObjToStringMap(obj["params"].members)), None)
  {
  }

  /**
   * Building never touches the base URI, cookies or headers; it keeps every earlier params
   * batch and adds at most one; and the body is either kept or replaced by the JSON text of
   * the "body" object.
   */
  lemma ApplyJsonFrame(route: Route, obj: map<string, Json>, request: Request, codec: Codec)
    ensures var r := ApplyJson(route, obj, request, codec).request;
            && r.baseUri == request.baseUri && r.cookies == request.cookies && r.headers == request.headers
            && (r.params == request.params || (exists batch :: r.params == request.params + [batch]))
            && (r.body == request.body || ("body" in obj && r.body == Some(codec.render(obj["body"]))))
  {
    var c := ApplyJson(route, obj, request, codec);
    if "params" in obj && obj["params"].JObject? && c.request.params != request.params {
      assert c.request.params == request.params + [ObjToStringMap(obj["params"].members)];
    }
  }

  /** When building succeeds, each present key has had its effect, in full. */
  lemma SuccessAppliesEachKey(route: Route, obj: map<string, Json>, request: Request, codec: Codec)
    requires ApplyJson(route, obj, request, codec).error.None?
    ensures var c := ApplyJson(route, obj, request, codec);
            && ("settings" in obj ==> obj["settings"].JObject? && c.route == PullSettings(route, obj["settings"].members).route)
            && ("settings" !in obj ==> c.route == route)
            && ("params" in obj ==> obj["params"].JObject? && c.request.params == request.params + [ObjToStringMap(obj["params"].members)])
            && ("params" !in obj ==> c.request.params == request.params)
            && ("body" in obj ==> obj["body"].JObject? && c.request.body == Some(codec.render(obj["body"])))
            && ("body" !in obj ==> c.request.body == request.body)
  {
  }

  /** Settings come first: if they fail, neither params nor body reach the shared request. */
  lemma SettingsFailureStopsBeforeRequest(route: Route, obj: map<string, Json>, request: Request, codec: Codec)
    requires "settings" in obj
    requires !obj["settings"].JObject? || PullSettings(route, obj["settings"].members).error.Some?
    ensures ApplyJson(route, obj, request, codec).request == request
    ensures ApplyJson(route, obj, request, codec).error.Some?
  {
  }

  /** Params come before the body: a body that is not an object fails after the params were added. */
  lemma BadBodyKeepsParams(route: Route, obj: map<string, Json>, request: Request, codec: Codec)
    requires "settings" !in obj && "params" in obj && obj["params"].JObject?
    requires "body" in obj && !obj["body"].JObject?
    ensures ApplyJson(route, obj, request, codec)
         == Configured(route, WithParams(request, ObjToStringMap(obj["params"].members)), Some(NotAJsonObject(obj["body"])))
  {
  }
}
