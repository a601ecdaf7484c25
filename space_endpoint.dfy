/**
 * space.gbsdev.endpoint: the second EndpointBase / Endpoint pair. It has no headers and no
 * validator; fromJson takes the file's text and parses it with the base's own jsonify, whose
 * syntax errors are not mapped to InvalidJSONException.
 */
module SpaceEndpoint {
  import opened Wrappers
  import opened JsonTree
  import opened Platform
  import opened Exceptions
  import opened MethodTypes
  import opened RestRequest
  import opened EndpointSpec
  import SpaceJsonUtils
  import SpaceInvalidJsonException
  import ComJsonUtils
  import ComEndpoint

  const NotFoundMessage := "JSON file not found"
  const MalformedMessage := "Malformed JSON file supplied"

  /**
   * fromJson(base, json): the base's jsonify, getAsJsonObject, then the same sequence as
   * com.gbursali's fromJson. No failure on this path is an InvalidJSONException: parse errors
   * escape as the parser's own exception.
   */
  function FromText(text: string, request: Request, codec: Codec): (c: Configured)
    ensures c.error.Some? ==> !c.error.value.InvalidJson?
    ensures codec.parse(text).None? || !codec.parse(text).value.JObject? ==>
              c.route == Initial && c.request == request && c.error.Some?
    ensures c.error.None? ==> codec.parse(text).Some? && codec.parse(text).value.JObject?
    ensures c.request.baseUri == request.baseUri && c.request.cookies == request.cookies
            && c.request.headers == request.headers
  {
    match codec.parse(text)
    case None => Configured(Initial, request, Some(JsonSyntax))
    case Some(element) =>
      match AsObject(element)
      case None => Configured(Initial, request, Some(NotAJsonObject(element)))
      case Some(obj) => ApplyJson(Initial, obj, request, codec)
  }

  /**
   * makeWithJson(Path): resolve against the base path when one is set; a missing file and an
   * unreadable one each fail with the exception that make builds; otherwise the text goes to
   * fromJson. An InvalidJSONException (this package's) comes only from those two cases, and
   * then nothing was configured.
   */
  function Load(jsonBasePath: Option<Path>, jsonPath: Path, fs: FileSystem, codec: Codec, request: Request): (c: Configured)
    ensures var resolved := ResolveJsonPath(jsonBasePath, jsonPath, fs);
            c.error.Some? && c.error.value.InvalidJson? <==> resolved !in fs.existing || resolved !in fs.contents
    ensures c.error.Some? && c.error.value.InvalidJson? ==>
              c.error.value.pkg == SpaceGbsdev && c.route == Initial && c.request == request
    ensures c.request.baseUri == request.baseUri && c.request.cookies == request.cookies
            && c.request.headers == request.headers
  {
    var resolved := ResolveJsonPath(jsonBasePath, jsonPath, fs);
    if resolved !in fs.existing then
      Configured(Initial, request, Some(SpaceInvalidJsonException.Make(NotFoundMessage, resolved, fs)))
    else
      match ReadString(fs, resolved)
      case None => Configured(Initial, request, Some(SpaceInvalidJsonException.Make(MalformedMessage, resolved, fs)))
      case Some(text) => FromText(text, request, codec)
  }

  /**
   * Text that does not parse escapes as Gson's syntax exception, not as InvalidJSONException,
   * and the shared request is untouched; top-level JSON that is not an object fails in
   * getAsJsonObject.
   */
  lemma MalformedTextIsNotWrapped(text: string, request: Request, codec: Codec)
    ensures codec.parse(text).None? ==> FromText(text, request, codec) == Configured(Initial, request, Some(JsonSyntax))
    ensures codec.parse(text).Some? && !codec.parse(text).value.JObject? ==>
              FromText(text, request, codec) == Configured(Initial, request, Some(NotAJsonObject(codec.parse(text).value)))
  {
  }

  /**
   * How the two packages' makeWithJson compare on the same file system. A file whose text
   * parses is loaded identically: same route, same shared request, same exception. A missing
   * or unreadable file fails in both with the same message and nothing configured, but the
   * exceptions are different classes: each package's own InvalidJSONException. Text that does
   * not parse fails in com.gbursali with its InvalidJSONException("Provided content is not a
   * valid JSON") and here with the parser's exception.
   */
  lemma PackagesLoadAlike(jsonBasePath: Option<Path>, jsonPath: Path, fs: FileSystem, codec: Codec, request: Request)
    ensures var resolved := ResolveJsonPath(jsonBasePath, jsonPath, fs);
            var com := ComEndpoint.Load(jsonBasePath, jsonPath, fs, codec, request);
            var space := Load(jsonBasePath, jsonPath, fs, codec, request);
            && (resolved in fs.existing && resolved in fs.contents && codec.parse(fs.contents[resolved]).Some? ==>
                  com == space)
            && (resolved !in fs.existing || resolved !in fs.contents ==>
                  && com.route == space.route == Initial && com.request == space.request == request
                  && com.error.Some? && com.error.value.InvalidJson? && com.error.value.pkg == ComGbursali
                  && space.error.Some? && space.error.value.InvalidJson? && space.error.value.pkg == SpaceGbsdev
                  && com.error.value.message == space.error.value.message
                  && com.error != space.error)
            && (resolved in fs.existing && resolved in fs.contents && codec.parse(fs.contents[resolved]).None? ==>
                  com == Configured(Initial, request, Some(InvalidJson(ComGbursali, Some(ComJsonUtils.InvalidContent))))
                  && space == Configured(Initial, request, Some(JsonSyntax)))
  {
  }

  class EndpointBase {
    var request: Request
    var jsonBasePath: Option<Path>

    /** builder(baseURL): given().baseUri(baseURL), and no JSON file root. */
    constructor Builder(baseUrl: string)
      ensures request == Given(baseUrl) && jsonBasePath == None
    {
      request := Given(baseUrl);
      jsonBasePath := None;
    }

    /** makeWithPath: a new endpoint on this base, with the path set and the method GET. */
    method MakeWithPath(path: string) returns (e: Endpoint)
      ensures fresh(e) && e.base == this
      ensures e.CurrentRoute() == Route(GET, Some(path))
    {
      e := new Endpoint.FromBase(this);
      e := e.WithPath(path);
    }

    /** withCookie: adds the cookie to the shared request and returns this base. */
    method WithCookie(cookie: Cookie) returns (self: EndpointBase)
      modifies this
      ensures self == this
      ensures request == old(request).(cookies := old(request).cookies + [cookie])
      ensures jsonBasePath == old(jsonBasePath)
    {
      request := request.(cookies := request.cookies + [cookie]);
      self := this;
    }

    /** withJsonBasePath: replaces the JSON file root (`None` is Java's null) and returns this base. */
    method WithJsonBasePath(jsonBasePath: Option<Path>) returns (self: EndpointBase)
      modifies this
      ensures self == this
      ensures this.jsonBasePath == jsonBasePath && request == old(request)
    {
      this.jsonBasePath := jsonBasePath;
      self := this;
    }

    /** jsonify: JsonParser.parseString; a syntax error escapes unchanged. */
    static function Jsonify(content: string, codec: Codec): (r: Result<Json, Exception>)
      ensures r.Success? <==> codec.parse(content).Some?
      ensures r.Success? ==> r.value == codec.parse(content).value
      ensures r.Failure? ==> r.error == JsonSyntax
    {
      match codec.parse(content)
      case None => Failure(JsonSyntax)
      case Some(element) => Success(element)
    }

    /** makeWithJson(Path), as `Load` describes it. */
    method MakeWithJson(jsonPath: Path, fs: FileSystem, codec: Codec) returns (r: Result<Endpoint, Exception>)
      modifies this
      ensures jsonBasePath == old(jsonBasePath)
      ensures var c := Load(old(jsonBasePath), jsonPath, fs, codec, old(request));
              && request == c.request
              && (c.error.Some? ==> r == Failure(c.error.value))
              && (c.error.None? ==> r.Success? && fresh(r.value) && r.value.base == this
                                    && r.value.CurrentRoute() == c.route)
    {
      var path := jsonPath;
      if jsonBasePath.Some? {
        path := fs.resolve(jsonBasePath.value, path);
      }
      if path !in fs.existing {
        return Failure(SpaceInvalidJsonException.Make(NotFoundMessage, path, fs));
      }
      var contents := ReadString(fs, path);
      if contents.None? {
        return Failure(SpaceInvalidJsonException.Make(MalformedMessage, path, fs));
      }
      r := Endpoint.FromJson(this, contents.value, codec);
    }

    /** makeWithJson(String): exactly makeWithJson(Path.of(jsonPath)). */
    method MakeWithJsonText(jsonPath: string, fs: FileSystem, codec: Codec) returns (r: Result<Endpoint, Exception>)
      modifies this
      ensures jsonBasePath == old(jsonBasePath)
      ensures var c := Load(old(jsonBasePath), fs.pathOf(jsonPath), fs, codec, old(request));
              && request == c.request
              && (c.error.Some? ==> r == Failure(c.error.value))
              && (c.error.None? ==> r.Success? && fresh(r.value) && r.value.base == this
                                    && r.value.CurrentRoute() == c.route)
    {
      r := MakeWithJson(fs.pathOf(jsonPath), fs, codec);
    }
  }

  class Endpoint {
    var methodType: Method
    const base: EndpointBase
    var url: Option<string>

    /** The endpoint's own route: its method and its path. */
    function CurrentRoute(): Route
      reads this
    {
      Route(methodType, url)
    }

    /** fromBase / the protected constructor: method GET, no path. */
    constructor FromBase(base: EndpointBase)
      ensures this.base == base && CurrentRoute() == Initial
    {
      this.base := base;
      methodType := GET;
      url := None;
    }

    /** fromJson(base, json): parse with the base's jsonify, then as `FromText` describes. */
    static method FromJson(base: EndpointBase, json: string, codec: Codec) returns (r: Result<Endpoint, Exception>)
      modifies base
      ensures base.jsonBasePath == old(base.jsonBasePath)
      ensures var c := FromText(json, old(base.request), codec);
              && base.request == c.request
              && (c.error.Some? ==> r == Failure(c.error.value))
              && (c.error.None? ==> r.Success? && fresh(r.value) && r.value.base == base
                                    && r.value.CurrentRoute() == c.route)
    {
      var instance := new Endpoint.FromBase(base);
      var element := EndpointBase.Jsonify(json, codec);
      if element.Failure? {
        return Failure(element.error);
      }
      var obj := AsObject(element.value);
      if obj.None? {
        return Failure(NotAJsonObject(element.value));
      }
      var settings := SpaceJsonUtils.DoIfJsonHasObject(obj.value, "settings");
      if settings.Failure? {
        return Failure(settings.error);
      }
      if settings.value.Some? {
        var error := instance.PullSettings(settings.value.value);
        if error.Some? {
          return Failure(error.value);
        }
      }
      var params := SpaceJsonUtils.DoIfJsonHasObject(obj.value, "params");
      if params.Failure? {
        return Failure(params.error);
      }
      if params.value.Some? {
        instance.AddJsonParams(params.value.value);
      }
      var body := SpaceJsonUtils.DoIfJsonHasObject(obj.value, "body");
      if body.Failure? {
        return Failure(body.error);
      }
      if body.value.Some? {
        instance.SetBody(codec.render(JObject(body.value.value)));
      }
      return Success(instance);
    }

    /** setBody: the shared request's body becomes `body`. */
    method SetBody(body: string)
      modifies base
      ensures base.request == WithBody(old(base.request), body) && base.jsonBasePath == old(base.jsonBasePath)
    {
      base.request := WithBody(base.request, body);
    }

    /** addParam(Map): one more batch of params on the shared request. */
    method AddParam(params: map<string, string>)
      modifies base
      ensures base.request == WithParams(old(base.request), params) && base.jsonBasePath == old(base.jsonBasePath)
    {
      base.request := WithParams(base.request, params);
    }

    /** addParam(JsonObject): the object's primitive entries, as strings, as one batch. */
    method AddJsonParams(params: map<string, Json>)
      modifies base
      ensures base.request == WithParams(old(base.request), SpaceJsonUtils.ObjToStringMap(params))
      ensures base.jsonBasePath == old(base.jsonBasePath)
    {
      AddParam(SpaceJsonUtils.ObjToStringMap(params));
    }

    /** pullSettings: path, then method, as EndpointSpec.PullSettings describes. */
    method PullSettings(settings: map<string, Json>) returns (error: Option<Exception>)
      modifies this
      ensures Step(CurrentRoute(), error) == EndpointSpec.PullSettings(old(CurrentRoute()), settings)
    {
      var path := SpaceJsonUtils.DoIfJsonHasString(settings, "path");
      if path.Failure? {
        return Some(path.error);
      }
      if path.value.Some? {
        var _ := WithPath(path.value.value);
      }
      var name := SpaceJsonUtils.DoIfJsonHasString(settings, "method");
      if name.Failure? {
        return Some(name.error);
      }
      if name.value.Some? {
        var typed := WithTypeNamed(name.value.value);
        if typed.Failure? {
          return Some(typed.error);
        }
      }
      return None;
    }

    /** withPath: sets the path only; returns this endpoint. */
    method WithPath(path: string) returns (self: Endpoint)
      modifies this
      ensures self == this
      ensures url == Some(path) && methodType == old(methodType)
    {
      url := Some(path);
      self := this;
    }

    /** withType(MethodType): sets the method only; returns this endpoint. */
    method WithType(m: Method) returns (self: Endpoint)
      modifies this
      ensures self == this
      ensures methodType == m && url == old(url)
    {
      methodType := m;
      self := this;
    }

    /** withType(String): MethodType.valueOf, exact names only; a failure leaves the method as it was. */
    method WithTypeNamed(name: string) returns (r: Result<Endpoint, Exception>)
      modifies this
      ensures url == old(url)
      ensures (exists m :: Name(m) == name) ==> r == Success(this) && Name(methodType) == name
      ensures (forall m :: Name(m) != name) ==> r == Failure(NoEnumConstant(name)) && methodType == old(methodType)
    {
      var m := ValueOf(name);
      if m.Failure? {
        return Failure(m.error);
      }
      methodType := m.value;
      return Success(this);
    }

    /** send: issues the shared request with this endpoint's method and path; no validation. */
    method Send<R>(transport: Transport<R>) returns (sent: Outbound, response: R)
      ensures sent == Outbound(methodType, url, base.request)
      ensures response == transport.exchange(sent)
    {
      sent := Outbound(methodType, url, base.request);
      response := transport.exchange(sent);
    }
  }
}
