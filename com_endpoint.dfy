/**
 * com.gbursali.endpoint: EndpointBase (the shared request specification and the JSON file
 * root) and Endpoint (method, path, optional schema validator). Params and body are written
 * into the base's shared request, not into the endpoint.
 */
module ComEndpoint {
  import opened Wrappers
  import opened JsonTree
  import opened Platform
  import opened Exceptions
  import opened MethodTypes
  import opened RestRequest
  import opened EndpointSpec
  import opened ComJsonValidator
  import ComJsonUtils
  import ComInvalidJsonException

  const NotFoundMessage := "JSON file not found"
  const MalformedMessage := "Malformed JSON file supplied"

  /**
   * makeWithJson(Path): resolve against the base path when one is set; a missing file fails
   * before anything is read; an existing one is read with the "malformed" message and its
   * object handed to fromJson. An InvalidJSONException comes exactly from a missing,
   * unreadable or unparsable file, and then nothing was configured.
   */
  function Load(jsonBasePath: Option<Path>, jsonPath: Path, fs: FileSystem, codec: Codec, request: Request): (c: Configured)
    ensures var resolved := ResolveJsonPath(jsonBasePath, jsonPath, fs);
            c.error.Some? && c.error.value.InvalidJson? <==>
              resolved !in fs.existing || resolved !in fs.contents || codec.parse(fs.contents[resolved]).None?
    ensures c.error.Some? && c.error.value.InvalidJson? ==>
              c.error.value.pkg == ComGbursali && c.route == Initial && c.request == request
    ensures c.request.baseUri == request.baseUri && c.request.cookies == request.cookies
            && c.request.headers == request.headers
  {
    var resolved := ResolveJsonPath(jsonBasePath, jsonPath, fs);
    if resolved !in fs.existing then
      Configured(Initial, request, Some(ComInvalidJsonException.WithFile(NotFoundMessage, resolved, fs)))
    else
      match ComJsonUtils.ReadJsonFileWith(resolved, MalformedMessage, fs, codec)
      case Failure(e) => Configured(Initial, request, Some(e))
      case Success(obj) => ApplyJson(Initial, obj, request, codec)
  }

  /**
   * A missing file fails with "JSON file not found" naming the resolved path, and the shared
   * request is untouched.
   */
  lemma MissingFileFails(jsonBasePath: Option<Path>, jsonPath: Path, fs: FileSystem, codec: Codec, request: Request)
    requires ResolveJsonPath(jsonBasePath, jsonPath, fs) !in fs.existing
    ensures var resolved := ResolveJsonPath(jsonBasePath, jsonPath, fs);
            var c := Load(jsonBasePath, jsonPath, fs, codec, request);
            && c.request == request
            && c.error == Some(InvalidJson(ComGbursali, Some(ComInvalidJsonException.BuildMessage(NotFoundMessage, resolved, fs.absolute(resolved)))))
  {
  }

  /**
   * An existing file that cannot be read fails with "Malformed JSON file supplied" and the
   * path; one whose text does not parse fails with jsonify's message instead.
   */
  lemma ReadAndParseFailures(jsonBasePath: Option<Path>, jsonPath: Path, fs: FileSystem, codec: Codec, request: Request)
    requires ResolveJsonPath(jsonBasePath, jsonPath, fs) in fs.existing
    ensures var resolved := ResolveJsonPath(jsonBasePath, jsonPath, fs);
            var c := Load(jsonBasePath, jsonPath, fs, codec, request);
            && (resolved !in fs.contents ==>
                  c.request == request && c.error == Some(ComInvalidJsonException.WithFile(MalformedMessage, resolved, fs)))
            && (resolved in fs.contents && codec.parse(fs.contents[resolved]).None? ==>
                  c.request == request && c.error == Some(InvalidJson(ComGbursali, Some(ComJsonUtils.InvalidContent))))
  {
  }

  class EndpointBase {
    var request: Request
    var jsonBasePath: Option<Path>

    /** builder(baseURL): given().baseUri(baseURL), and no JSON file root. */
    constructor Builder(baseUrl: string)
      ensures request == Given(baseUrl) && jsonBasePath == None
    {
      request := Given(baseUrl);
      jsonBasePath := None;
    }

    /** makeWithPath: a new endpoint on this base, with the path set and the method GET. */
    method MakeWithPath(path: string) returns (e: Endpoint)
      ensures fresh(e) && e.base == this
      ensures e.CurrentRoute() == Route(GET, Some(path)) && e.validator == None
    {
      e := new Endpoint.FromBase(this);
      e := e.WithPath(path);
    }

    /** withCookie: adds the cookie to the shared request and returns this base. */
    method WithCookie(cookie: Cookie) returns (self: EndpointBase)
      modifies this
      ensures self == this
      ensures request == old(request).(cookies := old(request).cookies + [cookie])
      ensures jsonBasePath == old(jsonBasePath)
    {
      request := request.(cookies := request.cookies + [cookie]);
      self := this;
    }

    /** withHeader: adds the header to the shared request and returns this base. */
    method WithHeader(header: Header) returns (self: EndpointBase)
      modifies this
      ensures self == this
      ensures request == old(request).(headers := old(request).headers + [header])
      ensures jsonBasePath == old(jsonBasePath)
    {
      request := request.(headers := request.headers + [header]);
      self := this;
    }

    /** withJsonBasePath: replaces the JSON file root (`None` is Java's null) and returns this base. */
    method WithJsonBasePath(jsonBasePath: Option<Path>) returns (self: EndpointBase)
      modifies this
      ensures self == this
      ensures this.jsonBasePath == jsonBasePath && request == old(request)
    {
      this.jsonBasePath := jsonBasePath;
      self := this;
    }

    /** makeWithJson(Path), as `Load` describes it. */
    method MakeWithJson(jsonPath: Path, fs: FileSystem, codec: Codec) returns (r: Result<Endpoint, Exception>)
      modifies this
      ensures jsonBasePath == old(jsonBasePath)
      ensures var c := Load(old(jsonBasePath), jsonPath, fs, codec, old(request));
              && request == c.request
              && (c.error.Some? ==> r == Failure(c.error.value))
              && (c.error.None? ==> r.Success? && fresh(r.value) && r.value.base == this
                                    && r.value.CurrentRoute() == c.route && r.value.validator == None)
    {
      var path := jsonPath;
      if jsonBasePath.Some? {
        path := fs.resolve(jsonBasePath.value, path);
      }
      if path !in fs.existing {
        return Failure(ComInvalidJsonException.WithFile(NotFoundMessage, path, fs));
      }
      var contents := ComJsonUtils.ReadJsonFileWith(path, MalformedMessage, fs, codec);
      if contents.Failure? {
        return Failure(contents.error);
      }
      r := Endpoint.FromJson(this, contents.value, codec);
    }

    /** makeWithJson(String): exactly makeWithJson(Path.of(jsonPath)). */
    method MakeWithJsonText(jsonPath: string, fs: FileSystem, codec: Codec) returns (r: Result<Endpoint, Exception>)
      modifies this
      ensures jsonBasePath == old(jsonBasePath)
      ensures var c := Load(old(jsonBasePath), fs.pathOf(jsonPath), fs, codec, old(request));
              && request == c.request
              && (c.error.Some? ==> r == Failure(c.error.value))
              && (c.error.None? ==> r.Success? && fresh(r.value) && r.value.base == this
                                    && r.value.CurrentRoute() == c.route && r.value.validator == None)
    {
      r := MakeWithJson(fs.pathOf(jsonPath), fs, codec);
    }
  }

  class Endpoint {
    var methodType: Method
    var validator: Option<JsonValidator>
    const base: EndpointBase
    var url: Option<string>

    /** The endpoint's own route: its method and its path. */
    function CurrentRoute(): Route
      reads this
    {
      Route(methodType, url)
    }

    /** fromBase / the protected constructor: method GET, no path, no validator. */
    constructor FromBase(base: EndpointBase)
      ensures this.base == base && CurrentRoute() == Initial && validator == None
    {
      this.base := base;
      methodType := GET;
      validator := None;
      url := None;
    }

    /**
     * fromJson: a new endpoint on `base`, then "settings", "params" and "body" in that order,
     * as ApplyJson describes; params and body land in the base's shared request.
     */
    static method FromJson(base: EndpointBase, obj: map<string, Json>, codec: Codec) returns (r: Result<Endpoint, Exception>)
      modifies base
      ensures base.jsonBasePath == old(base.jsonBasePath)
      ensures var c := ApplyJson(Initial, obj, old(base.request), codec);
              && base.request == c.request
              && (c.error.Some? ==> r == Failure(c.error.value))
              && (c.error.None? ==> r.Success? && fresh(r.value) && r.value.base == base
                                    && r.value.CurrentRoute() == c.route && r.value.validator == None)
    {
      var instance := new Endpoint.FromBase(base);
      var settings := ComJsonUtils.DoIfJsonHasObject(obj, "settings");
      if settings.Failure? {
        return Failure(settings.error);
      }
      if settings.value.Some? {
        var error := instance.PullSettings(settings.value.value);
        if error.Some? {
          return Failure(error.value);
        }
      }
      var params := ComJsonUtils.DoIfJsonHasObject(obj, "params");
      if params.Failure? {
        return Failure(params.error);
      }
      if params.value.Some? {
        instance.AddJsonParams(params.value.value);
      }
      var body := ComJsonUtils.DoIfJsonHasObject(obj, "body");
      if body.Failure? {
        return Failure(body.error);
      }
      if body.value.Some? {
        var _ := instance.SetBody(codec.render(JObject(body.value.value)));
      }
      return Success(instance);
    }

    /** setBody: the shared request's body becomes `body`; returns this endpoint. */
    method SetBody(body: string) returns (self: Endpoint)
      modifies base
      ensures self == this
      ensures base.request == WithBody(old(base.request), body) && base.jsonBasePath == old(base.jsonBasePath)
    {
      base.request := WithBody(base.request, body);
      self := this;
    }

    /** addParam(Map): one more batch of params on the shared request. */
    method AddParam(params: map<string, string>)
      modifies base
      ensures base.request == WithParams(old(base.request), params) && base.jsonBasePath == old(base.jsonBasePath)
    {
      base.request := WithParams(base.request, params);
    }

    /** addParam(JsonObject): the object's primitive entries, as strings, as one batch. */
    method AddJsonParams(params: map<string, Json>)
      modifies base
      ensures base.request == WithParams(old(base.request), ComJsonUtils.ObjToStringMap(params))
      ensures base.jsonBasePath == old(base.jsonBasePath)
    {
      AddParam(ComJsonUtils.ObjToStringMap(params));
    }

    /** pullSettings: path, then method, as EndpointSpec.PullSettings describes. */
    method PullSettings(settings: map<string, Json>) returns (error: Option<Exception>)
      modifies this
      ensures Step(CurrentRoute(), error) == EndpointSpec.PullSettings(old(CurrentRoute()), settings)
      ensures validator == old(validator)
    {
      var path := ComJsonUtils.DoIfJsonHasString(settings, "path");
      if path.Failure? {
        return Some(path.error);
      }
      if path.value.Some? {
        var _ := WithPath(path.value.value);
      }
      var name := ComJsonUtils.DoIfJsonHasString(settings, "method");
      if name.Failure? {
        return Some(name.error);
      }
      if name.value.Some? {
        var typed := WithTypeNamed(name.value.value);
        if typed.Failure? {
          return Some(typed.error);
        }
      }
      return None;
    }

    /** withPath: sets the path only; returns this endpoint. */
    method WithPath(path: string) returns (self: Endpoint)
      modifies this
      ensures self == this
      ensures url == Some(path) && methodType == old(methodType) && validator == old(validator)
    {
      url := Some(path);
      self := this;
    }

    /** withType(MethodType): sets the method only; returns this endpoint. */
    method WithType(m: Method) returns (self: Endpoint)
      modifies this
      ensures self == this
      ensures methodType == m && url == old(url) && validator == old(validator)
    {
      methodType := m;
      self := this;
    }

    /**
     * withType(String): MethodType.valueOf, so only a constant's exact name is accepted; any
     * other string throws and leaves the method as it was.
     */
    method WithTypeNamed(name: string) returns (r: Result<Endpoint, Exception>)
      modifies this
      ensures url == old(url) && validator == old(validator)
      ensures (exists m :: Name(m) == name) ==> r == Success(this) && Name(methodType) == name
      ensures (forall m :: Name(m) != name) ==> r == Failure(NoEnumConstant(name)) && methodType == old(methodType)
    {
      var m := ValueOf(name);
      if m.Failure? {
        return Failure(m.error);
      }
      methodType := m.value;
      return Success(this);
    }

    /**
     * withValidator: JSONValidator.fromString(schema); on success the validator is attached
     * and this endpoint returned, otherwise the exception escapes and nothing changes.
     */
    method WithValidator(schema: string, codec: Codec) returns (r: Result<Endpoint, Exception>)
      modifies this
      ensures methodType == old(methodType) && url == old(url)
      ensures FromString(schema, codec).Success? ==>
                r == Success(this) && validator == Some(FromString(schema, codec).value)
      ensures FromString(schema, codec).Failure? ==>
                r == Failure(FromString(schema, codec).error) && validator == old(validator)
    {
      var v := FromString(schema, codec);
      if v.Failure? {
        return Failure(v.error);
      }
      validator := Some(v.value);
      return Success(this);
    }

    /**
     * send: issues the shared request with this endpoint's method and path. Without a
     * validator the response is returned as it came. With one, the pretty-printed response is
     * validated: no violations returns the response unmodified; any violation throws with
     * every error, and no response is returned. Nothing of the endpoint changes.
     */
    method Send<R>(transport: Transport<R>, engine: (string, string) -> seq<ValidationError>, codec: Codec)
      returns (sent: Outbound, r: Result<R, Exception>)
      ensures sent == Outbound(methodType, url, base.request)
      ensures r.Success? ==> r.value == transport.exchange(sent)
      ensures validator.None? ==> r.Success?
      ensures validator.Some? ==>
                var errors := engine(codec.toJson(JObject(validator.value.schema)), transport.pretty(transport.exchange(sent)));
                && (r.Success? <==> errors == [])
                && (r.Failure? ==> r.error == SchemaValidation(FailureHeader, errors))
    {
      sent := Outbound(methodType, url, base.request);
      var response := transport.exchange(sent);
      if validator.Some? {
        var failure := Validate(validator.value, transport.pretty(response), engine, codec);
        if failure.Some? {
          return sent, Failure(failure.value);
        }
      }
      r := Success(response);
    }
  }

  /**
   * Sending twice without changing anything in between issues the same request twice: send
   * consumes nothing.
   */
  method SendIsRepeatable<R>(e: Endpoint, transport: Transport<R>, engine: (string, string) -> seq<ValidationError>, codec: Codec)
    returns (first: Outbound, second: Outbound)
    ensures first == second == Outbound(e.methodType, e.url, e.base.request)
  {
    var r1, r2;
    first, r1 := e.Send(transport, engine, codec);
    second, r2 := e.Send(transport, engine, codec);
  }
}
