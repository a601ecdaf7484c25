# ra-requester: the endpoint layer in Dafny

ra-requester builds RestAssured HTTP requests from data. An `EndpointBase` holds the shared
request specification of one host (base URI, cookies, headers, query parameters, body) and an
optional root directory for endpoint files. An `Endpoint` holds its own HTTP method, path and
(in `com.gbursali`) an optional JSON Schema validator. An endpoint is built either with fluent
setters or from a JSON fragment whose optional keys `settings` (`path`, `method`), `params` and
`body` are applied in that order. `send()` issues the request and, when a validator is attached,
validates the response. The code exists twice, in the near-identical packages `com.gbursali`
and `space.gbsdev`; both are modelled.

Layout:

- `wrappers.dfy`, `json_tree.dfy`, `platform.dfy`, `exceptions.dfy`, `rest_request.dfy`: the
  Gson element tree and its accessors, the file system and path library, the exceptions, and
  the request specification. Gson parsing and printing, file access, the HTTP exchange and the
  schema engine are function-typed fields of values the callers pass in (`Codec`, `FileSystem`,
  `Transport`, the `engine` argument).
- `method_type.dfy`: the `MethodType` enum, exact lookup (`valueOf`) and the case-insensitive
  linear search `valueOfIgnoreCase`.
- `com_invalid_json_exception.dfy`, `space_invalid_json_exception.dfy`,
  `json_validation_exception.dfy`: the three message builders; `text_lines.dfy` reads a built
  message line by line.
- `com_json_utils.dfy`, `space_json_utils.dfy`: the `JSONUtils` helpers of each package.
- `endpoint_spec.dfy`: what `pullSettings` and `fromJson` do, as functions on values, with the
  properties of that sequence proved once for both packages.
- `com_json_validator.dfy`: `JSONValidator.fromString` and `validate` as `Endpoint.send` uses
  them, the schema engine left abstract.
- `com_endpoint.dfy`, `space_endpoint.dfy`: the two `EndpointBase`/`Endpoint` class pairs. Their
  state is what the Java fields hold: the base owns `request` (the shared specification) and
  `jsonBasePath`; the endpoint owns `methodType`, `url` and, in `com.gbursali`, `validator`.
  `params` and `body` are written into the base's request, as the Java code does. Each method is
  proved against the spec functions of `endpoint_spec.dfy` (`PullSettings`, `ApplyJson`) and the
  per-package `Load`, including the partial effects left behind when an exception stops
  `fromJson` halfway.

Exceptions are values: a Java method that may throw returns `Result<T, Exception>` (or an
`Option<Exception>` for `void` methods), and an exception ends the operation without undoing
the state changes made before it. The two packages each declare their own, unrelated
`InvalidJSONException`; the value records which one (`InvalidJson(pkg, message)`).

Behaviour of the code a reader may not expect, modelled as the code has it:

- `body` must be a JSON object (`doIfJsonHasObject`); an array throws.
- A `settings`, `params` or `body` key whose value is not an object throws. It is not skipped.
- Each `addParam` call adds one more batch of parameters to the shared request
  (`Request.params` is a sequence of batches). No last-write-wins rule is assumed.
- Params and body live in the base's shared request, so every endpoint of a base sees them.
- `withType(String)` and the `method` setting use the enum's exact, case-sensitive `valueOf`.
- `space.gbsdev` does not map a syntax error in an endpoint file to `InvalidJSONException`.
- A path is not required before `send`: an endpoint without one sends a null path.

## Model

| member | source | states |
|---|---|---|
| MethodTypes.Ordinal | src/main/java/com/gbursali/utils/MethodType.java:11-51 | each constant sits at its declaration position in `values()` |
| MethodTypes.ValuesAreTheConstants | src/main/java/com/gbursali/utils/MethodType.java:11-51 | `values()` has exactly nine entries; they are pairwise distinct, their names are pairwise distinct, and every constant occurs |
| MethodTypes.ValueOf | src/main/java/com/gbursali/utils/MethodType.java:6-51 | the enum's `valueOf` returns the constant whose name is exactly the argument; a string that is no constant's name fails with `NoEnumConstant` |
| MethodTypes.MatchesIffUpperCase | src/main/java/com/gbursali/utils/MethodType.java:62 | a constant's name equals a string ignoring case exactly when the string upper-cased is that name |
| MethodTypes.AtMostOneMatch | src/main/java/com/gbursali/utils/MethodType.java:61-65 | two constants that both match one string ignoring case are the same constant |
| MethodTypes.ValueOfIgnoreCase | src/main/java/com/gbursali/utils/MethodType.java:60-67 | returns the first constant in declaration order whose name equals the argument ignoring case; any matching constant is the one returned; fails exactly when none matches, with "No constant with name " + value + " found" |
| MethodTypes.CaseVariantsFindTheirConstant | src/main/java/com/gbursali/utils/MethodType.java:62 | "get" gives GET and "Patch" gives PATCH |
| MethodTypes.NameRoundTrip | src/main/java/com/gbursali/utils/MethodType.java:61-63 | looking up a constant's own name, with or without case folding, gives that constant |
| JsonTree.AsObject | src/main/java/com/gbursali/utils/JSONUtils.java:59 | `getAsJsonObject` succeeds exactly on an object and yields its members |
| JsonTree.AsString | src/main/java/com/gbursali/utils/JSONUtils.java:70 | `getAsString` succeeds on every primitive, gives a string's own text, and fails on null, objects and arrays whose size is not one |
| Platform.ReadString | src/main/java/com/gbursali/utils/JSONUtils.java:135 | reading succeeds exactly for readable paths and yields their text |
| ComInvalidJsonException.NoDetail | src/main/java/com/gbursali/utils/InvalidJSONException.java:14-16 | the no-argument constructor has no message |
| ComInvalidJsonException.WithMessage | src/main/java/com/gbursali/utils/InvalidJSONException.java:23-25 | the one-argument constructor keeps the message verbatim |
| ComInvalidJsonException.BuildMessage | src/main/java/com/gbursali/utils/InvalidJSONException.java:46-50 | the built text has the message as prefix, the "Requested file:" label right after it, the full path as suffix, and the exact length of the three parts and two labels |
| ComInvalidJsonException.WithFile | src/main/java/com/gbursali/utils/InvalidJSONException.java:33-35 | the constructor with a file carries `buildMessage(message, file)` with the file's absolute form; the original message is a proper prefix |
| ComInvalidJsonException.MessageLines | src/main/java/com/gbursali/utils/InvalidJSONException.java:46-50 | split at line breaks, the built message is the message's lines followed by exactly the "Requested file:" line and then the "Requested Full path:" line |
| SpaceInvalidJsonException.NoDetail | src/main/java/space/gbsdev/utils/InvalidJSONException.java:13-15 | the no-argument constructor gives this package's exception, with no message |
| SpaceInvalidJsonException.WithMessage | src/main/java/space/gbsdev/utils/InvalidJSONException.java:22-24 | the one-argument constructor gives this package's exception and keeps the message verbatim |
| SpaceInvalidJsonException.Make | src/main/java/space/gbsdev/utils/InvalidJSONException.java:35-40 | `make` returns (does not throw) this package's exception; its message is the same text `com.gbursali`'s `buildMessage` produces, with the original message as prefix |
| JsonValidationException.ExtractMessage | src/main/java/space/gbsdev/utils/json_validator/JsonValidationException.java:42-46 | a block starts with "Path: " and the location, ends with "Error: " and the error, and has the length of its three labelled lines |
| JsonValidationException.ExtractMessageMiddle | src/main/java/space/gbsdev/utils/json_validator/JsonValidationException.java:44-45 | between those two lines stand a separator, "Variable: " with the keyword, and another separator, at their exact offsets |
| JsonValidationException.ExtractMessageLines | src/main/java/space/gbsdev/utils/json_validator/JsonValidationException.java:42-46 | with "\n" as separator and no line break in the fields, a block is exactly the three lines path, variable, error |
| JsonValidationException.JoinAt | src/main/java/space/gbsdev/utils/json_validator/JsonValidationException.java:32 | joining puts each part, whole, at its offset, a separator after every part but the last, and nothing after the last |
| JsonValidationException.Blocks | src/main/java/space/gbsdev/utils/json_validator/JsonValidationException.java:30-31 | one block per error, block i formatted from error i |
| JsonValidationException.BuildMessage | src/main/java/space/gbsdev/utils/json_validator/JsonValidationException.java:29-34 | the message starts with the header and "\n"; with no errors it is exactly the header and "\n" |
| JsonValidationException.ErrorInMessage | src/main/java/space/gbsdev/utils/json_validator/JsonValidationException.java:18-34 | every error's block appears whole in the message, in input order, blocks separated by exactly "\n\n", and the message ends with the last block |
| ComJsonUtils.DoIfJsonHas | src/main/java/com/gbursali/utils/JSONUtils.java:45-49 | the action runs exactly when the key is present, once, on the key's value |
| ComJsonUtils.DoIfJsonHasObject | src/main/java/com/gbursali/utils/JSONUtils.java:58-60 | an absent key is skipped; a present object value is handed over; any other present value fails with the Gson error |
| ComJsonUtils.DoIfJsonHasString | src/main/java/com/gbursali/utils/JSONUtils.java:69-71 | an absent key is skipped; a present value is handed over as its string form when it has one (always for a primitive, the text itself for a string), otherwise fails |
| ComJsonUtils.ObjToStringMap | src/main/java/com/gbursali/utils/JSONUtils.java:104-112 | a key is in the result iff its value is a primitive; each value is the primitive's string form; null, object and array values never appear |
| ComJsonUtils.Jsonify | src/main/java/com/gbursali/utils/JSONUtils.java:79-86 | fails exactly when parsing fails, then with "Provided content is not a valid JSON"; otherwise yields the parsed element |
| ComJsonUtils.ReadJsonFileWith | src/main/java/com/gbursali/utils/JSONUtils.java:133-139 | a read failure gives the given message plus the path; unparsable text gives jsonify's message; a non-object fails in `getAsJsonObject`; otherwise the object |
| ComJsonUtils.ReadJsonFile | src/main/java/com/gbursali/utils/JSONUtils.java:121-123 | a read failure carries "File not found or contains invalid JSON content" plus the path; other failures are parse or non-object failures |
| ComJsonUtils.MessageOnlyForReadFailures | src/main/java/com/gbursali/utils/JSONUtils.java:133-139 | for a readable file the given message has no influence on the outcome |
| ComJsonUtils.ReadAndParseFailuresDiffer | src/main/java/com/gbursali/utils/JSONUtils.java:121-139 | the read-failure exception and the parse-failure exception are never equal |
| SpaceJsonUtils.DoIfJsonHas | src/main/java/space/gbsdev/utils/JSONUtils.java:32-36 | the action runs exactly when the key is present, once, on the key's value |
| SpaceJsonUtils.DoIfJsonHasObject | src/main/java/space/gbsdev/utils/JSONUtils.java:45-47 | absent keys are skipped; a present non-object value is an error |
| SpaceJsonUtils.DoIfJsonHasString | src/main/java/space/gbsdev/utils/JSONUtils.java:56-58 | absent keys are skipped; a present value is handed over as its string form, which every primitive has |
| SpaceJsonUtils.ObjToStringMap | src/main/java/space/gbsdev/utils/JSONUtils.java:91-99 | a key is in the result iff its value is a primitive; each value is the primitive's string form |
| SpaceJsonUtils.Jsonify | src/main/java/space/gbsdev/utils/JSONUtils.java:66-73 | fails exactly when parsing fails, then with `ERROR_INVALID_JSON`; otherwise yields the parsed element |
| ComJsonValidator.FromString | src/main/java/com/gbursali/utils/json_validator/JSONValidator.java:70-72 | unparsable schema text fails with jsonify's message; a non-object fails; otherwise the validator holds the parsed object |
| ComJsonValidator.Validate | src/main/java/com/gbursali/utils/json_validator/JSONValidator.java:47-52 | passes exactly when the engine reports no error for the serialised schema; otherwise fails with "Schema validation failed" and every error in order |
| EndpointSpec.PullSettings | src/main/java/com/gbursali/endpoint/Endpoint.java:111-114 | reference for `pullSettings`: an absent key keeps its field; on success a present "path" is its string form and a present "method" names the new method; the only failures are a value without a string form and an unknown method name |
| EndpointSpec.ApplyJson | src/main/java/com/gbursali/endpoint/Endpoint.java:52-58 | reference for `fromJson`: base URI, cookies and headers untouched; earlier params batches kept and at most one added; an absent key leaves its part alone; the only failures are a non-object value, a value without a string form and an unknown method name |
| EndpointSpec.ResolveJsonPath | src/main/java/com/gbursali/endpoint/EndpointBase.java:106-107 | without a base path the given path is used; with one, `jsonBasePath.resolve(path)` |
| EndpointSpec.SettingsKeepAbsent | src/main/java/com/gbursali/endpoint/Endpoint.java:111-114 | an absent "path" keeps the path, an absent "method" keeps the method; with neither nothing changes |
| EndpointSpec.SettingsSetPathFirst | src/main/java/com/gbursali/endpoint/Endpoint.java:111-114 | a "path" with a string form is set even when the "method" that follows fails |
| EndpointSpec.SettingsMethodIsCaseSensitive | src/main/java/com/gbursali/endpoint/Endpoint.java:144-147 | a method name that is no constant's exact name fails and keeps the prior method; an exact name sets it |
| EndpointSpec.LowerCaseMethodRejected | src/main/java/com/gbursali/endpoint/Endpoint.java:145 | the setting "method": "get" fails |
| EndpointSpec.AbsentKeysChangeNothing | src/main/java/com/gbursali/endpoint/Endpoint.java:52-58 | a fragment without the three keys changes neither route nor request |
| EndpointSpec.OnlyParams | src/main/java/com/gbursali/endpoint/Endpoint.java:52-58 | a fragment with only "params" keeps the route and adds `objToStringMap(params)` as one batch |
| EndpointSpec.ApplyJsonFrame | src/main/java/com/gbursali/endpoint/Endpoint.java:52-58 | building never changes base URI, cookies or headers, adds at most one params batch, and either keeps the body or sets it to the "body" object's text |
| EndpointSpec.SuccessAppliesEachKey | src/main/java/com/gbursali/endpoint/Endpoint.java:52-58 | on success each present key was an object and had its full effect; each absent key had none |
| EndpointSpec.SettingsFailureStopsBeforeRequest | src/main/java/com/gbursali/endpoint/Endpoint.java:54-56 | failing settings fail the build before params or body reach the request |
| EndpointSpec.BadBodyKeepsParams | src/main/java/com/gbursali/endpoint/Endpoint.java:55-56 | a non-object body fails after the params batch was already added |
| ComEndpoint.Load | src/main/java/com/gbursali/endpoint/EndpointBase.java:105-116 | reference for `makeWithJson`: the result is an InvalidJSONException of this package exactly when the resolved file is missing, unreadable or unparsable, and then nothing was configured; base URI, cookies and headers are untouched |
| ComEndpoint.MissingFileFails | src/main/java/com/gbursali/endpoint/EndpointBase.java:109-111 | a missing resolved file fails with "JSON file not found" and the resolved path, leaving the request untouched |
| ComEndpoint.ReadAndParseFailures | src/main/java/com/gbursali/endpoint/EndpointBase.java:114 | an unreadable file fails with "Malformed JSON file supplied" and the path; unparsable text with jsonify's message |
| ComEndpoint.EndpointBase.Builder | src/main/java/com/gbursali/endpoint/EndpointBase.java:32-44 | a new base has only the base URI set and no JSON root |
| ComEndpoint.EndpointBase.MakeWithPath | src/main/java/com/gbursali/endpoint/EndpointBase.java:52-54 | a new endpoint on this base with the given path, method GET and no validator |
| ComEndpoint.EndpointBase.WithCookie | src/main/java/com/gbursali/endpoint/EndpointBase.java:62-65 | appends the cookie, returns the same base, keeps the JSON root |
| ComEndpoint.EndpointBase.WithHeader | src/main/java/com/gbursali/endpoint/EndpointBase.java:73-76 | appends the header, returns the same base, keeps the JSON root |
| ComEndpoint.EndpointBase.WithJsonBasePath | src/main/java/com/gbursali/endpoint/EndpointBase.java:84-87 | replaces the JSON root, returns the same base, keeps the request |
| ComEndpoint.EndpointBase.MakeWithJson | src/main/java/com/gbursali/endpoint/EndpointBase.java:105-116 | result and new request are those of `Load`: resolve, fail on a missing file, read with "Malformed JSON file supplied", then `fromJson` on a fresh endpoint |
| ComEndpoint.EndpointBase.MakeWithJsonText | src/main/java/com/gbursali/endpoint/EndpointBase.java:125-127 | the same as `makeWithJson(Path.of(s))` |
| ComEndpoint.Endpoint.FromBase | src/main/java/com/gbursali/endpoint/Endpoint.java:20-43 | a new endpoint has method GET, no path and no validator |
| ComEndpoint.Endpoint.FromJson | src/main/java/com/gbursali/endpoint/Endpoint.java:52-58 | the route of the new endpoint and the base's request are those `ApplyJson` gives, including the partial effects before a failure |
| ComEndpoint.Endpoint.SetBody | src/main/java/com/gbursali/endpoint/Endpoint.java:83-86 | the base's request gets the body; returns this endpoint |
| ComEndpoint.Endpoint.AddParam | src/main/java/com/gbursali/endpoint/Endpoint.java:93-95 | the base's request gets one more params batch |
| ComEndpoint.Endpoint.AddJsonParams | src/main/java/com/gbursali/endpoint/Endpoint.java:102-104 | the batch added is `objToStringMap` of the object |
| ComEndpoint.Endpoint.PullSettings | src/main/java/com/gbursali/endpoint/Endpoint.java:111-114 | the new route and error are those `EndpointSpec.PullSettings` gives; the validator is kept |
| ComEndpoint.Endpoint.WithPath | src/main/java/com/gbursali/endpoint/Endpoint.java:122-125 | sets the path only and returns this endpoint |
| ComEndpoint.Endpoint.WithType | src/main/java/com/gbursali/endpoint/Endpoint.java:133-136 | sets the method only and returns this endpoint |
| ComEndpoint.Endpoint.WithTypeNamed | src/main/java/com/gbursali/endpoint/Endpoint.java:144-147 | an exact constant name sets the method; any other name fails and keeps it; the path and validator never change |
| ComEndpoint.Endpoint.WithValidator | src/main/java/com/gbursali/endpoint/Endpoint.java:155-158 | attaches the validator built from the schema text, or fails and keeps the old one |
| ComEndpoint.Endpoint.Send | src/main/java/com/gbursali/endpoint/Endpoint.java:165-174 | issues method, path and shared request; without a validator returns the response; with one, returns it unmodified iff the engine reports no error, else fails with every error; changes nothing |
| ComEndpoint.SendIsRepeatable | src/main/java/com/gbursali/endpoint/Endpoint.java:165-168 | two sends in a row issue identical requests |
| SpaceEndpoint.FromText | src/main/java/space/gbsdev/endpoint/Endpoint.java:24-31 | reference for `fromJson(base, json)`: never fails with InvalidJSONException; unparsable or non-object text fails with nothing configured; success needs an object; base URI, cookies and headers are untouched |
| SpaceEndpoint.Load | src/main/java/space/gbsdev/endpoint/EndpointBase.java:92-104 | reference for `makeWithJson`: the result is this package's InvalidJSONException exactly when the resolved file is missing or unreadable, and then nothing was configured; base URI, cookies and headers are untouched |
| SpaceEndpoint.MalformedTextIsNotWrapped | src/main/java/space/gbsdev/endpoint/Endpoint.java:24-26 | unparsable text fails with the parser's own exception, a non-object top level in `getAsJsonObject`; the request is untouched |
| SpaceEndpoint.PackagesLoadAlike | src/main/java/space/gbsdev/endpoint/EndpointBase.java:92-104 | a file whose text parses loads identically in both packages; a missing or unreadable file fails in both with the same message and nothing configured, but as each package's own exception class; unparsable text fails with com's InvalidJSONException there and the parser's exception here |
| SpaceEndpoint.EndpointBase.Builder | src/main/java/space/gbsdev/endpoint/EndpointBase.java:30-42 | a new base has only the base URI set and no JSON root |
| SpaceEndpoint.EndpointBase.MakeWithPath | src/main/java/space/gbsdev/endpoint/EndpointBase.java:50-52 | a new endpoint on this base with the given path and method GET |
| SpaceEndpoint.EndpointBase.WithCookie | src/main/java/space/gbsdev/endpoint/EndpointBase.java:60-63 | appends the cookie, returns the same base, keeps the JSON root |
| SpaceEndpoint.EndpointBase.WithJsonBasePath | src/main/java/space/gbsdev/endpoint/EndpointBase.java:71-74 | replaces the JSON root, returns the same base, keeps the request |
| SpaceEndpoint.EndpointBase.Jsonify | src/main/java/space/gbsdev/endpoint/EndpointBase.java:123-125 | succeeds exactly when parsing does; a syntax error escapes as the parser's exception |
| SpaceEndpoint.EndpointBase.MakeWithJson | src/main/java/space/gbsdev/endpoint/EndpointBase.java:92-104 | result and new request are those of `Load`: "JSON file not found" before reading, "Malformed JSON file supplied" only for a read failure, otherwise `fromJson` on the text |
| SpaceEndpoint.EndpointBase.MakeWithJsonText | src/main/java/space/gbsdev/endpoint/EndpointBase.java:113-115 | the same as `makeWithJson(Path.of(s))` |
| SpaceEndpoint.Endpoint.FromBase | src/main/java/space/gbsdev/endpoint/Endpoint.java:12-22 | a new endpoint has method GET and no path |
| SpaceEndpoint.Endpoint.FromJson | src/main/java/space/gbsdev/endpoint/Endpoint.java:24-31 | parses with the base's jsonify, requires an object, then route and request are those `ApplyJson` gives |
| SpaceEndpoint.Endpoint.SetBody | src/main/java/space/gbsdev/endpoint/Endpoint.java:33-35 | the base's request gets the body |
| SpaceEndpoint.Endpoint.AddParam | src/main/java/space/gbsdev/endpoint/Endpoint.java:37-39 | the base's request gets one more params batch |
| SpaceEndpoint.Endpoint.AddJsonParams | src/main/java/space/gbsdev/endpoint/Endpoint.java:40-42 | the batch added is `objToStringMap` of the object |
| SpaceEndpoint.Endpoint.PullSettings | src/main/java/space/gbsdev/endpoint/Endpoint.java:44-47 | the new route and error are those `EndpointSpec.PullSettings` gives |
| SpaceEndpoint.Endpoint.WithPath | src/main/java/space/gbsdev/endpoint/Endpoint.java:49-52 | sets the path only and returns this endpoint |
| SpaceEndpoint.Endpoint.WithType | src/main/java/space/gbsdev/endpoint/Endpoint.java:53-56 | sets the method only and returns this endpoint |
| SpaceEndpoint.Endpoint.WithTypeNamed | src/main/java/space/gbsdev/endpoint/Endpoint.java:57-60 | an exact constant name sets the method; any other name fails and keeps it |
| SpaceEndpoint.Endpoint.Send | src/main/java/space/gbsdev/endpoint/Endpoint.java:62-66 | issues method, path and shared request and returns the response; no validation |

## Left out

- HTTP transport: RestAssured's `given()`, `request(...)`, `thenReturn()` and `asPrettyString` are the `Transport` value; the exchange is a function of the outbound request.
- Gson: parsing, `JsonElement.toString` and `gson.toJson` are the `Codec` value; Gson's printer is not modelled.
- `JSONUtils.setGsonInstance` and `JSONUtils.stringify` (both packages): the static Gson field is not modelled; choosing it means choosing `Codec.toJson`, which the schema serialisation uses.
- File I/O and the path library: `File.exists`, `Files.readString`, `Path.resolve`, `Path.toAbsolutePath` and `Path.of` are the `FileSystem` value.
- The schema engine (`dev.harrel.jsonschema`, Draft 2020-12) is the `engine` argument; `JSONValidator.fromFile`, `fromJson` and its `Logger` call are not modelled.
- `Endpoint.setSchema` in `com.gbursali` is private and never called.
- The `headers` field of `com.gbursali`'s `EndpointBase` is never read or written.
- `com.gbursali.utils.json_validator.JsonValidationException` is not part of this model: its message is not modelled; a failed validation is the value `SchemaValidation(header, errors)`, carrying the header and every error in order.
- JsonTree.Json: an object's members are an unordered map, while Gson's `JsonObject` keeps insertion order. Two "body" objects that differ only in member order are sent as different text by `Endpoint.setBody(body.toString())`, but the model renders them alike.
- `space.gbsdev.utils.MethodType` is not part of this model: `space.gbsdev` uses the same nine constants here.
- MethodTypes.ValueOfIgnoreCase: case folding covers ASCII letters only; Java's Unicode case folding is not modelled.
- MethodTypes.ValueOf: the JDK's exception message is not modelled, only the name looked up.
- JsonTree.AsString: the Gson exception types and messages for `getAsJsonObject` and `getAsString` are not modelled, only which element failed.
- The order of entries inside one params batch (a `HashMap`'s) is not modelled.
- Java nulls: a missing base path or path is `None`; null arguments from callers are not modelled.
- Overriding the protected `jsonify` of `space.gbsdev`'s `EndpointBase` in a subclass is not modelled.
- JsonValidationException.ExtractMessage: the platform line separator is a parameter `nl`; no particular platform is fixed.
