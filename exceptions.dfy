/** The exceptions the endpoint layer throws or lets through, as values. */
module Exceptions {
  import opened Wrappers
  import opened JsonTree

  /** One rule violation reported by the JSON Schema engine (dev.harrel.jsonschema.Error). */
  datatype ValidationError = ValidationError(location: string, keyword: string, error: string)

  /** The package an exception class belongs to, where both packages declare one of that name. */
  datatype Package = ComGbursali | SpaceGbsdev

  datatype Exception =
    /**
     * InvalidJSONException; `pkg` says which of the two unrelated classes of that name (a catch
     * of one does not catch the other); `None` is the constructor without a message.
     */
    | InvalidJson(pkg: Package, message: Option<string>)
    /** IllegalArgumentException from MethodType.valueOfIgnoreCase. */
    | IllegalArgument(reason: string)
    /** IllegalArgumentException from the enum's own valueOf: no constant has exactly this name. */
    | NoEnumConstant(name: string)
    /** Gson's getAsJsonObject on an element that is not an object. */
    | NotAJsonObject(element: Json)
    /** Gson's getAsString on null, an object, or an array whose size is not one. */
    | NotAString(element: Json)
    /** Gson's own JsonParseException, when nothing maps it to InvalidJSONException. */
    | JsonSyntax
    /** JsonValidationException thrown by the schema validator: its header and every error. */
    | SchemaValidation(header: string, errors: seq<ValidationError>)
}
