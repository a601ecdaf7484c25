/**
 * The parts of RestAssured that the endpoint layer drives, as values: the shared
 * RequestSpecification that an EndpointBase owns and its endpoints write into, the request
 * that send() issues, and the transport that answers it.
 */
module RestRequest {
  import opened Wrappers
  import opened MethodTypes

  datatype Cookie = Cookie(name: string, value: string)
  datatype Header = Header(name: string, value: string)

  /**
   * A RequestSpecification as far as this layer writes it. Each params(Map) call adds one
   * batch, kept in call order; the order inside a batch (a HashMap's) is not modelled.
   */
  datatype Request = Request(
    baseUri: string,
    cookies: seq<Cookie>,
    headers: seq<Header>,
    params: seq<map<string, string>>,
    body: Option<string>)

  /** given().baseUri(baseUri): a specification with nothing else set. */
  function Given(baseUri: string): Request {
    Request(baseUri, [], [], [], None)
  }

  /** What request(method, path) sends: the method's name, the path and the shared specification. */
  datatype Outbound = Outbound(methodType: Method, path: Option<string>, request: Request)

  /** The HTTP exchange (request(...).thenReturn()) and Response.asPrettyString. */
  datatype Transport<!R> = Transport(exchange: Outbound -> R, pretty: R -> string)
}
