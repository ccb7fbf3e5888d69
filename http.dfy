/** What the web framework hands to the documentation service: the matched
    route, the request and the response. Only the parts the service reads
    are modelled. */
module Http {
  import opened Values

  /** Header names as the framework's header bag keeps them (lower-cased),
      each with its list of values. */
  type Headers = map<string, seq<string>>

  /** The matched route: its URI pattern, its logical name (which may be
      absent), the `deprecated` entry of its action metadata (which may be
      absent) and the middleware names attached to it. */
  datatype Route = Route(
    uri: string,
    name: Option<string>,
    deprecatedMeta: Option<bool>,
    middleware: seq<string>)

  /** A request that reached a route; `verb` is its HTTP method. */
  datatype Request = Request(verb: string, route: Route)

  /** A completed response: status code, headers and raw body. */
  datatype Response = Response(status: int, headers: Headers, body: string)

  /** `headers->get('Content-Type')`: the first value of the header, or
      PHP's null when the header is missing or has no value, which becomes
      the empty key once used as an array key. */
  function ContentTypeOf(headers: Headers): (ct: string)
    ensures "content-type" !in headers || headers["content-type"] == [] ==> ct == ""
    ensures "content-type" in headers && headers["content-type"] != [] ==> ct == headers["content-type"][0]
  {
    if "content-type" in headers && |headers["content-type"]| > 0 then headers["content-type"][0] else ""
  }
}
