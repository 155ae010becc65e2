/**
 * The browser's `fetch`, reduced to what the client relies on: the request it
 * sends, the response it gets back, and a network that answers each request.
 */
module Net {
  import opened Wrappers
  import opened Js

  /** A request body: none, a literal text, or `JSON.stringify(v)`. */
  datatype Payload = NoBody | Text(text: string) | JsonText(v: Json)

  /**
   * A request as `fetch` receives it; `verb` is its `method` option. `url` is the path below the API base
   * URL; `credentials` is the fetch option of that name.
   */
  datatype Request = Request(
    verb: string,
    url: string,
    headers: map<string, string>,
    body: Payload,
    credentials: string)

  /**
   * A response: its status, its `content-type` header if any, and what
   * `res.json()` yields (None when the body is not valid JSON).
   */
  datatype Response = Response(status: int, contentType: Option<string>, json: Option<Json>)

  /** `res.ok`: a status in the range 200 to 299. */
  predicate IsOk(r: Response)
  {
    200 <= r.status <= 299
  }

  /**
   * How the remote side answers: the settled `fetch` promise for the last
   * request of a history of requests. A rejection is a transport failure.
   */
  type Responder = seq<Request> -> Result<Response>

  /** The network as the client sees it: every request sent so far, and how each is answered. */
  class Network {
    const respond: Responder
    var sent: seq<Request>

    constructor (respond: Responder)
      ensures this.respond == respond && sent == []
    {
      this.respond := respond;
      sent := [];
    }

    /** `await fetch(...)`: sends one request and settles with the network's answer to it. */
    method Fetch(req: Request) returns (outcome: Result<Response>)
      modifies this
      ensures sent == old(sent) + [req]
      ensures outcome == respond(sent)
    {
      sent := sent + [req];
      outcome := respond(sent);
    }
  }
}
