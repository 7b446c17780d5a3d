/** The HTTP layer below both API clients. The session, its headers and its
    timeout are not modelled; what a request yields is an `Outcome`, and the
    upstream service is an oracle from requests to outcomes. */
module Http {
  import opened Json

  datatype Verb = GET | POST

  /** One call of `session.request(method, url, params=..., json=...)`. */
  datatype Request = Request(verb: Verb, url: string, params: Option<map<string, Value>>, body: Option<Value>)

  /** How a request ends. `Completed` carries the final status code and the
      result of decoding the body as JSON (`None`: `response.json()` raises). */
  datatype Outcome =
    | Completed(status: int, decoded: Option<Value>)
    | ConnectionFailed
    | TimedOut
    | OtherRequestError

  /** `response.raise_for_status()` raises exactly for the 4xx and 5xx codes. */
  predicate IsHttpError(status: int): (e: bool)
    ensures e <==> status / 100 == 4 || status / 100 == 5
  {
    400 <= status < 600
  }

  /** The outcome never is a `RequestException` other than a connection
      error or a timeout. */
  ghost predicate NoOtherRequestError(server: Request -> Outcome) {
    forall req :: !server(req).OtherRequestError?
  }

  /** A session onto the upstream service. `sent` is the stream of requests
      issued so far, in order. */
  class Transport {
    const server: Request -> Outcome
    var sent: seq<Request>

    constructor (server: Request -> Outcome)
      ensures this.server == server && sent == []
    {
      this.server := server;
      sent := [];
    }

    method Send(req: Request) returns (o: Outcome)
      modifies this
      ensures sent == old(sent) + [req]
      ensures o == server(req)
    {
      sent := sent + [req];
      o := server(req);
    }
  }
}
