/**
 * The authenticated transport: requests, the replies a server may give,
 * the error taxonomy of the client, and the classification of a reply
 * into raw body bytes or an error (doAPIRequest in client.go).
 */
module Http {
  import opened Wrappers

  type Bytes = seq<bv8>

  /** The provider's API root (baseURL in client.go). */
  const BASE_URL: string := "https://api.netlify.com/api/v1"

  const AUTHORIZATION: string := "Authorization"
  const CONTENT_TYPE: string := "Content-Type"
  const JSON_MEDIA_TYPE: string := "application/json"

  datatype Method = Get | Post | Patch

  /** A URL as the path the client formats plus its query parameters (one value per key, as url.Values.Set leaves them). */
  datatype Url = Url(path: string, query: map<string, string>)

  datatype Request = Request(verb: Method, url: Url, header: map<string, string>, body: Option<Bytes>)

  /**
   * What one round trip gives back: no response at all (connection error),
   * or a status code with the body, whose reading may itself fail.
   */
  datatype Reply =
    | NoResponse(cause: string)
    | Response(status: int, body: Result<Bytes, string>)

  datatype Exchange = Exchange(request: Request, reply: Reply)

  /** Every failure an operation of the client can return; library errors keep their own text. */
  datatype Error =
    | EncodeError(detail: string)              // json.Marshal
    | RequestError(detail: string)             // http.NewRequestWithContext
    | TransportError(detail: string)           // http.DefaultClient.Do
    | ReadError(detail: string)                // io.ReadAll on the response body
    | StatusError(status: int)                 // "got error status: HTTP %d"
    | DecodeError(detail: string)              // json.Unmarshal
    | ZoneCountError(count: nat, zoneName: string) // "expected 1 zone, got %d for %s"

  /**
   * What an operation does before the round trip: give up with an error
   * without sending anything, or send one request (not yet authorized).
   */
  datatype Plan = Abort(error: Error) | Send(request: Request)

  /** http.NewRequestWithContext: fails only when the URL does not parse; `parse` gives the parser's complaint. */
  function NewRequest(verb: Method, url: Url, body: Option<Bytes>, parse: Url -> Option<string>): Result<Request, Error>
  {
    match parse(url)
    case Some(complaint) => Failure(RequestError(complaint))
    case None => Success(Request(verb, url, map[], body))
  }

  /** Header.Set: replaces whatever the header held under that key. */
  function WithHeader(req: Request, key: string, value: string): Request
  {
    req.(header := req.header[key := value])
  }

  /** The request doAPIRequest actually sends: the bearer token attached. */
  function Authorize(req: Request, token: string): (r: Request)
    ensures r.verb == req.verb && r.url == req.url && r.body == req.body
    ensures r.header.Keys == req.header.Keys + {AUTHORIZATION}
    ensures r.header[AUTHORIZATION] == "Bearer " + token
    ensures forall k :: k in req.header && k != AUTHORIZATION ==> r.header[k] == req.header[k]
  {
    WithHeader(req, AUTHORIZATION, "Bearer " + token)
  }

  /**
   * The classification of doAPIRequest, in its fixed order: a transport
   * error first, then a body-read error, then a status of 400 or more;
   * otherwise the body bytes unchanged.
   */
  function Classify(reply: Reply): (r: Result<Bytes, Error>)
    ensures reply.NoResponse? ==> r == Failure(TransportError(reply.cause))
    ensures reply.Response? && reply.body.Failure? ==> r == Failure(ReadError(reply.body.error))
    ensures reply.Response? && reply.body.Success? && reply.status >= 400 ==> r == Failure(StatusError(reply.status))
    ensures r.Success? <==> reply.Response? && reply.body.Success? && reply.status < 400
    ensures r.Success? ==> r.value == reply.body.value
  {
    match reply
    case NoResponse(cause) => Failure(TransportError(cause))
    case Response(status, body) =>
      match body
      case Failure(complaint) => Failure(ReadError(complaint))
      case Success(bytes) =>
        if status >= 400 then Failure(StatusError(status)) else Success(bytes)
  }

  /** The round trip followed by json.Unmarshal of the body into the expected shape. */
  function Settle<T>(reply: Reply, decode: Bytes -> Result<T, string>): (r: Result<T, Error>)
    ensures Classify(reply).Failure? ==> r == Failure(Classify(reply).error)
    ensures Classify(reply).Success? && decode(Classify(reply).value).Failure? ==>
              r == Failure(DecodeError(decode(Classify(reply).value).error))
    ensures r.Success? <==> Classify(reply).Success? && decode(Classify(reply).value).Success?
    ensures r.Success? ==> r.value == decode(reply.body.value).value
  {
    match Classify(reply)
    case Failure(e) => Failure(e)
    case Success(bytes) =>
      match decode(bytes)
      case Failure(complaint) => Failure(DecodeError(complaint))
      case Success(v) => Success(v)
  }

  /** The request a plan hands to the server, if any. */
  function Sent(plan: Plan, token: string): Option<Request>
  {
    match plan
    case Abort(_) => None
    case Send(req) => Some(Authorize(req, token))
  }

  /** The result of an operation that followed `plan` and got `answer` back when it sent something. */
  function Outcome<T>(plan: Plan, answer: Option<Reply>, decode: Bytes -> Result<T, string>): (r: Result<T, Error>)
    requires plan.Send? <==> answer.Some?
    ensures r.Success? <==> plan.Send? && Settle(answer.value, decode).Success?
    ensures r.Success? ==> r.value == Settle(answer.value, decode).value
    ensures plan.Abort? ==> r == Failure(plan.error)
    ensures plan.Send? && r.Failure? ==>
              r.error.TransportError? || r.error.ReadError? || r.error.StatusError? || r.error.DecodeError?
  {
    match plan
    case Abort(e) => Failure(e)
    case Send(_) => Settle(answer.value, decode)
  }

  /** The log grew by exactly the request sent (or not at all): no retries, nothing else. */
  predicate Appended(before: seq<Exchange>, after: seq<Exchange>, sent: Option<Request>)
  {
    match sent
    case None => after == before
    case Some(req) => |after| == |before| + 1 && after[..|before|] == before && after[|before|].request == req
  }

  /** The reply to the request sent between `before` and `after`, if one was. */
  function Answer(before: seq<Exchange>, after: seq<Exchange>): Option<Reply>
  {
    if |after| > |before| then Some(after[|before|].reply) else None
  }

  /** A Go-style return: the value and no error, or the zero value and the error. */
  predicate Returns<T(==)>(value: T, err: Option<Error>, out: Result<T, Error>, zero: T)
  {
    match out
    case Success(v) => value == v && err == None
    case Failure(e) => value == zero && err == Some(e)
  }

  /**
   * The network behind http.DefaultClient. Each round trip is logged. The
   * server's answer may depend on everything sent before; callers' contracts
   * never mention `server`, so to them each reply is arbitrary.
   */
  class Transport {
    const server: (seq<Exchange>, Request) -> Reply
    var log: seq<Exchange>

    constructor (server: (seq<Exchange>, Request) -> Reply)
      ensures this.server == server && log == []
    {
      this.server := server;
      log := [];
    }

    method Do(req: Request) returns (reply: Reply)
      modifies this
      ensures log == old(log) + [Exchange(req, reply)]
    {
      reply := server(log, req);
      log := log + [Exchange(req, reply)];
    }
  }
}
