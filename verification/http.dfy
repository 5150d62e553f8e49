/** The helpers the Vercel handlers share (api/_lib/http.ts): the CORS
    headers, the preflight responder, the error responder and the tolerant
    JSON body parser, over a response object the handlers write in place. */
module Http {
  import opened Js
  import opened Proxy

  /** The CORS header entries, in the order they are set. */
  const CorsEntries: seq<(string, string)> := [
    ("Access-Control-Allow-Origin", "*"),
    ("Access-Control-Allow-Headers", "authorization, x-client-info, apikey, content-type"),
    ("Access-Control-Allow-Methods", "GET,POST,PATCH,OPTIONS")
  ]

  /** The header map that setting the entries one after another produces. */
  function HeadersOf(entries: seq<(string, string)>): map<string, string>
    decreases |entries|
  {
    if |entries| == 0 then map[]
    else
      var last := entries[|entries| - 1];
      HeadersOf(entries[..|entries| - 1])[last.0 := last.1]
  }

  const CorsHeaders: map<string, string> := map[
    "Access-Control-Allow-Origin" := "*",
    "Access-Control-Allow-Headers" := "authorization, x-client-info, apikey, content-type",
    "Access-Control-Allow-Methods" := "GET,POST,PATCH,OPTIONS"
  ]

  /** The entries set exactly the three CORS headers, none of them a
      content type; setting them again changes nothing. */
  lemma CorsHeadersExact(h: map<string, string>)
    ensures HeadersOf(CorsEntries) == CorsHeaders
    ensures CorsHeaders.Keys == {"Access-Control-Allow-Origin", "Access-Control-Allow-Headers", "Access-Control-Allow-Methods"}
    ensures (h + CorsHeaders) + CorsHeaders == h + CorsHeaders
  {
    assert CorsEntries[..1][..0] == [];
    assert HeadersOf(CorsEntries[..1]) == map[CorsEntries[0].0 := CorsEntries[0].1];
    assert CorsEntries[..2][..1] == CorsEntries[..1];
    assert HeadersOf(CorsEntries[..2]) == HeadersOf(CorsEntries[..1])[CorsEntries[1].0 := CorsEntries[1].1];
    assert CorsEntries[..3][..2] == CorsEntries[..2];
    assert CorsEntries[..3] == CorsEntries;
    assert HeadersOf(CorsEntries) == HeadersOf(CorsEntries[..2])[CorsEntries[2].0 := CorsEntries[2].1];
  }

  /** The content type `res.json` sets when none is set yet. */
  const JsonContentType: string := "application/json; charset=utf-8"

  /** The headers after `res.json`: a `Content-Type` already set is kept. */
  function WithJsonType(h: map<string, string>): (r: map<string, string>)
    ensures "Content-Type" in h ==> r == h
    ensures "Content-Type" !in h ==> r.Keys == h.Keys + {"Content-Type"} && r["Content-Type"] == JsonContentType
    ensures forall k :: k in h ==> k in r && r[k] == h[k]
  {
    if "Content-Type" in h then h else h["Content-Type" := JsonContentType]
  }

  /** The headers of every JSON response a Vercel handler writes. */
  const JsonReplyHeaders: map<string, string> := CorsHeaders["Content-Type" := JsonContentType]

  /** A fresh response given the CORS headers and then written by `res.json`
      carries exactly the JSON reply headers. */
  lemma CorsThenJson()
    ensures map[] + CorsHeaders == CorsHeaders
    ensures WithJsonType(CorsHeaders) == JsonReplyHeaders
    ensures "Content-Type" !in CorsHeaders
  {
  }

  /** The incoming request as the handlers read it: `req.method` and `req.body`
      (`None` when the body is `undefined`). */
  datatype Request = Request(httpMethod: string, body: Option<Json>)

  /** `JSON.parse`: the parsed value, or `None` when it throws. */
  type JsonParser = string -> Option<Json>

  /** The response object of the Node runtime, written in place. */
  class ServerResponse {
    var statusCode: int
    var headers: map<string, string>
    var body: Body
    var finished: bool

    /** A response nothing has been written to yet. */
    predicate Unsent()
      reads this
    {
      statusCode == 200 && headers == map[] && body == Empty && !finished
    }

    constructor ()
      ensures Unsent()
    {
      statusCode, headers, body, finished := 200, map[], Empty, false;
    }

    /** `res.setHeader(name, value)` */
    method SetHeader(name: string, value: string)
      modifies this
      ensures headers == old(headers)[name := value]
      ensures statusCode == old(statusCode) && body == old(body) && finished == old(finished)
    {
      headers := headers[name := value];
    }

    /** `res.status(code)` */
    method Status(code: int)
      modifies this
      ensures statusCode == code
      ensures headers == old(headers) && body == old(body) && finished == old(finished)
    {
      statusCode := code;
    }

    /** `res.json(value)`: sets the JSON content type unless one is set,
        sends the body and ends the response. */
    method SendJson(value: Json)
      modifies this
      ensures body == JsonBody(value) && finished
      ensures statusCode == old(statusCode) && headers == WithJsonType(old(headers))
    {
      body, finished, headers := JsonBody(value), true, WithJsonType(headers);
    }

    /** `res.end()` */
    method End()
      modifies this
      ensures finished
      ensures statusCode == old(statusCode) && headers == old(headers) && body == old(body)
    {
      finished := true;
    }
  }

  /** `setCorsHeaders(res)`: sets each CORS entry in turn. */
  method SetCorsHeaders(res: ServerResponse)
    modifies res
    ensures res.headers == old(res.headers) + CorsHeaders
    ensures res.statusCode == old(res.statusCode) && res.body == old(res.body) && res.finished == old(res.finished)
  {
    for i := 0 to |CorsEntries|
      invariant res.headers == old(res.headers) + HeadersOf(CorsEntries[..i])
      invariant res.statusCode == old(res.statusCode) && res.body == old(res.body) && res.finished == old(res.finished)
    {
      assert CorsEntries[..i + 1][..i] == CorsEntries[..i];
      res.SetHeader(CorsEntries[i].0, CorsEntries[i].1);
    }
    CorsHeadersExact(old(res.headers));
    assert CorsEntries[..|CorsEntries|] == CorsEntries;
  }

  /** `handleOptions(req, res)`: answers a preflight with an empty 200. */
  method HandleOptions(httpMethod: string, res: ServerResponse) returns (handled: bool)
    modifies res
    ensures handled <==> httpMethod == "OPTIONS"
    ensures handled ==> res.headers == old(res.headers) + CorsHeaders && res.statusCode == 200
                        && res.body == old(res.body) && res.finished
    ensures !handled ==> res.headers == old(res.headers) && res.statusCode == old(res.statusCode)
                         && res.body == old(res.body) && res.finished == old(res.finished)
  {
    if httpMethod == "OPTIONS" {
      SetCorsHeaders(res);
      res.Status(200);
      res.End();
      return true;
    }
    return false;
  }

  /** `res.status(status).json(value)` */
  method Send(res: ServerResponse, status: int, value: Json)
    modifies res
    ensures res.statusCode == status && res.body == JsonBody(value) && res.finished
    ensures res.headers == WithJsonType(old(res.headers))
  {
    res.Status(status);
    res.SendJson(value);
  }

  /** `respondWithError(res, status, message)` */
  method RespondWithError(res: ServerResponse, status: int, message: string)
    modifies res
    ensures res.statusCode == status && res.body == JsonBody(ErrorEnvelope(message)) && res.finished
    ensures res.headers == WithJsonType(old(res.headers) + CorsHeaders)
  {
    SetCorsHeaders(res);
    Send(res, status, ErrorEnvelope(message));
  }

  /** `parseJsonBody(req)`: never fails; anything it cannot use becomes `{}`. */
  function ParseJsonBody(req: Option<Request>, parse: JsonParser): (r: Json)
    ensures req.None? || req.value.httpMethod == "GET" || !Truthy(req.value.body) ==> r == EmptyObject
    ensures req.Some? && req.value.httpMethod != "GET" && req.value.body.Some? && req.value.body.value.JStr? && req.value.body.value.s != ""
            ==> r == (match parse(req.value.body.value.s) case Some(v) => v case None => EmptyObject)
    ensures req.Some? && req.value.httpMethod != "GET" && Truthy(req.value.body) && !req.value.body.value.JStr?
            ==> r == req.value.body.value
  {
    if req.None? || req.value.httpMethod == "GET" then EmptyObject
    else match req.value.body
      case None => EmptyObject
      case Some(b) =>
        if !Truthy(Some(b)) then EmptyObject
        else if b.JStr? then (match parse(b.s) case Some(v) => v case None => EmptyObject)
        else b
  }

  const MethodNotAllowed: string := "Method not allowed"

  /** The response written by `respondWithError`. */
  function ErrorReply(status: int, message: string): Response {
    Response(status, JsonReplyHeaders, JsonBody(ErrorEnvelope(message)))
  }

  /** The response written after `setCorsHeaders` and `res.status(status).json(value)`. */
  function JsonReply(status: int, value: Json): Response {
    Response(status, JsonReplyHeaders, JsonBody(value))
  }

  /** How a Vercel handler answers the end of its `try` block: a 200 with the
      value, or `respondWithError` with the failure's own status. */
  function Answer(o: Outcome<Json>): Response {
    match o
    case Proceed(v) => JsonReply(200, v)
    case Fail(status, message) => ErrorReply(status, message)
  }

  /** A handler that ran its `try` block to the end. */
  function Finished(f: Flow): Exchange {
    Exchange(Value(Answer(f.outcome)), f.trace)
  }

  /** Writes the end of a `try` block once the CORS headers are set:
      `res.status(200).json(value)`, or `respondWithError` with the failure's
      status and message. */
  method Respond(res: ServerResponse, o: Outcome<Json>)
    requires res.headers == CorsHeaders
    modifies res
    ensures Delivered(res, Value(Answer(o)))
  {
    CorsHeadersExact(map[]);
    CorsThenJson();
    match o {
      case Proceed(v) => Send(res, 200, v);
      case Fail(status, message) => RespondWithError(res, status, message);
    }
  }

  /** The preflight response of `handleOptions`. */
  const PreflightReply: Response := Response(200, CorsHeaders, Empty)

  /** A response written before any upstream call. */
  function Early(r: Response): Exchange {
    Exchange(Value(r), [])
  }

  /** The state of the response object after a handler produced `r`: written
      and ended, or (when an exception escaped) carrying only the CORS headers. */
  predicate Delivered(res: ServerResponse, r: Eval<Response>)
    reads res
  {
    match r
    case Value(resp) =>
      res.finished && res.statusCode == resp.status && res.headers == resp.headers && res.body == resp.body
    case Thrown(_) =>
      !res.finished && res.statusCode == 200 && res.headers == CorsHeaders && res.body == Empty
  }

  /** The exception that escaped a handler, if any. */
  function Escaped(r: Eval<Response>): Option<string> {
    if r.Thrown? then Some(r.message) else None
  }
}
