/** What the Supabase edge functions (supabase/functions/<name>/index.ts) share:
    the request as they read it, their two CORS headers, and the JSON
    responses their `try` and `catch` blocks build. */
module Edge {
  import opened Js
  import opened Proxy
  import Http

  /** The incoming request: its method and the outcome of `await req.json()`,
      which throws on a body that is not JSON. */
  datatype EdgeRequest = EdgeRequest(httpMethod: string, json: Eval<Json>)

  /** The CORS headers of the edge functions; they name no allowed methods. */
  const EdgeCorsHeaders: map<string, string> := map[
    "Access-Control-Allow-Origin" := "*",
    "Access-Control-Allow-Headers" := "authorization, x-client-info, apikey, content-type"
  ]

  /** `{ ...corsHeaders, 'Content-Type': 'application/json' }` */
  const JsonHeaders: map<string, string> := EdgeCorsHeaders["Content-Type" := "application/json"]

  /** `new Response('ok', { headers: corsHeaders })` */
  const EdgePreflight: Response := Response(200, EdgeCorsHeaders, Text("ok"))

  /** `new Response(JSON.stringify(value), { status, headers: jsonHeaders })` */
  function EdgeJson(status: int, value: Json): Response {
    Response(status, JsonHeaders, JsonBody(value))
  }

  /** The `catch` block: any error becomes a 500 carrying its message. */
  function EdgeFailure(message: string): Response {
    EdgeJson(500, ErrorEnvelope(message))
  }

  /** How an edge function answers the end of its `try` block: a 200 with
      the value, or a 500 whatever status the failure would have had. */
  function EdgeAnswer(o: Outcome<Json>): Response {
    match o
    case Proceed(v) => EdgeJson(200, v)
    case Fail(_, message) => EdgeFailure(message)
  }

  /** `const { ... } = await req.json()`: the parsed body, or the error of a
      body that is not JSON, or the TypeError of destructuring `null`. */
  function BodyOf(json: Eval<Json>): (r: Eval<Json>)
    ensures json.Thrown? ==> r == json
    ensures json.Value? && json.get == JNull ==> r == Thrown(TypeErrorMessage)
    ensures json.Value? && json.get != JNull ==> r == json
  {
    var body :- json;
    if body == JNull then Thrown(TypeErrorMessage) else Value(body)
  }

  /** Statuses an edge function's error path can answer with when it turns
      every failure into a 500. */
  predicate SuccessOrFailure(x: Exchange) {
    x.response.Value? && (x.response.get.status == 200 || x.response.get.status == 500)
  }

  /** The preflight exchange: no upstream call. */
  const Preflighted: Exchange := Exchange(Value(EdgePreflight), [])

  /** An error thrown before any upstream call, answered by `catch`. */
  function Refused(message: string): Exchange {
    Exchange(Value(EdgeFailure(message)), [])
  }

  /** An edge function that ran its `try` block to the end. */
  function Settled(f: Flow): Exchange {
    Exchange(Value(EdgeAnswer(f.outcome)), f.trace)
  }

  /** The same end of a `try` block in the two deployments: the same JSON
      envelope; both send a JSON content type and the edge function's two
      CORS headers with the same values (Vercel adds the allowed methods and
      a charset); the status agrees on success and is 500 on every failure
      at the edge, where a Vercel handler keeps the failure's status. */
  lemma AnswersAgree(o: Outcome<Json>)
    ensures EdgeAnswer(o).body == Http.Answer(o).body
    ensures EdgeAnswer(o).headers == JsonHeaders && Http.Answer(o).headers == Http.JsonReplyHeaders
    ensures forall k :: k in EdgeCorsHeaders ==> k in Http.JsonReplyHeaders && Http.JsonReplyHeaders[k] == EdgeCorsHeaders[k]
    ensures JsonHeaders["Content-Type"] == "application/json" && Http.JsonReplyHeaders["Content-Type"] == Http.JsonContentType
    ensures o.Proceed? ==> EdgeAnswer(o).status == Http.Answer(o).status == 200
    ensures o.Fail? ==> EdgeAnswer(o).status == 500 && Http.Answer(o).status == o.status
  {
  }
}
