/** The edge ticket lookup (supabase/functions/fetch-trengo-ticket/index.ts).
    Its errors are a bare `{ error }` object; it keeps the status of a
    non-ok Trengo reply and of a missing ticket id, and falls back to the
    requested id with `||`. */
module EdgeTrengoTicket {
  import opened Js
  import opened Proxy
  import opened Trengo
  import opened Edge
  import ApiTrengoTicket

  /** `new Response(null, { headers: corsHeaders })` */
  const TicketPreflight: Response := Response(200, EdgeCorsHeaders, Empty)

  /** `{ error: message }` with the JSON headers. */
  function BareError(status: int, message: string): Response {
    EdgeJson(status, JObj(map["error" := JStr(message)]))
  }

  /** The contact details of a fetched ticket; `ticketData.id || ticketId`
      falls back to the requested id whenever the upstream id is falsy. */
  function TicketOutcome(reply: Reply, ticketId: Json): (o: Outcome<Json>)
    ensures reply.NotOk? ==> o == Fail(reply.status, TicketFetchFailed)
    ensures reply.Throws? ==> o == Fail(500, reply.reason)
    ensures reply.Ok? && ContactInfo(reply.body).Thrown? ==> o == Fail(500, ContactInfo(reply.body).message)
    ensures reply.Ok? && ContactInfo(reply.body).Value? ==> (
      var info := ContactInfo(reply.body).get;
      var upstreamId := Field(reply.body, "id");
      && o.Proceed? && o.value.JObj?
      && o.value.fields.Keys == ContactKeys + {"ticketId"}
      && (forall k :: k in ContactKeys ==> o.value.fields[k] == info[k])
      && o.value.fields["ticketId"] == (if Truthy(upstreamId) then upstreamId.value else ticketId))
  {
    var ticketData :- Fetched(reply);
    var contactInfo :- Caught(ContactInfo(ticketData));
    Proceed(JObj(contactInfo["ticketId" := OrElse(Field(ticketData, "id"), ticketId)]))
  }

  /** The `try` block's answer: the contact details with status 200, or a
      bare error with the failure's status. */
  function TicketAnswer(o: Outcome<Json>): Response {
    match o
    case Proceed(v) => EdgeJson(200, v)
    case Fail(status, message) => BareError(status, message)
  }

  /** The function as a function of its inputs: the body, then the ticket id
      (a 400), then the key (a 500), each answering without an upstream
      call; past them one GET of the ticket. */
  function Handle(req: EdgeRequest, env: Env, upstream: Script): (x: Exchange)
    ensures req.httpMethod == "OPTIONS" ==> x == Exchange(Value(TicketPreflight), [])
    ensures req.httpMethod != "OPTIONS" ==> x.response.Value? && x.response.get.headers == JsonHeaders
    ensures req.httpMethod != "OPTIONS" && BodyOf(req.json).Thrown? ==>
              x == Exchange(Value(BareError(500, BodyOf(req.json).message)), [])
    ensures req.httpMethod != "OPTIONS" && BodyOf(req.json).Value? ==> (
      var ticketId := Field(BodyOf(req.json).get, "ticketId");
      && (!Truthy(ticketId) ==> x == Exchange(Value(BareError(400, TicketIdRequired)), []))
      && (Truthy(ticketId) && !Configured(env.trengoApiKey) ==> x == Exchange(Value(BareError(500, TrengoKeyMissing)), []))
      && (x.trace != [] <==> Truthy(ticketId) && Configured(env.trengoApiKey))
      && (x.trace != [] ==>
            && x.trace == [GetTicket(env.trengoApiKey.value, ticketId.value)]
            && x.response == Value(TicketAnswer(TicketOutcome(upstream(0), ticketId.value)))))
  {
    if req.httpMethod == "OPTIONS" then Exchange(Value(TicketPreflight), [])
    else match BodyOf(req.json)
      case Thrown(m) => Exchange(Value(BareError(500, m)), [])
      case Value(body) =>
        var ticketId := Field(body, "ticketId");
        if !Truthy(ticketId) then Exchange(Value(BareError(400, TicketIdRequired)), [])
        else if !Configured(env.trengoApiKey) then Exchange(Value(BareError(500, TrengoKeyMissing)), [])
        else Exchange(Value(TicketAnswer(TicketOutcome(upstream(0), ticketId.value))),
                      [GetTicket(env.trengoApiKey.value, ticketId.value)])
  }

  /** The two deployments read a ticket reply alike, except for `ticketId`:
      they fail in the same cases with the same status and message, return
      the same contact details, and differ on the id exactly when Trengo
      returns a falsy id that is not `null` (`0`, `''`, `false`) other than
      the requested one, which Vercel keeps and the edge function replaces
      with the requested id. */
  lemma {:induction false} TicketIdFallback(reply: Reply, ticketId: Json)
    ensures var v, e := ApiTrengoTicket.TicketOutcome(reply, ticketId), TicketOutcome(reply, ticketId);
      && (v.Fail? <==> e.Fail?)
      && (v.Fail? ==> v == e)
      && (v.Proceed? ==>
            var upstreamId := Field(reply.body, "id");
            && v.value.fields.Keys == e.value.fields.Keys
            && (forall k :: k in ContactKeys ==> v.value.fields[k] == e.value.fields[k])
            && (v.value.fields["ticketId"] != e.value.fields["ticketId"] <==>
                  !Nullish(upstreamId) && !Truthy(upstreamId) && upstreamId.value != ticketId)
            && (v.value.fields["ticketId"] != e.value.fields["ticketId"] ==>
                  v.value.fields["ticketId"] == upstreamId.value && e.value.fields["ticketId"] == ticketId))
  {
    if reply.Ok? && ContactInfo(reply.body).Value? {
      assert "ticketId" in ContactKeys + {"ticketId"};
    }
  }
}
