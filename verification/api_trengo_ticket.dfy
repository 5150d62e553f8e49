/** The Vercel ticket lookup (api/fetch-trengo-ticket.ts): a POST with a
    ticket id, answered with the ticket's contact details. */
module ApiTrengoTicket {
  import opened Js
  import opened Proxy
  import opened Http
  import opened Trengo

  /** The contact details of a fetched ticket; `ticketData.id ?? ticketId`
      keeps an upstream id of `0` or `''` and falls back to the requested id
      only when the upstream id is `null` or absent. */
  function TicketOutcome(reply: Reply, ticketId: Json): (o: Outcome<Json>)
    ensures reply.NotOk? ==> o == Fail(reply.status, TicketFetchFailed)
    ensures reply.Throws? ==> o == Fail(500, reply.reason)
    ensures reply.Ok? && ContactInfo(reply.body).Thrown? ==> o == Fail(500, ContactInfo(reply.body).message)
    ensures reply.Ok? && ContactInfo(reply.body).Value? ==> (
      var info := ContactInfo(reply.body).get;
      var upstreamId := Field(reply.body, "id");
      && o.Proceed? && o.value.JObj?
      && o.value.fields.Keys == ContactKeys + {"ticketId"}
      && (forall k :: k in ContactKeys ==> o.value.fields[k] == info[k])
      && o.value.fields["ticketId"] == (if Nullish(upstreamId) then ticketId else upstreamId.value))
  {
    var ticketData :- Fetched(reply);
    var contactInfo :- Caught(ContactInfo(ticketData));
    Proceed(JObj(contactInfo["ticketId" := Coalesce(Field(ticketData, "id"), ticketId)]))
  }

  /** The handler as a function of its inputs. A missing ticket id is checked
      before the key, and both answer without an upstream call. */
  function Handle(req: Request, parse: JsonParser, env: Env, upstream: Script): (x: Exchange)
    ensures req.httpMethod == "OPTIONS" ==> x == Early(PreflightReply)
    ensures req.httpMethod != "OPTIONS" && req.httpMethod != "POST" ==> x == Early(ErrorReply(405, MethodNotAllowed))
    ensures req.httpMethod == "POST" ==> (
      var body := ParseJsonBody(Some(req), parse);
      var ticketId := Field(body, "ticketId");
      && (body == JNull ==> x == Exchange(Thrown(TypeErrorMessage), []))
      && (body != JNull && !Truthy(ticketId) ==> x == Early(ErrorReply(400, TicketIdRequired)))
      && (body != JNull && Truthy(ticketId) && !Configured(env.trengoApiKey) ==> x == Early(ErrorReply(500, TrengoKeyMissing)))
      && (x.trace != [] <==> body != JNull && Truthy(ticketId) && Configured(env.trengoApiKey))
      && (x.trace != [] ==>
            && x.trace == [GetTicket(env.trengoApiKey.value, ticketId.value)]
            && x.response == Value(Answer(TicketOutcome(upstream(0), ticketId.value)))))
  {
    if req.httpMethod == "OPTIONS" then Early(PreflightReply)
    else if req.httpMethod != "POST" then Early(ErrorReply(405, MethodNotAllowed))
    else
      var body := ParseJsonBody(Some(req), parse);
      if body == JNull then Exchange(Thrown(TypeErrorMessage), [])
      else
        var ticketId := Field(body, "ticketId");
        if !Truthy(ticketId) then Early(ErrorReply(400, TicketIdRequired))
        else if !Configured(env.trengoApiKey) then Early(ErrorReply(500, TrengoKeyMissing))
        else
          Finished(Flow(TicketOutcome(upstream(0), ticketId.value), [GetTicket(env.trengoApiKey.value, ticketId.value)]))
  }

  /** `handler(req, res)`: writes the response in place, returns the upstream
      calls it issued, and reports an exception that escaped it. */
  method Handler(req: Request, parse: JsonParser, env: Env, upstream: Script, res: ServerResponse)
    returns (trace: seq<Call>, escaped: Option<string>)
    requires res.Unsent()
    modifies res
    ensures Delivered(res, Handle(req, parse, env, upstream).response)
    ensures trace == Handle(req, parse, env, upstream).trace
    ensures escaped == Escaped(Handle(req, parse, env, upstream).response)
  {
    CorsHeadersExact(map[]);
    CorsThenJson();
    trace, escaped := [], None;
    var handled := HandleOptions(req.httpMethod, res);
    if handled {
      return;
    }
    SetCorsHeaders(res);
    if req.httpMethod != "POST" {
      RespondWithError(res, 405, MethodNotAllowed);
      return;
    }
    var body := ParseJsonBody(Some(req), parse);
    if body == JNull {
      escaped := Some(TypeErrorMessage);
      return;
    }
    var ticketId := Field(body, "ticketId");
    if !Truthy(ticketId) {
      RespondWithError(res, 400, TicketIdRequired);
      return;
    }
    if !Configured(env.trengoApiKey) {
      RespondWithError(res, 500, TrengoKeyMissing);
      return;
    }
    trace := trace + [GetTicket(env.trengoApiKey.value, ticketId.value)];
    Respond(res, TicketOutcome(upstream(0), ticketId.value));
  }
}
