/** The Vercel deal creation (api/create-hubspot-deal.ts): creates a deal and,
    when the given email finds a contact, associates the two. */
module ApiCreateDeal {
  import opened Js
  import opened Proxy
  import opened Http
  import opened HubSpot

  const DealFieldsMissing: string := "dealName, amount, pipeline, and stage are required"

  /** The four fields the handler insists on are all truthy. */
  predicate HasRequiredFields(body: Json) {
    Truthy(Field(body, "dealName")) && Truthy(Field(body, "amount")) && Truthy(Field(body, "pipeline")) && Truthy(Field(body, "stage"))
  }

  /** The handler as a function of its inputs. The deals key is checked before
      the contacts key, both before the body is read, and the required fields
      after it; each failed check answers without an upstream call. */
  function Handle(req: Request, parse: JsonParser, env: Env, millis: DateToMillis, upstream: Script): (x: Exchange)
    ensures req.httpMethod == "OPTIONS" ==> x == Early(PreflightReply)
    ensures req.httpMethod != "OPTIONS" && req.httpMethod != "POST" ==> x == Early(ErrorReply(405, MethodNotAllowed))
    ensures req.httpMethod == "POST" && !Configured(env.hubspotDealsApiKey) ==> x == Early(ErrorReply(500, DealsKeyMissing))
    ensures req.httpMethod == "POST" && Configured(env.hubspotDealsApiKey) && !Configured(env.hubspotApiKey) ==>
              x == Early(ErrorReply(500, HubSpotKeyMissing))
    ensures req.httpMethod == "POST" && Configured(env.hubspotDealsApiKey) && Configured(env.hubspotApiKey) ==> (
      var body := ParseJsonBody(Some(req), parse);
      && (body == JNull ==> x == Exchange(Thrown(TypeErrorMessage), []))
      && (body != JNull && !HasRequiredFields(body) ==> x == Early(ErrorReply(400, DealFieldsMissing)))
      && (body != JNull && HasRequiredFields(body) ==>
            x == Finished(DealFlow(env.hubspotApiKey.value, env.hubspotDealsApiKey.value, body, millis, upstream))))
    ensures x.trace != [] <==> req.httpMethod == "POST" && Configured(env.hubspotDealsApiKey) && Configured(env.hubspotApiKey)
                               && ParseJsonBody(Some(req), parse) != JNull && HasRequiredFields(ParseJsonBody(Some(req), parse))
  {
    if req.httpMethod == "OPTIONS" then Early(PreflightReply)
    else if req.httpMethod != "POST" then Early(ErrorReply(405, MethodNotAllowed))
    else if !Configured(env.hubspotDealsApiKey) then Early(ErrorReply(500, DealsKeyMissing))
    else if !Configured(env.hubspotApiKey) then Early(ErrorReply(500, HubSpotKeyMissing))
    else
      var body := ParseJsonBody(Some(req), parse);
      if body == JNull then Exchange(Thrown(TypeErrorMessage), [])
      else if !HasRequiredFields(body) then Early(ErrorReply(400, DealFieldsMissing))
      else Finished(DealFlow(env.hubspotApiKey.value, env.hubspotDealsApiKey.value, body, millis, upstream))
  }

  /** A failed create keeps the upstream status and message (or the fallback);
      a non-ok association still answers 200 with the new deal's id. */
  lemma CreateFatalAssociationSoft(req: Request, parse: JsonParser, env: Env, millis: DateToMillis, upstream: Script)
    requires Handle(req, parse, env, millis, upstream).trace != []
    ensures var x := Handle(req, parse, env, millis, upstream);
      var body := ParseJsonBody(Some(req), parse);
      var n := |LookupCalls(env.hubspotApiKey.value, Field(body, "contactEmail"))|;
      && (LookedUpContact(Field(body, "contactEmail"), upstream).Value? && upstream(n).NotOk? ==>
            |x.trace| == n + 1
            && x.response == Value(ErrorReply(upstream(n).status, UpstreamMessage(upstream(n).message, CreateDealFailed))))
      && (|x.trace| == n + 2 && upstream(n + 1).NotOk? ==>
            x.response == Value(JsonReply(200, DealCreatedEnvelope(DealId(upstream(n)).value))))
  {
    var body := ParseJsonBody(Some(req), parse);
    DealPolicy(env.hubspotApiKey.value, env.hubspotDealsApiKey.value, body, millis, upstream);
  }

  /** `handler(req, res)`: writes the response in place, returns the upstream
      calls it issued, and reports an exception that escaped it. */
  method Handler(req: Request, parse: JsonParser, env: Env, millis: DateToMillis, upstream: Script, res: ServerResponse)
    returns (trace: seq<Call>, escaped: Option<string>)
    requires res.Unsent()
    modifies res
    ensures Delivered(res, Handle(req, parse, env, millis, upstream).response)
    ensures trace == Handle(req, parse, env, millis, upstream).trace
    ensures escaped == Escaped(Handle(req, parse, env, millis, upstream).response)
  {
    CorsHeadersExact(map[]);
    CorsThenJson();
    trace, escaped := [], None;
    var handled := HandleOptions(req.httpMethod, res);
    if handled {
      return;
    }
    SetCorsHeaders(res);
    if req.httpMethod != "POST" {
      RespondWithError(res, 405, MethodNotAllowed);
      return;
    }
    if !Configured(env.hubspotDealsApiKey) {
      RespondWithError(res, 500, DealsKeyMissing);
      return;
    }
    if !Configured(env.hubspotApiKey) {
      RespondWithError(res, 500, HubSpotKeyMissing);
      return;
    }
    var body := ParseJsonBody(Some(req), parse);
    if body == JNull {
      escaped := Some(TypeErrorMessage);
      return;
    }
    if !HasRequiredFields(body) {
      RespondWithError(res, 400, DealFieldsMissing);
      return;
    }
    var outcome;
    outcome, trace := RunDeal(env.hubspotApiKey.value, env.hubspotDealsApiKey.value, body, millis, upstream);
    Respond(res, outcome);
  }
}
