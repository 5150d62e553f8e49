/** The Vercel lifecycle update (api/update-hubspot-lifecycle.ts): finds a
    contact by email or phone, then sets its lifecycle stage. */
module ApiUpdateLifecycle {
  import opened Js
  import opened Proxy
  import opened Http
  import opened HubSpot

  /** The handler as a function of its inputs. The checks run in order (key,
      then lifecycle stage, then identifiers), each answering without an
      upstream call; past them the search-then-PATCH flow runs. */
  function Handle(req: Request, parse: JsonParser, env: Env, upstream: Script): (x: Exchange)
    ensures req.httpMethod == "OPTIONS" ==> x == Early(PreflightReply)
    ensures req.httpMethod != "OPTIONS" && req.httpMethod != "POST" ==> x == Early(ErrorReply(405, MethodNotAllowed))
    ensures req.httpMethod == "POST" ==> (
      var body := ParseJsonBody(Some(req), parse);
      var email, phone, stage := Field(body, "email"), Field(body, "phone"), Field(body, "lifecycleStage");
      && (body == JNull ==> x == Exchange(Thrown(TypeErrorMessage), []))
      && (body != JNull && !Configured(env.hubspotApiKey) ==> x == Early(ErrorReply(500, HubSpotKeyMissing)))
      && (body != JNull && Configured(env.hubspotApiKey) && !Truthy(stage) ==> x == Early(ErrorReply(400, StageRequired)))
      && (body != JNull && Configured(env.hubspotApiKey) && Truthy(stage) && !Truthy(email) && !Truthy(phone) ==>
            x == Early(ErrorReply(400, IdentifierRequired)))
      && (x.trace != [] <==> body != JNull && Configured(env.hubspotApiKey) && Truthy(stage) && (Truthy(email) || Truthy(phone)))
      && (x.trace != [] ==> x == Finished(LifecycleFlow(env.hubspotApiKey.value, Filters(email, phone), stage.value, upstream))))
  {
    if req.httpMethod == "OPTIONS" then Early(PreflightReply)
    else if req.httpMethod != "POST" then Early(ErrorReply(405, MethodNotAllowed))
    else
      var body := ParseJsonBody(Some(req), parse);
      if body == JNull then Exchange(Thrown(TypeErrorMessage), [])
      else
        var email, phone, stage := Field(body, "email"), Field(body, "phone"), Field(body, "lifecycleStage");
        if !Configured(env.hubspotApiKey) then Early(ErrorReply(500, HubSpotKeyMissing))
        else if !Truthy(stage) then Early(ErrorReply(400, StageRequired))
        else
          var filters := Filters(email, phone);
          if |filters| == 0 then Early(ErrorReply(400, IdentifierRequired))
          else Finished(LifecycleFlow(env.hubspotApiKey.value, filters, stage.value, upstream))
  }

  /** How the two replies are answered: a non-ok search keeps its status and
      issues no PATCH, an empty search is a 404 with no PATCH, and a PATCH
      reply is answered with its own status or the id it returns. */
  lemma TwoStepOutcome(req: Request, parse: JsonParser, env: Env, upstream: Script)
    requires Handle(req, parse, env, upstream).trace != []
    ensures var x := Handle(req, parse, env, upstream);
      && 1 <= |x.trace| <= 2
      && (forall c :: c in x.trace ==> !c.CreateContact?)
      && (upstream(0).NotOk? ==> |x.trace| == 1 && x.response == Value(ErrorReply(upstream(0).status, UpstreamMessage(upstream(0).message, SearchFailed))))
      && (upstream(0).Ok? && upstream(0).body != JNull && Lacking(Field(upstream(0).body, "results")) ==>
            |x.trace| == 1 && x.response == Value(ErrorReply(404, ContactNotFound)))
      && (|x.trace| == 2 && upstream(1).NotOk? ==>
            x.response == Value(ErrorReply(upstream(1).status, UpstreamMessage(upstream(1).message, UpdateLifecycleFailed))))
      && (|x.trace| == 2 && upstream(1).Ok? && upstream(1).body != JNull ==>
            x.response == Value(JsonReply(200, LifecycleUpdatedEnvelope(Field(upstream(1).body, "id")))))
  {
  }

  /** `handler(req, res)`: writes the response in place, returns the upstream
      calls it issued, and reports an exception that escaped it. */
  method Handler(req: Request, parse: JsonParser, env: Env, upstream: Script, res: ServerResponse)
    returns (trace: seq<Call>, escaped: Option<string>)
    requires res.Unsent()
    modifies res
    ensures Delivered(res, Handle(req, parse, env, upstream).response)
    ensures trace == Handle(req, parse, env, upstream).trace
    ensures escaped == Escaped(Handle(req, parse, env, upstream).response)
  {
    CorsHeadersExact(map[]);
    CorsThenJson();
    trace, escaped := [], None;
    var handled := HandleOptions(req.httpMethod, res);
    if handled {
      return;
    }
    SetCorsHeaders(res);
    if req.httpMethod != "POST" {
      RespondWithError(res, 405, MethodNotAllowed);
      return;
    }
    var body := ParseJsonBody(Some(req), parse);
    if body == JNull {
      escaped := Some(TypeErrorMessage);
      return;
    }
    var email, phone, lifecycleStage := Field(body, "email"), Field(body, "phone"), Field(body, "lifecycleStage");
    if !Configured(env.hubspotApiKey) {
      RespondWithError(res, 500, HubSpotKeyMissing);
      return;
    }
    if !Truthy(lifecycleStage) {
      RespondWithError(res, 400, StageRequired);
      return;
    }
    var filters := BuildFilters(email, phone);
    if |filters| == 0 {
      RespondWithError(res, 400, IdentifierRequired);
      return;
    }
    var outcome;
    outcome, trace := RunLifecycle(env.hubspotApiKey.value, filters, lifecycleStage.value, upstream);
    Respond(res, outcome);
  }
}
