/** The edge lifecycle update (supabase/functions/update-hubspot-lifecycle/index.ts):
    the Vercel search-then-PATCH flow, with every failure, a contact not
    found included, answered with a 500. */
module EdgeUpdateLifecycle {
  import opened Js
  import opened Proxy
  import opened HubSpot
  import opened Edge
  import Http
  import ApiUpdateLifecycle

  /** The function as a function of its inputs: the body, then the key, the
      lifecycle stage and the identifiers, each failure answering without an
      upstream call; past them the search-then-PATCH flow runs. */
  function Handle(req: EdgeRequest, env: Env, upstream: Script): (x: Exchange)
    ensures req.httpMethod == "OPTIONS" ==> x == Preflighted
    ensures req.httpMethod != "OPTIONS" ==> SuccessOrFailure(x) && x.response.get.headers == JsonHeaders
    ensures req.httpMethod != "OPTIONS" && BodyOf(req.json).Thrown? ==> x == Refused(BodyOf(req.json).message)
    ensures req.httpMethod != "OPTIONS" && BodyOf(req.json).Value? ==> (
      var body := BodyOf(req.json).get;
      var email, phone, stage := Field(body, "email"), Field(body, "phone"), Field(body, "lifecycleStage");
      && (!Configured(env.hubspotApiKey) ==> x == Refused(HubSpotKeyMissing))
      && (Configured(env.hubspotApiKey) && !Truthy(stage) ==> x == Refused(StageRequired))
      && (Configured(env.hubspotApiKey) && Truthy(stage) && !Truthy(email) && !Truthy(phone) ==> x == Refused(IdentifierRequired))
      && (x.trace != [] <==> Configured(env.hubspotApiKey) && Truthy(stage) && (Truthy(email) || Truthy(phone)))
      && (x.trace != [] ==> x == Settled(LifecycleFlow(env.hubspotApiKey.value, Filters(email, phone), stage.value, upstream))))
  {
    if req.httpMethod == "OPTIONS" then Preflighted
    else match BodyOf(req.json)
      case Thrown(m) => Refused(m)
      case Value(body) =>
        var email, phone, stage := Field(body, "email"), Field(body, "phone"), Field(body, "lifecycleStage");
        if !Configured(env.hubspotApiKey) then Refused(HubSpotKeyMissing)
        else if !Truthy(stage) then Refused(StageRequired)
        else
          var filters := Filters(email, phone);
          if |filters| == 0 then Refused(IdentifierRequired)
          else Settled(LifecycleFlow(env.hubspotApiKey.value, filters, stage.value, upstream))
  }

  /** The `serve` callback: returns its response and the upstream calls it issued. */
  method Serve(req: EdgeRequest, env: Env, upstream: Script) returns (resp: Response, trace: seq<Call>)
    ensures Exchange(Value(resp), trace) == Handle(req, env, upstream)
  {
    trace := [];
    if req.httpMethod == "OPTIONS" {
      return EdgePreflight, trace;
    }
    var json := BodyOf(req.json);
    if json.Thrown? {
      return EdgeFailure(json.message), trace;
    }
    var email, phone, lifecycleStage := Field(json.get, "email"), Field(json.get, "phone"), Field(json.get, "lifecycleStage");
    if !Configured(env.hubspotApiKey) {
      return EdgeFailure(HubSpotKeyMissing), trace;
    }
    if !Truthy(lifecycleStage) {
      return EdgeFailure(StageRequired), trace;
    }
    var filters := BuildFilters(email, phone);
    if |filters| == 0 {
      return EdgeFailure(IdentifierRequired), trace;
    }
    var outcome;
    outcome, trace := RunLifecycle(env.hubspotApiKey.value, filters, lifecycleStage.value, upstream);
    resp := EdgeAnswer(outcome);
  }

  /** Given the same POST body, the two deployments issue the same search and
      PATCH and send the same JSON envelope; a search that finds nothing is a 404 on
      Vercel and a 500 here. */
  lemma AgreesWithVercel(req: Http.Request, parse: Http.JsonParser, edgeReq: EdgeRequest, env: Env, upstream: Script)
    requires req.httpMethod == "POST" && edgeReq.httpMethod == "POST"
    requires Http.ParseJsonBody(Some(req), parse) != JNull
    requires edgeReq.json == Value(Http.ParseJsonBody(Some(req), parse))
    ensures var v, e := ApiUpdateLifecycle.Handle(req, parse, env, upstream), Handle(edgeReq, env, upstream);
      && v.response.Value?
      && e.trace == v.trace
      && e.response.get.body == v.response.get.body
      && (e.response.get.status != v.response.get.status ==> e.response.get.status == 500)
      && (v.trace != [] && upstream(0).Ok? && upstream(0).body != JNull && Lacking(Field(upstream(0).body, "results")) ==>
            v.response.get == Http.ErrorReply(404, ContactNotFound) && e.response.get == EdgeFailure(ContactNotFound))
  {
    var v := ApiUpdateLifecycle.Handle(req, parse, env, upstream);
    if v.trace != [] {
      var body := Http.ParseJsonBody(Some(req), parse);
      var f := LifecycleFlow(env.hubspotApiKey.value, Filters(Field(body, "email"), Field(body, "phone")),
                             Field(body, "lifecycleStage").value, upstream);
      AnswersAgree(f.outcome);
    }
  }
}
