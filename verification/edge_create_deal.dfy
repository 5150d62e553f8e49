/** The edge deal creation (supabase/functions/create-hubspot-deal/index.ts):
    the Vercel deal flow, reached after reading the body and checking both
    keys, with no required-field check. */
module EdgeCreateDeal {
  import opened Js
  import opened Proxy
  import opened HubSpot
  import opened Edge
  import Http
  import ApiCreateDeal

  /** The function as a function of its inputs: the body, then the deals key,
      then the contacts key; past them the deal flow runs. */
  function Handle(req: EdgeRequest, env: Env, millis: DateToMillis, upstream: Script): (x: Exchange)
    ensures req.httpMethod == "OPTIONS" ==> x == Preflighted
    ensures req.httpMethod != "OPTIONS" ==> SuccessOrFailure(x) && x.response.get.headers == JsonHeaders
    ensures req.httpMethod != "OPTIONS" && BodyOf(req.json).Thrown? ==> x == Refused(BodyOf(req.json).message)
    ensures req.httpMethod != "OPTIONS" && BodyOf(req.json).Value? ==> (
      var body := BodyOf(req.json).get;
      && (!Configured(env.hubspotDealsApiKey) ==> x == Refused(DealsKeyMissing))
      && (Configured(env.hubspotDealsApiKey) && !Configured(env.hubspotApiKey) ==> x == Refused(HubSpotKeyMissing))
      && (Configured(env.hubspotDealsApiKey) && Configured(env.hubspotApiKey) ==>
            x == Settled(DealFlow(env.hubspotApiKey.value, env.hubspotDealsApiKey.value, body, millis, upstream))))
    ensures x.trace != [] <==> req.httpMethod != "OPTIONS" && BodyOf(req.json).Value?
                               && Configured(env.hubspotDealsApiKey) && Configured(env.hubspotApiKey)
  {
    if req.httpMethod == "OPTIONS" then Preflighted
    else match BodyOf(req.json)
      case Thrown(m) => Refused(m)
      case Value(body) =>
        if !Configured(env.hubspotDealsApiKey) then Refused(DealsKeyMissing)
        else if !Configured(env.hubspotApiKey) then Refused(HubSpotKeyMissing)
        else Settled(DealFlow(env.hubspotApiKey.value, env.hubspotDealsApiKey.value, body, millis, upstream))
  }

  /** The `serve` callback: returns its response and the upstream calls it issued. */
  method Serve(req: EdgeRequest, env: Env, millis: DateToMillis, upstream: Script) returns (resp: Response, trace: seq<Call>)
    ensures Exchange(Value(resp), trace) == Handle(req, env, millis, upstream)
  {
    trace := [];
    if req.httpMethod == "OPTIONS" {
      return EdgePreflight, trace;
    }
    var json := BodyOf(req.json);
    if json.Thrown? {
      return EdgeFailure(json.message), trace;
    }
    if !Configured(env.hubspotDealsApiKey) {
      return EdgeFailure(DealsKeyMissing), trace;
    }
    if !Configured(env.hubspotApiKey) {
      return EdgeFailure(HubSpotKeyMissing), trace;
    }
    var outcome;
    outcome, trace := RunDeal(env.hubspotApiKey.value, env.hubspotDealsApiKey.value, json.get, millis, upstream);
    resp := EdgeAnswer(outcome);
  }

  /** Given the same POST body, both keys and the four required fields, the
      two deployments issue the same lookup, create and association calls and
      send the same JSON envelope; a body lacking a required field is refused
      by Vercel with no call and still creates a deal here. */
  lemma AgreesWithVercelOnlyWhenComplete(req: Http.Request, parse: Http.JsonParser, edgeReq: EdgeRequest, env: Env,
                                          millis: DateToMillis, upstream: Script)
    requires req.httpMethod == "POST" && edgeReq.httpMethod == "POST"
    requires Http.ParseJsonBody(Some(req), parse) != JNull
    requires edgeReq.json == Value(Http.ParseJsonBody(Some(req), parse))
    requires Configured(env.hubspotApiKey) && Configured(env.hubspotDealsApiKey)
    ensures var v, e := ApiCreateDeal.Handle(req, parse, env, millis, upstream), Handle(edgeReq, env, millis, upstream);
      var body := Http.ParseJsonBody(Some(req), parse);
      && v.response.Value?
      && e.trace != []
      && (ApiCreateDeal.HasRequiredFields(body) ==>
            && v.trace == e.trace
            && e.response.get.body == v.response.get.body
            && (e.response.get.status != v.response.get.status ==> e.response.get.status == 500))
      && (!ApiCreateDeal.HasRequiredFields(body) ==>
            v == Http.Early(Http.ErrorReply(400, ApiCreateDeal.DealFieldsMissing)))
  {
    var body := Http.ParseJsonBody(Some(req), parse);
    AnswersAgree(DealFlow(env.hubspotApiKey.value, env.hubspotDealsApiKey.value, body, millis, upstream).outcome);
  }
}
