/** The edge contact lookup (supabase/functions/search-hubspot-contact/index.ts):
    the Vercel lookup's search and envelopes, with every failure thrown inside
    `try` and answered with a 500. */
module EdgeSearchContact {
  import opened Js
  import opened Proxy
  import opened HubSpot
  import opened Edge
  import Http
  import ApiSearchContact

  /** The function as a function of its inputs: the body is read first, then
      the key and the identifiers are checked, each failure answering without
      an upstream call. */
  function Handle(req: EdgeRequest, env: Env, upstream: Script): (x: Exchange)
    ensures req.httpMethod == "OPTIONS" ==> x == Preflighted
    ensures req.httpMethod != "OPTIONS" ==> SuccessOrFailure(x) && x.response.get.headers == JsonHeaders
    ensures req.httpMethod != "OPTIONS" && BodyOf(req.json).Thrown? ==> x == Refused(BodyOf(req.json).message)
    ensures req.httpMethod != "OPTIONS" && BodyOf(req.json).Value? ==> (
      var body := BodyOf(req.json).get;
      var email, phone := Field(body, "email"), Field(body, "phone");
      && (!Configured(env.hubspotApiKey) ==> x == Refused(HubSpotKeyMissing))
      && (Configured(env.hubspotApiKey) && !Truthy(email) && !Truthy(phone) ==> x == Refused(IdentifierRequired))
      && (x.trace != [] <==> Configured(env.hubspotApiKey) && (Truthy(email) || Truthy(phone)))
      && (x.trace != [] ==> x == Settled(SearchFlow(env.hubspotApiKey.value, Filters(email, phone), upstream))))
  {
    if req.httpMethod == "OPTIONS" then Preflighted
    else match BodyOf(req.json)
      case Thrown(m) => Refused(m)
      case Value(body) =>
        var email, phone := Field(body, "email"), Field(body, "phone");
        if !Configured(env.hubspotApiKey) then Refused(HubSpotKeyMissing)
        else
          var filters := Filters(email, phone);
          if |filters| == 0 then Refused(IdentifierRequired)
          else Settled(SearchFlow(env.hubspotApiKey.value, filters, upstream))
  }

  /** The `serve` callback: returns its response and the upstream calls it issued. */
  method Serve(req: EdgeRequest, env: Env, upstream: Script) returns (resp: Response, trace: seq<Call>)
    ensures Exchange(Value(resp), trace) == Handle(req, env, upstream)
  {
    trace := [];
    if req.httpMethod == "OPTIONS" {
      return EdgePreflight, trace;
    }
    var json := BodyOf(req.json);
    if json.Thrown? {
      return EdgeFailure(json.message), trace;
    }
    var email, phone := Field(json.get, "email"), Field(json.get, "phone");
    if !Configured(env.hubspotApiKey) {
      return EdgeFailure(HubSpotKeyMissing), trace;
    }
    var filters := BuildFilters(email, phone);
    if |filters| == 0 {
      return EdgeFailure(IdentifierRequired), trace;
    }
    trace := trace + [SearchContacts(env.hubspotApiKey.value, FilterGroups(filters), ContactSearchProperties)];
    resp := EdgeAnswer(SearchOutcome(upstream(0)));
  }

  /** Given the same POST body, the two deployments issue the same search and
      send the same JSON envelope, refusals included; where their statuses
      differ, the edge function answered 500. */
  lemma AgreesWithVercel(req: Http.Request, parse: Http.JsonParser, edgeReq: EdgeRequest, env: Env, upstream: Script)
    requires req.httpMethod == "POST" && edgeReq.httpMethod == "POST"
    requires Http.ParseJsonBody(Some(req), parse) != JNull
    requires edgeReq.json == Value(Http.ParseJsonBody(Some(req), parse))
    ensures var v, e := ApiSearchContact.Handle(req, parse, env, upstream), Handle(edgeReq, env, upstream);
      && v.response.Value?
      && e.trace == v.trace
      && e.response.get.body == v.response.get.body
      && (e.response.get.status != v.response.get.status ==> e.response.get.status == 500)
  {
    if ApiSearchContact.Handle(req, parse, env, upstream).trace != [] {
      AnswersAgree(SearchOutcome(upstream(0)));
    }
  }
}
