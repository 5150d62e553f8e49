/** The edge contact creation (supabase/functions/create-hubspot-contact/index.ts):
    unlike the Vercel handler it checks no required fields, so a body without
    a name or email still reaches HubSpot. */
module EdgeCreateContact {
  import opened Js
  import opened Proxy
  import opened HubSpot
  import opened Edge
  import Http
  import ApiCreateContact

  /** The function as a function of its inputs: the body, then the key; past
      them one create call with the property map of the body. */
  function Handle(req: EdgeRequest, env: Env, upstream: Script): (x: Exchange)
    ensures req.httpMethod == "OPTIONS" ==> x == Preflighted
    ensures req.httpMethod != "OPTIONS" ==> SuccessOrFailure(x) && x.response.get.headers == JsonHeaders
    ensures req.httpMethod != "OPTIONS" && BodyOf(req.json).Thrown? ==> x == Refused(BodyOf(req.json).message)
    ensures req.httpMethod != "OPTIONS" && BodyOf(req.json).Value? ==> (
      var body := BodyOf(req.json).get;
      && (!Configured(env.hubspotApiKey) ==> x == Refused(HubSpotKeyMissing))
      && (Configured(env.hubspotApiKey) ==>
            && x.trace == [CreateContact(env.hubspotApiKey.value, ApiCreateContact.PropertiesOf(body))]
            && x.response == Value(EdgeAnswer(ContactCreated(upstream(0))))))
  {
    if req.httpMethod == "OPTIONS" then Preflighted
    else match BodyOf(req.json)
      case Thrown(m) => Refused(m)
      case Value(body) =>
        if !Configured(env.hubspotApiKey) then Refused(HubSpotKeyMissing)
        else Settled(CreateContactFlow(env.hubspotApiKey.value, ApiCreateContact.PropertiesOf(body), upstream))
  }

  /** The `serve` callback: returns its response and the upstream calls it issued. */
  method Serve(req: EdgeRequest, env: Env, upstream: Script) returns (resp: Response, trace: seq<Call>)
    ensures Exchange(Value(resp), trace) == Handle(req, env, upstream)
  {
    trace := [];
    if req.httpMethod == "OPTIONS" {
      return EdgePreflight, trace;
    }
    var json := BodyOf(req.json);
    if json.Thrown? {
      return EdgeFailure(json.message), trace;
    }
    if !Configured(env.hubspotApiKey) {
      return EdgeFailure(HubSpotKeyMissing), trace;
    }
    var body := json.get;
    var properties := BuildContactProperties(Field(body, "firstName"), Field(body, "lastName"), Field(body, "email"),
                                             Field(body, "phone"), Field(body, "company"), Field(body, "jobTitle"));
    trace := trace + [CreateContact(env.hubspotApiKey.value, properties)];
    resp := EdgeAnswer(ContactCreated(upstream(0)));
  }

  /** Given the same POST body and a configured key: when the body has a
      first name, last name and email, both deployments send the same create
      call and the same JSON envelope; when it lacks one, Vercel refuses with
      400 and no call, while the edge function still creates the contact. */
  lemma AgreesWithVercelOnlyWhenComplete(req: Http.Request, parse: Http.JsonParser, edgeReq: EdgeRequest, env: Env, upstream: Script)
    requires req.httpMethod == "POST" && edgeReq.httpMethod == "POST"
    requires Http.ParseJsonBody(Some(req), parse) != JNull
    requires edgeReq.json == Value(Http.ParseJsonBody(Some(req), parse))
    requires Configured(env.hubspotApiKey)
    ensures var v, e := ApiCreateContact.Handle(req, parse, env, upstream), Handle(edgeReq, env, upstream);
      var body := Http.ParseJsonBody(Some(req), parse);
      && v.response.Value?
      && e.trace == [CreateContact(env.hubspotApiKey.value, ApiCreateContact.PropertiesOf(body))]
      && (ApiCreateContact.HasRequiredFields(body) ==>
            && v.trace == e.trace
            && e.response.get.body == v.response.get.body
            && (e.response.get.status != v.response.get.status ==> e.response.get.status == 500))
      && (!ApiCreateContact.HasRequiredFields(body) ==>
            v == Http.Early(Http.ErrorReply(400, ApiCreateContact.RequiredFieldsMissing)))
  {
    AnswersAgree(ContactCreated(upstream(0)));
  }
}
