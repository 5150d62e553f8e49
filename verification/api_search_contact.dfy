/** The Vercel contact lookup (api/search-hubspot-contact.ts): a POST with an
    email and/or a phone, answered with the first matching HubSpot contact. */
module ApiSearchContact {
  import opened Js
  import opened Proxy
  import opened Http
  import opened HubSpot

  /** The handler as a function of its inputs. Validation runs in order
      (method, then key, then identifiers), and each failed check answers
      without any upstream call. */
  function Handle(req: Request, parse: JsonParser, env: Env, upstream: Script): (x: Exchange)
    ensures req.httpMethod == "OPTIONS" ==> x == Early(PreflightReply)
    ensures req.httpMethod != "OPTIONS" && req.httpMethod != "POST" ==> x == Early(ErrorReply(405, MethodNotAllowed))
    ensures req.httpMethod == "POST" ==> (
      var body := ParseJsonBody(Some(req), parse);
      var email, phone := Field(body, "email"), Field(body, "phone");
      && (body == JNull ==> x == Exchange(Thrown(TypeErrorMessage), []))
      && (body != JNull && !Configured(env.hubspotApiKey) ==> x == Early(ErrorReply(500, HubSpotKeyMissing)))
      && (body != JNull && Configured(env.hubspotApiKey) && !Truthy(email) && !Truthy(phone) ==>
            x == Early(ErrorReply(400, IdentifierRequired)))
      && (x.trace != [] <==> body != JNull && Configured(env.hubspotApiKey) && (Truthy(email) || Truthy(phone)))
      && (x.trace != [] ==>
            && x.trace == [SearchContacts(env.hubspotApiKey.value, FilterGroups(Filters(email, phone)), ContactSearchProperties)]
            && x.response == Value(Answer(SearchOutcome(upstream(0))))))
  {
    if req.httpMethod == "OPTIONS" then Early(PreflightReply)
    else if req.httpMethod != "POST" then Early(ErrorReply(405, MethodNotAllowed))
    else
      var body := ParseJsonBody(Some(req), parse);
      if body == JNull then Exchange(Thrown(TypeErrorMessage), [])
      else
        var email, phone := Field(body, "email"), Field(body, "phone");
        if !Configured(env.hubspotApiKey) then Early(ErrorReply(500, HubSpotKeyMissing))
        else
          var filters := Filters(email, phone);
          if |filters| == 0 then Early(ErrorReply(400, IdentifierRequired))
          else Finished(SearchFlow(env.hubspotApiKey.value, filters, upstream))
  }

  /** An upstream failure reaches the caller with the upstream's own status;
      an empty result is a 200 with the not-found envelope. */
  lemma StatusPropagated(req: Request, parse: JsonParser, env: Env, upstream: Script)
    requires Handle(req, parse, env, upstream).trace != []
    ensures var x := Handle(req, parse, env, upstream);
      && (upstream(0).NotOk? ==> x.response == Value(ErrorReply(upstream(0).status, UpstreamMessage(upstream(0).message, SearchFailed))))
      && (upstream(0).Throws? ==> x.response == Value(ErrorReply(500, upstream(0).reason)))
      && (upstream(0).Ok? && upstream(0).body != JNull && !HasItems(Field(upstream(0).body, "results")) ==>
            x.response == Value(JsonReply(200, NotFoundEnvelope)))
  {
  }

  /** `handler(req, res)`: writes the response in place, returns the upstream
      calls it issued, and reports an exception that escaped it. */
  method Handler(req: Request, parse: JsonParser, env: Env, upstream: Script, res: ServerResponse)
    returns (trace: seq<Call>, escaped: Option<string>)
    requires res.Unsent()
    modifies res
    ensures Delivered(res, Handle(req, parse, env, upstream).response)
    ensures trace == Handle(req, parse, env, upstream).trace
    ensures escaped == Escaped(Handle(req, parse, env, upstream).response)
  {
    CorsHeadersExact(map[]);
    CorsThenJson();
    trace, escaped := [], None;
    var handled := HandleOptions(req.httpMethod, res);
    if handled {
      return;
    }
    SetCorsHeaders(res);
    if req.httpMethod != "POST" {
      RespondWithError(res, 405, MethodNotAllowed);
      return;
    }
    var body := ParseJsonBody(Some(req), parse);
    if body == JNull {
      escaped := Some(TypeErrorMessage);
      return;
    }
    var email, phone := Field(body, "email"), Field(body, "phone");
    if !Configured(env.hubspotApiKey) {
      RespondWithError(res, 500, HubSpotKeyMissing);
      return;
    }
    var filters := BuildFilters(email, phone);
    if |filters| == 0 {
      RespondWithError(res, 400, IdentifierRequired);
      return;
    }
    trace := trace + [SearchContacts(env.hubspotApiKey.value, FilterGroups(filters), ContactSearchProperties)];
    Respond(res, SearchOutcome(upstream(0)));
  }
}
