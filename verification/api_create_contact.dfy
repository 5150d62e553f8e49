/** The Vercel contact creation (api/create-hubspot-contact.ts): a POST with
    the new contact's fields, answered with HubSpot's id for it. */
module ApiCreateContact {
  import opened Js
  import opened Proxy
  import opened Http
  import opened HubSpot

  const RequiredFieldsMissing: string := "First name, last name, and email are required"

  /** The contact property map built from a request body. */
  function PropertiesOf(body: Json): map<string, Json> {
    ContactProperties(Field(body, "firstName"), Field(body, "lastName"), Field(body, "email"),
                      Field(body, "phone"), Field(body, "company"), Field(body, "jobTitle"))
  }

  /** The three fields the handler insists on are all truthy. */
  predicate HasRequiredFields(body: Json) {
    Truthy(Field(body, "firstName")) && Truthy(Field(body, "lastName")) && Truthy(Field(body, "email"))
  }

  /** The handler as a function of its inputs. The key is checked before the
      required fields, and each failed check answers without an upstream call. */
  function Handle(req: Request, parse: JsonParser, env: Env, upstream: Script): (x: Exchange)
    ensures req.httpMethod == "OPTIONS" ==> x == Early(PreflightReply)
    ensures req.httpMethod != "OPTIONS" && req.httpMethod != "POST" ==> x == Early(ErrorReply(405, MethodNotAllowed))
    ensures req.httpMethod == "POST" ==> (
      var body := ParseJsonBody(Some(req), parse);
      && (body == JNull ==> x == Exchange(Thrown(TypeErrorMessage), []))
      && (body != JNull && !Configured(env.hubspotApiKey) ==> x == Early(ErrorReply(500, HubSpotKeyMissing)))
      && (body != JNull && Configured(env.hubspotApiKey) && !HasRequiredFields(body) ==>
            x == Early(ErrorReply(400, RequiredFieldsMissing)))
      && (x.trace != [] <==> body != JNull && Configured(env.hubspotApiKey) && HasRequiredFields(body))
      && (x.trace != [] ==>
            && x.trace == [CreateContact(env.hubspotApiKey.value, PropertiesOf(body))]
            && x.response == Value(Answer(ContactCreated(upstream(0))))))
  {
    if req.httpMethod == "OPTIONS" then Early(PreflightReply)
    else if req.httpMethod != "POST" then Early(ErrorReply(405, MethodNotAllowed))
    else
      var body := ParseJsonBody(Some(req), parse);
      if body == JNull then Exchange(Thrown(TypeErrorMessage), [])
      else if !Configured(env.hubspotApiKey) then Early(ErrorReply(500, HubSpotKeyMissing))
      else if !HasRequiredFields(body) then Early(ErrorReply(400, RequiredFieldsMissing))
      else Finished(CreateContactFlow(env.hubspotApiKey.value, PropertiesOf(body), upstream))
  }

  /** Past validation the property map carries the three required names as
      given, and phone, company and job title exactly when they are truthy;
      it has no other keys. */
  lemma SentPropertiesExact(body: Json)
    requires HasRequiredFields(body)
    ensures var props := PropertiesOf(body);
      && {"firstname", "lastname", "email"} <= props.Keys <= {"firstname", "lastname", "email", "phone", "company", "jobtitle"}
      && props["firstname"] == Field(body, "firstName").value
      && props["lastname"] == Field(body, "lastName").value
      && props["email"] == Field(body, "email").value
      && ("phone" in props <==> Truthy(Field(body, "phone")))
      && ("company" in props <==> Truthy(Field(body, "company")))
      && ("jobtitle" in props <==> Truthy(Field(body, "jobTitle")))
  {
  }

  /** `handler(req, res)`: writes the response in place, returns the upstream
      calls it issued, and reports an exception that escaped it. */
  method Handler(req: Request, parse: JsonParser, env: Env, upstream: Script, res: ServerResponse)
    returns (trace: seq<Call>, escaped: Option<string>)
    requires res.Unsent()
    modifies res
    ensures Delivered(res, Handle(req, parse, env, upstream).response)
    ensures trace == Handle(req, parse, env, upstream).trace
    ensures escaped == Escaped(Handle(req, parse, env, upstream).response)
  {
    CorsHeadersExact(map[]);
    CorsThenJson();
    trace, escaped := [], None;
    var handled := HandleOptions(req.httpMethod, res);
    if handled {
      return;
    }
    SetCorsHeaders(res);
    if req.httpMethod != "POST" {
      RespondWithError(res, 405, MethodNotAllowed);
      return;
    }
    var body := ParseJsonBody(Some(req), parse);
    if body == JNull {
      escaped := Some(TypeErrorMessage);
      return;
    }
    var firstName, lastName, email := Field(body, "firstName"), Field(body, "lastName"), Field(body, "email");
    if !Configured(env.hubspotApiKey) {
      RespondWithError(res, 500, HubSpotKeyMissing);
      return;
    }
    if !Truthy(firstName) || !Truthy(lastName) || !Truthy(email) {
      RespondWithError(res, 400, RequiredFieldsMissing);
      return;
    }
    var properties := BuildContactProperties(firstName, lastName, email,
                                             Field(body, "phone"), Field(body, "company"), Field(body, "jobTitle"));
    trace := trace + [CreateContact(env.hubspotApiKey.value, properties)];
    Respond(res, ContactCreated(upstream(0)));
  }
}
