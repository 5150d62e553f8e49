/** Request shaping and reply projection for HubSpot, written once and used by
    both deployments: search filters, the contact projection, the property
    maps of a new contact and a new deal, the deal's contact lookup and the
    pipeline projection. */
module HubSpot {
  import opened Js
  import opened Proxy

  const IdentifierRequired: string := "Either email or phone is required"
  const ContactNotFound: string := "Contact not found in HubSpot"
  const SearchFailed: string := "Failed to search contact in HubSpot"
  const CreateContactFailed: string := "Failed to create contact in HubSpot"
  const UpdateLifecycleFailed: string := "Failed to update contact lifecycle in HubSpot"
  const CreateDealFailed: string := "Failed to create deal in HubSpot"
  const PipelinesFailed: string := "Failed to fetch deal pipelines from HubSpot"
  const StageRequired: string := "Lifecycle stage is required"
  const NoPipelines: string := "No deal pipelines found in HubSpot"

  /** The properties the contact lookup asks HubSpot to return. */
  const ContactSearchProperties: seq<string> := [
    "firstname", "lastname", "email", "phone", "company", "jobtitle",
    "lifecyclestage", "createdate", "lastmodifieddate", "hs_lead_status"
  ]

  /** The properties the lifecycle update's search asks for. */
  const LifecycleSearchProperties: seq<string> := ["email", "lifecyclestage"]

  /** The properties the deal's contact lookup asks for. */
  const DealContactSearchProperties: seq<string> := ["email"]

  /** The one association entry sent when linking a deal to a contact. */
  const DealToContact: seq<AssociationType> := [AssociationType("HUBSPOT_DEFINED", 3)]

  /** The filters for the identifiers that are present, email first, each an
      equality. */
  function Filters(email: Option<Json>, phone: Option<Json>): (filters: seq<Filter>)
    ensures |filters| == (if Truthy(email) then 1 else 0) + (if Truthy(phone) then 1 else 0)
    ensures Truthy(email) ==> filters[0] == Filter("email", "EQ", email.value)
    ensures Truthy(phone) ==> filters[|filters| - 1] == Filter("phone", "EQ", phone.value)
    ensures forall i :: 0 <= i < |filters| ==> filters[i].operator == "EQ"
  {
    (if Truthy(email) then [Filter("email", "EQ", email.value)] else [])
    + (if Truthy(phone) then [Filter("phone", "EQ", phone.value)] else [])
  }

  /** Builds the filters by pushing one per present identifier. */
  method BuildFilters(email: Option<Json>, phone: Option<Json>) returns (filters: seq<Filter>)
    ensures filters == Filters(email, phone)
  {
    filters := [];
    if Truthy(email) {
      filters := filters + [Filter("email", "EQ", email.value)];
    }
    if Truthy(phone) {
      filters := filters + [Filter("phone", "EQ", phone.value)];
    }
  }

  /** `filters.map(filter => ({ filters: [filter] }))`: one group per filter,
      so the search matches a contact that satisfies any one of them. */
  function FilterGroups(filters: seq<Filter>): (groups: seq<FilterGroup>)
    ensures |groups| == |filters|
    ensures forall i :: 0 <= i < |groups| ==> groups[i] == FilterGroup([filters[i]])
  {
    seq(|filters|, i requires 0 <= i < |filters| => FilterGroup([filters[i]]))
  }

  /** The search groups for an email and a phone: one singleton group per
      identifier present, email first, so both together mean "either". */
  lemma SearchGroupsAreDisjunctive(email: Option<Json>, phone: Option<Json>)
    ensures var groups := FilterGroups(Filters(email, phone));
      && (Truthy(email) && Truthy(phone) ==>
            groups == [FilterGroup([Filter("email", "EQ", email.value)]), FilterGroup([Filter("phone", "EQ", phone.value)])])
      && (Truthy(email) && !Truthy(phone) ==> groups == [FilterGroup([Filter("email", "EQ", email.value)])])
      && (!Truthy(email) && Truthy(phone) ==> groups == [FilterGroup([Filter("phone", "EQ", phone.value)])])
      && (!Truthy(email) && !Truthy(phone) ==> groups == [])
  {
  }

  /** Each output key of the contact projection, mapped to the HubSpot
      property it is read from. */
  const ContactRenames: map<string, string> := map[
    "firstName" := "firstname", "lastName" := "lastname", "email" := "email",
    "phone" := "phone", "company" := "company", "jobTitle" := "jobtitle",
    "lifecycleStage" := "lifecyclestage", "leadStatus" := "hs_lead_status",
    "createdDate" := "createdate", "lastModifiedDate" := "lastmodifieddate"
  ]

  /** The contact's properties under their output names, `''` standing in
      for an absent or empty value. */
  function RenamedProperties(p: Json): map<string, Json> {
    map out | out in ContactRenames :: OrElse(Field(p, ContactRenames[out]), JStr(""))
  }

  /** The projection of the first search result: its `id` (left out when it is
      `undefined`) and its renamed properties. Reading `contact.id` throws when
      there is no contact, and reading a property throws when the contact has
      no `properties`. */
  function ProjectContact(contact: Option<Json>): (r: Eval<Json>)
    ensures r.Thrown? <==> Nullish(contact) || Nullish(OptionalMember(contact, "properties"))
    ensures r.Value? ==> (
      var props := Field(contact.value, "properties").value;
      var id := Field(contact.value, "id");
      && r.get.JObj?
      && r.get.fields.Keys == ContactRenames.Keys + (if id.Some? then {"id"} else {})
      && (id.Some? ==> r.get.fields["id"] == id.value)
      && forall out :: out in ContactRenames ==> r.get.fields[out] == OrElse(Field(props, ContactRenames[out]), JStr("")))
  {
    if Nullish(contact) then Thrown(TypeErrorMessage)
    else
      var props := Field(contact.value, "properties");
      if Nullish(props) then Thrown(TypeErrorMessage)
      else
        assert "id" !in ContactRenames;
        Value(JObj(Put(RenamedProperties(props.value), "id", Field(contact.value, "id"))))
  }

  /** `{ success: true, contact }` */
  function FoundEnvelope(contact: Json): Json {
    JObj(map["success" := JBool(true), "contact" := contact])
  }

  const NotFoundEnvelope: Json := JObj(map["success" := JBool(false), "message" := JStr(ContactNotFound)])

  /** The body of a 200 reply to a contact search: the first result projected,
      or "not found" when there is no result. */
  function SearchEnvelope(data: Json): (r: Eval<Json>)
    ensures data == JNull ==> r.Thrown?
    ensures data != JNull && !HasItems(Field(data, "results")) ==> r == Value(NotFoundEnvelope)
    ensures data != JNull && HasItems(Field(data, "results")) ==>
      r == (match ProjectContact(First(Field(data, "results").value))
            case Value(c) => Value(FoundEnvelope(c))
            case Thrown(m) => Thrown(m))
  {
    var results :- Member(Some(data), "results");
    if HasItems(results) then
      var contact :- ProjectContact(First(results.value));
      Value(FoundEnvelope(contact))
    else
      Value(NotFoundEnvelope)
  }

  /** The property map of a new contact: the three required names as given (an
      `undefined` one is dropped by serialisation), and phone, company and job
      title only when truthy. */
  function ContactProperties(firstName: Option<Json>, lastName: Option<Json>, email: Option<Json>,
                             phone: Option<Json>, company: Option<Json>, jobTitle: Option<Json>): (props: map<string, Json>)
    ensures props.Keys <= {"firstname", "lastname", "email", "phone", "company", "jobtitle"}
    ensures ("firstname" in props <==> firstName.Some?) && (firstName.Some? ==> props["firstname"] == firstName.value)
    ensures ("lastname" in props <==> lastName.Some?) && (lastName.Some? ==> props["lastname"] == lastName.value)
    ensures ("email" in props <==> email.Some?) && (email.Some? ==> props["email"] == email.value)
    ensures ("phone" in props <==> Truthy(phone)) && (Truthy(phone) ==> props["phone"] == phone.value)
    ensures ("company" in props <==> Truthy(company)) && (Truthy(company) ==> props["company"] == company.value)
    ensures ("jobtitle" in props <==> Truthy(jobTitle)) && (Truthy(jobTitle) ==> props["jobtitle"] == jobTitle.value)
  {
    var required := Put(Put(Put(map[], "firstname", firstName), "lastname", lastName), "email", email);
    var withPhone := if Truthy(phone) then required["phone" := phone.value] else required;
    var withCompany := if Truthy(company) then withPhone["company" := company.value] else withPhone;
    if Truthy(jobTitle) then withCompany["jobtitle" := jobTitle.value] else withCompany
  }

  /** Builds the contact property map by conditional assignments. */
  method BuildContactProperties(firstName: Option<Json>, lastName: Option<Json>, email: Option<Json>,
                                phone: Option<Json>, company: Option<Json>, jobTitle: Option<Json>)
    returns (props: map<string, Json>)
    ensures props == ContactProperties(firstName, lastName, email, phone, company, jobTitle)
  {
    props := Put(Put(Put(map[], "firstname", firstName), "lastname", lastName), "email", email);
    if Truthy(phone) { props := props["phone" := phone.value]; }
    if Truthy(company) { props := props["company" := company.value]; }
    if Truthy(jobTitle) { props := props["jobtitle" := jobTitle.value]; }
  }

  /** `new Date(closeDate).getTime().toString()`, a foreign computation. */
  type DateToMillis = Json -> string

  /** The property map of a new deal: name, amount, stage and pipeline as given,
      the close date as milliseconds and the description only when truthy. */
  function DealProperties(dealName: Option<Json>, amount: Option<Json>, pipeline: Option<Json>, stage: Option<Json>,
                          closeDate: Option<Json>, description: Option<Json>, millis: DateToMillis): (props: map<string, Json>)
    ensures props.Keys <= {"dealname", "amount", "dealstage", "pipeline", "closedate", "description"}
    ensures ("dealname" in props <==> dealName.Some?) && (dealName.Some? ==> props["dealname"] == dealName.value)
    ensures ("amount" in props <==> amount.Some?) && (amount.Some? ==> props["amount"] == amount.value)
    ensures ("dealstage" in props <==> stage.Some?) && (stage.Some? ==> props["dealstage"] == stage.value)
    ensures ("pipeline" in props <==> pipeline.Some?) && (pipeline.Some? ==> props["pipeline"] == pipeline.value)
    ensures ("closedate" in props <==> Truthy(closeDate)) && (Truthy(closeDate) ==> props["closedate"] == JStr(millis(closeDate.value)))
    ensures ("description" in props <==> Truthy(description)) && (Truthy(description) ==> props["description"] == description.value)
  {
    var required := Put(Put(Put(Put(map[], "dealname", dealName), "amount", amount), "dealstage", stage), "pipeline", pipeline);
    var withDate := if Truthy(closeDate) then required["closedate" := JStr(millis(closeDate.value))] else required;
    if Truthy(description) then withDate["description" := description.value] else withDate
  }

  /** Builds the deal property map by conditional assignments. */
  method BuildDealProperties(dealName: Option<Json>, amount: Option<Json>, pipeline: Option<Json>, stage: Option<Json>,
                             closeDate: Option<Json>, description: Option<Json>, millis: DateToMillis)
    returns (props: map<string, Json>)
    ensures props == DealProperties(dealName, amount, pipeline, stage, closeDate, description, millis)
  {
    props := Put(Put(Put(Put(map[], "dealname", dealName), "amount", amount), "dealstage", stage), "pipeline", pipeline);
    if Truthy(closeDate) {
      var closeDateTime := millis(closeDate.value);
      props := props["closedate" := JStr(closeDateTime)];
    }
    if Truthy(description) { props := props["description" := description.value]; }
  }

  /** The deal's contact lookup: a search on the email alone, returning only the email. */
  function DealContactSearch(bearer: string, contactEmail: Json): Call {
    SearchContacts(bearer, [FilterGroup([Filter("email", "EQ", contactEmail)])], DealContactSearchProperties)
  }

  /** The `contactId` the deal flow holds after its lookup reply: the first
      result's id, or `null` when the search was not ok or found nothing. Only a
      rejected fetch, or reading from a `null` reply or result, throws. */
  function ResolvedContact(reply: Reply): (r: Eval<Option<Json>>)
    ensures reply.Throws? ==> r == Thrown(reply.reason)
    ensures reply.NotOk? ==> r == Value(Some(JNull))
    ensures reply.Ok? && reply.body == JNull ==> r == Thrown(TypeErrorMessage)
    ensures reply.Ok? && reply.body != JNull && !HasItems(Field(reply.body, "results")) ==> r == Value(Some(JNull))
    ensures reply.Ok? && reply.body != JNull && HasItems(Field(reply.body, "results")) ==>
      r == Member(First(Field(reply.body, "results").value), "id")
  {
    match reply
    case Throws(m) => Thrown(m)
    case NotOk(_, _) => Value(Some(JNull))
    case Ok(data) =>
      var results :- Member(Some(data), "results");
      if HasItems(results) then Member(First(results.value), "id") else Value(Some(JNull))
  }

  /** A stage of a pipeline, reduced to `id`, `label` and `displayOrder`. */
  function ProjectStage(stage: Json): (r: Eval<Json>)
    ensures r.Thrown? <==> stage == JNull
    ensures r.Value? ==> (
      && r.get.JObj? && r.get.fields.Keys <= {"id", "label", "displayOrder"}
      && (forall k :: k in {"id", "label", "displayOrder"} ==>
            (k in r.get.fields <==> Field(stage, k).Some?) && (k in r.get.fields ==> Some(r.get.fields[k]) == Field(stage, k))))
  {
    if stage == JNull then Thrown(TypeErrorMessage)
    else Value(JObj(Put(Put(Put(map[], "id", Field(stage, "id")), "label", Field(stage, "label")),
                        "displayOrder", Field(stage, "displayOrder"))))
  }

  /** `stages.map(...)`: the projected stages in the same order. */
  function ProjectStages(stages: seq<Json>): (r: Eval<seq<Json>>)
    ensures r.Thrown? <==> exists i :: 0 <= i < |stages| && stages[i] == JNull
    ensures r.Value? ==> |r.get| == |stages| && forall i :: 0 <= i < |stages| ==> ProjectStage(stages[i]) == Value(r.get[i])
    decreases |stages|
  {
    if |stages| == 0 then Value([])
    else
      var head :- ProjectStage(stages[0]);
      var tail :- ProjectStages(stages[1..]);
      assert forall i :: 1 <= i < |stages| ==> stages[i] == stages[1..][i - 1];
      Value([head] + tail)
  }

  /** A pipeline reduced to `id`, `label` and its projected `stages`; it throws
      when the pipeline is `null` or its `stages` is not an array. */
  function ProjectPipeline(pipeline: Json): (r: Eval<Json>)
    ensures r.Thrown? <==>
      || pipeline == JNull
      || !(Field(pipeline, "stages").Some? && Field(pipeline, "stages").value.JArr?)
      || ProjectStages(Field(pipeline, "stages").value.items).Thrown?
    ensures r.Value? ==> (
      && r.get.JObj? && r.get.fields.Keys <= {"id", "label", "stages"}
      && (("id" in r.get.fields <==> Field(pipeline, "id").Some?) && ("id" in r.get.fields ==> Some(r.get.fields["id"]) == Field(pipeline, "id")))
      && (("label" in r.get.fields <==> Field(pipeline, "label").Some?) && ("label" in r.get.fields ==> Some(r.get.fields["label"]) == Field(pipeline, "label")))
      && Field(pipeline, "stages").Some? && Field(pipeline, "stages").value.JArr?
      && "stages" in r.get.fields && r.get.fields["stages"].JArr?
      && ProjectStages(Field(pipeline, "stages").value.items) == Value(r.get.fields["stages"].items))
  {
    if pipeline == JNull then Thrown(TypeErrorMessage)
    else
      var stages := Field(pipeline, "stages");
      if stages.Some? && stages.value.JArr? then
        var projected :- ProjectStages(stages.value.items);
        Value(JObj(Put(Put(map["stages" := JArr(projected)], "id", Field(pipeline, "id")), "label", Field(pipeline, "label"))))
      else
        Thrown(TypeErrorMessage)
  }

  /** `results.map(...)`: the projected pipelines in the same order. */
  function ProjectPipelines(pipelines: seq<Json>): (r: Eval<seq<Json>>)
    ensures r.Value? ==> |r.get| == |pipelines| && forall i :: 0 <= i < |pipelines| ==> ProjectPipeline(pipelines[i]) == Value(r.get[i])
    ensures r.Thrown? <==> exists i :: 0 <= i < |pipelines| && ProjectPipeline(pipelines[i]).Thrown?
    decreases |pipelines|
  {
    if |pipelines| == 0 then Value([])
    else
      var head :- ProjectPipeline(pipelines[0]);
      var tail :- ProjectPipelines(pipelines[1..]);
      assert forall i :: 1 <= i < |pipelines| ==> pipelines[i] == pipelines[1..][i - 1];
      Value([head] + tail)
  }

  /** `pipelinesData.results.map(...)`: only an array has a `map` method. */
  function ProjectResults(results: Json): (r: Eval<seq<Json>>)
    ensures !results.JArr? ==> r == Thrown(TypeErrorMessage)
    ensures results.JArr? ==> r == ProjectPipelines(results.items)
  {
    if results.JArr? then ProjectPipelines(results.items) else Thrown(TypeErrorMessage)
  }

  /** The stage array of a pipeline, or no stages when it has none. */
  function StagesOf(pipeline: Json): seq<Json>
  {
    var stages := Field(pipeline, "stages");
    if stages.Some? && stages.value.JArr? then stages.value.items else []
  }

  /** Projecting the pipeline list keeps every pipeline and every stage in the
      order upstream sent them, and copies only `id`, `label` and
      `displayOrder` of a stage; no stage is reordered by its `displayOrder`. */
  lemma {:induction false} PipelineOrderPreserved(pipelines: seq<Json>)
    requires ProjectPipelines(pipelines).Value?
    ensures var out := ProjectPipelines(pipelines).get;
      && |out| == |pipelines|
      && (forall i :: 0 <= i < |pipelines| ==>
            && ProjectPipeline(pipelines[i]) == Value(out[i])
            && |StagesOf(out[i])| == |StagesOf(pipelines[i])|)
      && (forall i, j :: 0 <= i < |pipelines| && 0 <= j < |StagesOf(pipelines[i])| ==>
            ProjectStage(StagesOf(pipelines[i])[j]) == Value(StagesOf(out[i])[j]))
  {
    var out := ProjectPipelines(pipelines).get;
    forall i | 0 <= i < |pipelines|
      ensures |StagesOf(out[i])| == |StagesOf(pipelines[i])|
      ensures forall j :: 0 <= j < |StagesOf(pipelines[i])| ==>
                ProjectStage(StagesOf(pipelines[i])[j]) == Value(StagesOf(out[i])[j])
    {
      StagesPreserved(pipelines[i], out[i]);
    }
  }

  /** One projected pipeline keeps its stages in order. */
  lemma StagesPreserved(pipeline: Json, projected: Json)
    requires ProjectPipeline(pipeline) == Value(projected)
    ensures |StagesOf(projected)| == |StagesOf(pipeline)|
    ensures forall j :: 0 <= j < |StagesOf(pipeline)| ==>
              ProjectStage(StagesOf(pipeline)[j]) == Value(StagesOf(projected)[j])
  {
    assert ProjectStages(StagesOf(pipeline)) == Value(StagesOf(projected));
  }

  /** The contact lookup's reply, read: a failed search, or the found or
      not-found envelope (or the error the projection raised). */
  function SearchOutcome(reply: Reply): (o: Outcome<Json>)
    ensures reply.NotOk? ==> o == Fail(reply.status, UpstreamMessage(reply.message, SearchFailed))
    ensures reply.Throws? ==> o == Fail(500, reply.reason)
    ensures reply.Ok? && reply.body != JNull && !HasItems(Field(reply.body, "results")) ==> o == Proceed(NotFoundEnvelope)
    ensures reply.Ok? && reply.body == JNull ==> o == Fail(500, TypeErrorMessage)
    ensures reply.Ok? && reply.body != JNull && HasItems(Field(reply.body, "results")) ==>
      o == (match ProjectContact(First(Field(reply.body, "results").value))
            case Value(c) => Proceed(FoundEnvelope(c))
            case Thrown(m) => Fail(500, m))
    ensures o.Proceed? && o.value != NotFoundEnvelope ==> (
      && reply.Ok? && HasItems(Field(reply.body, "results"))
      && ProjectContact(First(Field(reply.body, "results").value)).Value?
      && o.value == FoundEnvelope(ProjectContact(First(Field(reply.body, "results").value)).get))
  {
    var data :- Received(reply, SearchFailed);
    Caught(SearchEnvelope(data))
  }

  /** The contact lookup once validated: one search with the OR-ed filter
      groups, answered from its reply. */
  function SearchFlow(bearer: string, filters: seq<Filter>, upstream: Script): Flow {
    Flow(SearchOutcome(upstream(0)), [SearchContacts(bearer, FilterGroups(filters), ContactSearchProperties)])
  }

  /** `{ success: true, contactId, message }` of a created contact. */
  function ContactCreatedEnvelope(id: Option<Json>): Json {
    JObj(Put(map["success" := JBool(true), "message" := JStr("Contact created successfully in HubSpot")], "contactId", id))
  }

  /** The create-contact reply, read: the new contact's id, where reading
      `contactData.id` throws on a `null` reply. */
  function ContactCreated(reply: Reply): (o: Outcome<Json>)
    ensures reply.Ok? && reply.body != JNull ==> o == Proceed(ContactCreatedEnvelope(Field(reply.body, "id")))
    ensures reply.Ok? && reply.body == JNull ==> o == Fail(500, TypeErrorMessage)
    ensures reply.NotOk? ==> o == Fail(reply.status, UpstreamMessage(reply.message, CreateContactFailed))
    ensures reply.Throws? ==> o == Fail(500, reply.reason)
  {
    var data :- Received(reply, CreateContactFailed);
    var id :- Caught(Member(Some(data), "id"));
    Proceed(ContactCreatedEnvelope(id))
  }

  /** The contact creation once validated: one create call with the property map. */
  function CreateContactFlow(bearer: string, properties: map<string, Json>, upstream: Script): Flow {
    Flow(ContactCreated(upstream(0)), [CreateContact(bearer, properties)])
  }

  /** The contact the lifecycle update patches: the first search result's id
      (`undefined` when it has none), once the search succeeded and found
      something; 404 when it found nothing. */
  function PatchTarget(reply: Reply): (o: Outcome<Option<Json>>)
    ensures o.Proceed? <==> reply.Ok? && reply.body != JNull && !Lacking(Field(reply.body, "results"))
                            && !Nullish(First(Field(reply.body, "results").value))
    ensures o.Proceed? ==> o.value == Field(First(Field(reply.body, "results").value).value, "id")
    ensures reply.Ok? && reply.body == JNull ==> o == Fail(500, TypeErrorMessage)
    ensures reply.Ok? && reply.body != JNull && Lacking(Field(reply.body, "results")) ==> o == Fail(404, ContactNotFound)
    ensures (reply.Ok? && reply.body != JNull && !Lacking(Field(reply.body, "results"))
             && Nullish(First(Field(reply.body, "results").value)))
            ==> o == Fail(500, TypeErrorMessage)
    ensures reply.NotOk? ==> o == Fail(reply.status, UpstreamMessage(reply.message, SearchFailed))
    ensures reply.Throws? ==> o == Fail(500, reply.reason)
  {
    var data :- Received(reply, SearchFailed);
    var results :- Caught(Member(Some(data), "results"));
    if Lacking(results) then Fail(404, ContactNotFound)
    else Caught(Member(First(results.value), "id"))
  }

  /** `{ success: true, contactId, message }` of an updated contact. */
  function LifecycleUpdatedEnvelope(id: Option<Json>): Json {
    JObj(Put(map["success" := JBool(true), "message" := JStr("Contact lifecycle updated successfully in HubSpot")], "contactId", id))
  }

  /** The PATCH reply, read: the id HubSpot returns for the updated contact. */
  function LifecycleUpdated(reply: Reply): (o: Outcome<Json>)
    ensures reply.Ok? && reply.body != JNull ==> o == Proceed(LifecycleUpdatedEnvelope(Field(reply.body, "id")))
    ensures reply.Ok? && reply.body == JNull ==> o == Fail(500, TypeErrorMessage)
    ensures reply.NotOk? ==> o == Fail(reply.status, UpstreamMessage(reply.message, UpdateLifecycleFailed))
    ensures reply.Throws? ==> o == Fail(500, reply.reason)
  {
    var updated :- Received(reply, UpdateLifecycleFailed);
    var id :- Caught(Member(Some(updated), "id"));
    Proceed(LifecycleUpdatedEnvelope(id))
  }

  /** The lifecycle update once validated: a search, then a PATCH of the
      contact it found that sets only `lifecyclestage`. It issues at most these
      two calls, never a create, and patches only after a successful,
      non-empty search. */
  function LifecycleFlow(bearer: string, filters: seq<Filter>, stage: Json, upstream: Script): (f: Flow)
    ensures 1 <= |f.trace| <= 2
    ensures f.trace[0] == SearchContacts(bearer, FilterGroups(filters), LifecycleSearchProperties)
    ensures forall c :: c in f.trace ==> c.SearchContacts? || c.UpdateContact?
    ensures |f.trace| == 2 <==> PatchTarget(upstream(0)).Proceed?
    ensures |f.trace| == 1 ==> f.outcome == PatchTarget(upstream(0)).PropagateFailure()
    ensures |f.trace| == 2 ==>
      && f.trace[1] == UpdateContact(bearer, PatchTarget(upstream(0)).value, map["lifecyclestage" := stage])
      && f.outcome == LifecycleUpdated(upstream(1))
  {
    var search := SearchContacts(bearer, FilterGroups(filters), LifecycleSearchProperties);
    match PatchTarget(upstream(0))
    case Fail(status, message) => Flow(Fail(status, message), [search])
    case Proceed(contactId) =>
      Flow(LifecycleUpdated(upstream(1)), [search, UpdateContact(bearer, contactId, map["lifecyclestage" := stage])])
  }

  /** The search-then-PATCH sequence, one call after the other. */
  method RunLifecycle(bearer: string, filters: seq<Filter>, stage: Json, upstream: Script)
    returns (outcome: Outcome<Json>, trace: seq<Call>)
    ensures Flow(outcome, trace) == LifecycleFlow(bearer, filters, stage, upstream)
  {
    trace := [SearchContacts(bearer, FilterGroups(filters), LifecycleSearchProperties)];
    var contactId :- PatchTarget(upstream(0));
    trace := trace + [UpdateContact(bearer, contactId, map["lifecyclestage" := stage])];
    outcome := LifecycleUpdated(upstream(|trace| - 1));
  }

  /** The deal property map from a request body. */
  function DealPropertiesOf(body: Json, millis: DateToMillis): map<string, Json> {
    DealProperties(Field(body, "dealName"), Field(body, "amount"), Field(body, "pipeline"), Field(body, "stage"),
                   Field(body, "closeDate"), Field(body, "description"), millis)
  }

  /** The best-effort contact lookup: issued only for a truthy email. */
  function LookupCalls(contactsBearer: string, contactEmail: Option<Json>): seq<Call> {
    if Truthy(contactEmail) then [DealContactSearch(contactsBearer, contactEmail.value)] else []
  }

  /** The `contactId` after the lookup: `null` when there was none. */
  function LookedUpContact(contactEmail: Option<Json>, upstream: Script): Eval<Option<Json>> {
    if Truthy(contactEmail) then ResolvedContact(upstream(0)) else Value(Some(JNull))
  }

  /** The create-deal reply, read: the new deal's id. */
  function DealId(reply: Reply): (o: Outcome<Option<Json>>)
    ensures reply.Ok? && reply.body != JNull ==> o == Proceed(Field(reply.body, "id"))
    ensures reply.Ok? && reply.body == JNull ==> o == Fail(500, TypeErrorMessage)
    ensures reply.NotOk? ==> o == Fail(reply.status, UpstreamMessage(reply.message, CreateDealFailed))
    ensures reply.Throws? ==> o == Fail(500, reply.reason)
  {
    var dealData :- Received(reply, CreateDealFailed);
    Caught(Member(Some(dealData), "id"))
  }

  /** `{ success: true, dealId, message }` */
  function DealCreatedEnvelope(id: Option<Json>): Json {
    JObj(Put(map["success" := JBool(true), "message" := JStr("Deal created successfully in HubSpot")], "dealId", id))
  }

  /** The deal creation once validated: the optional contact lookup, the deal
      create, and the association when a contact was found. */
  function DealFlow(contactsBearer: string, dealsBearer: string, body: Json, millis: DateToMillis, upstream: Script): (f: Flow)
    ensures 1 <= |f.trace| <= 3
  {
    var contactEmail := Field(body, "contactEmail");
    var lookup := LookupCalls(contactsBearer, contactEmail);
    var created := lookup + [CreateDeal(dealsBearer, DealPropertiesOf(body, millis))];
    match LookedUpContact(contactEmail, upstream)
    case Thrown(m) => Flow(Fail(500, m), lookup)
    case Value(contactId) =>
      match DealId(upstream(|lookup|))
      case Fail(status, message) => Flow(Fail(status, message), created)
      case Proceed(dealId) =>
        if !Truthy(contactId) then Flow(Proceed(DealCreatedEnvelope(dealId)), created)
        else
          var all := created + [AssociateDeal(dealsBearer, dealId, contactId.value, DealToContact)];
          match upstream(|created|)
          case Throws(reason) => Flow(Fail(500, reason), all)
          case _ => Flow(Proceed(DealCreatedEnvelope(dealId)), all)
  }

  /** The deal flow's asymmetric failure policy. The contact lookup runs only
      for a truthy email, and a non-ok or empty lookup is swallowed: the deal
      is still created, without association. A failed create ends the flow
      before any association. The association is issued exactly when a
      contact was found and the deal created; it targets the new deal and that
      contact with association type 3, and a non-ok reply to it leaves the
      success envelope unchanged. */
  lemma DealPolicy(contactsBearer: string, dealsBearer: string, body: Json, millis: DateToMillis, upstream: Script)
    ensures var f := DealFlow(contactsBearer, dealsBearer, body, millis, upstream);
      var contactEmail := Field(body, "contactEmail");
      var n := |LookupCalls(contactsBearer, contactEmail)|;
      var create := CreateDeal(dealsBearer, DealPropertiesOf(body, millis));
      var contact := LookedUpContact(contactEmail, upstream);
      && (Truthy(contactEmail) <==> f.trace[0].SearchContacts?)
      && (Truthy(contactEmail) ==> f.trace[0] == DealContactSearch(contactsBearer, contactEmail.value))
      && (contact.Thrown? ==> f == Flow(Fail(500, contact.message), LookupCalls(contactsBearer, contactEmail)))
      && (contact.Value? ==> n < |f.trace| && f.trace[n] == create)
      && ((Truthy(contactEmail) && (upstream(0).NotOk? || (upstream(0).Ok? && upstream(0).body != JNull && !HasItems(Field(upstream(0).body, "results")))))
          ==> contact == Value(Some(JNull)) && f.trace == [f.trace[0], create])
      && (contact.Value? && DealId(upstream(n)).Fail? ==> |f.trace| == n + 1 && f.outcome == DealId(upstream(n)).PropagateFailure())
      && (|f.trace| == n + 2 <==> contact.Value? && Truthy(contact.get) && DealId(upstream(n)).Proceed?)
      && (contact.Value? && !(Truthy(contact.get) && DealId(upstream(n)).Proceed?) ==> |f.trace| == n + 1)
      && (|f.trace| == n + 2 ==> f.trace[n + 1] == AssociateDeal(dealsBearer, DealId(upstream(n)).value, contact.get.value, DealToContact))
      && (|f.trace| == n + 2 && !upstream(n + 1).Throws? ==> f.outcome == Proceed(DealCreatedEnvelope(DealId(upstream(n)).value)))
      && (|f.trace| == n + 2 && upstream(n + 1).Throws? ==> f.outcome == Fail(500, upstream(n + 1).reason))
      && (contact.Value? && !Truthy(contact.get) && DealId(upstream(n)).Proceed? ==>
            f.outcome == Proceed(DealCreatedEnvelope(DealId(upstream(n)).value)))
  {
  }

  /** The deal sequence: `contactId` starts as `null` and is reassigned by a
      successful lookup; the property map is grown after the lookup. */
  method RunDeal(contactsBearer: string, dealsBearer: string, body: Json, millis: DateToMillis, upstream: Script)
    returns (outcome: Outcome<Json>, trace: seq<Call>)
    ensures Flow(outcome, trace) == DealFlow(contactsBearer, dealsBearer, body, millis, upstream)
  {
    trace := [];
    var contactEmail := Field(body, "contactEmail");
    var contactId: Option<Json> := Some(JNull);
    if Truthy(contactEmail) {
      trace := trace + [DealContactSearch(contactsBearer, contactEmail.value)];
      var resolved := ResolvedContact(upstream(0));
      if resolved.Thrown? {
        return Fail(500, resolved.message), trace;
      }
      contactId := resolved.get;
    }
    var properties := BuildDealProperties(Field(body, "dealName"), Field(body, "amount"), Field(body, "pipeline"),
                                          Field(body, "stage"), Field(body, "closeDate"), Field(body, "description"), millis);
    trace := trace + [CreateDeal(dealsBearer, properties)];
    var dealId :- DealId(upstream(|trace| - 1));
    if Truthy(contactId) {
      trace := trace + [AssociateDeal(dealsBearer, dealId, contactId.value, DealToContact)];
      var associated := upstream(|trace| - 1);
      if associated.Throws? {
        return Fail(500, associated.reason), trace;
      }
    }
    outcome := Proceed(DealCreatedEnvelope(dealId));
  }

  /** `{ success: true, pipelines }` */
  function PipelinesEnvelope(pipelines: seq<Json>): Json {
    JObj(map["success" := JBool(true), "pipelines" := JArr(pipelines)])
  }

  /** The pipeline list reply, read: 404 when it lists nothing, otherwise the
      projected pipelines. */
  function PipelinesOutcome(reply: Reply): (o: Outcome<Json>)
    ensures reply.NotOk? ==> o == Fail(reply.status, UpstreamMessage(reply.message, PipelinesFailed))
    ensures reply.Throws? ==> o == Fail(500, reply.reason)
    ensures reply.Ok? && reply.body == JNull ==> o == Fail(500, TypeErrorMessage)
    ensures reply.Ok? && reply.body != JNull && Lacking(Field(reply.body, "results")) ==> o == Fail(404, NoPipelines)
    ensures reply.Ok? && reply.body != JNull && !Lacking(Field(reply.body, "results")) ==>
      o == (match ProjectResults(Field(reply.body, "results").value)
            case Value(p) => Proceed(PipelinesEnvelope(p))
            case Thrown(m) => Fail(500, m))
    ensures o.Proceed? ==> (
      && reply.Ok? && !Lacking(Field(reply.body, "results"))
      && ProjectResults(Field(reply.body, "results").value).Value?
      && o.value == PipelinesEnvelope(ProjectResults(Field(reply.body, "results").value).get))
  {
    var data :- Received(reply, PipelinesFailed);
    var results :- Caught(Member(Some(data), "results"));
    if Lacking(results) then Fail(404, NoPipelines)
    else
      var pipelines :- Caught(ProjectResults(results.value));
      Proceed(PipelinesEnvelope(pipelines))
  }

  /** The pipeline listing once validated: one GET, answered from its reply. */
  function PipelinesFlow(bearer: string, upstream: Script): Flow {
    Flow(PipelinesOutcome(upstream(0)), [ListDealPipelines(bearer)])
  }
}
