/** What every proxy handler shares: the upstream requests it can issue, the
    scripted replies it receives, its configuration, and the HTTP response it
    produces. */
module Proxy {
  import opened Js

  /** One condition of a HubSpot search: `{propertyName, operator, value}`. */
  datatype Filter = Filter(propertyName: string, operator: string, value: Json)

  /** A HubSpot filter group; groups are OR-ed, filters inside one group AND-ed. */
  datatype FilterGroup = FilterGroup(filters: seq<Filter>)

  /** One entry of the body of a HubSpot association request. */
  datatype AssociationType = AssociationType(category: string, typeId: int)

  /** An upstream request: endpoint and method (the constructor), the bearer
      token sent, and the JSON body or path parameters. A path parameter that
      is `undefined` in the source is `None`. */
  datatype Call =
    | SearchContacts(bearer: string, filterGroups: seq<FilterGroup>, returned: seq<string>)
    | CreateContact(bearer: string, properties: map<string, Json>)
    | UpdateContact(bearer: string, contactId: Option<Json>, properties: map<string, Json>)
    | CreateDeal(bearer: string, properties: map<string, Json>)
    | AssociateDeal(bearer: string, dealId: Option<Json>, associatedContact: Json, types: seq<AssociationType>)
    | ListDealPipelines(bearer: string)
    | GetTicket(bearer: string, ticketId: Json)

  /** How an upstream call ends: a 2xx reply with its JSON body, a non-2xx reply
      with its status and the `message` of its JSON error body, or a rejected
      fetch (or unreadable reply) with the exception's message. */
  datatype Reply = Ok(body: Json) | NotOk(status: int, message: Option<string>) | Throws(reason: string)

  /** The scripted upstream: the reply to the k-th call a handler issues. */
  type Script = nat -> Reply

  /** The API keys from the environment; `None` when the variable is unset. */
  datatype Env = Env(hubspotApiKey: Option<string>, hubspotDealsApiKey: Option<string>, trengoApiKey: Option<string>)

  const HubSpotKeyMissing: string := "HUBSPOT_API_KEY is not configured"
  const DealsKeyMissing: string := "HUBSPOT_DEALS_API_KEY is not configured"

  /** `!key` fails for an unset and for an empty variable. */
  predicate Configured(key: Option<string>) {
    key.Some? && key.value != ""
  }

  datatype Body = Empty | Text(text: string) | JsonBody(value: Json)

  datatype Response = Response(status: int, headers: map<string, string>, body: Body)

  /** What one handler invocation does: the response it produces (or the
      exception that escapes it) and the upstream calls it issued, in order. */
  datatype Exchange = Exchange(response: Eval<Response>, trace: seq<Call>)

  /** `errorData.message || fallback` */
  function UpstreamMessage(message: Option<string>, fallback: string): (r: string)
    ensures message.Some? && message.value != "" ==> r == message.value
    ensures !(message.Some? && message.value != "") ==> r == fallback
  {
    if message.Some? && message.value != "" then message.value else fallback
  }

  /** How the `try` block of a handler ends: with the value it answers with,
      or with a failure and the status a Vercel handler gives it (an edge
      function answers every failure with 500). Failure-compatible, so `:-`
      stops at the first failure. */
  datatype Outcome<+T> = Proceed(value: T) | Fail(status: int, message: string) {
    predicate IsFailure() { Fail? }

    function PropagateFailure<U>(): Outcome<U>
      requires Fail?
    {
      Fail(status, message)
    }

    function Extract(): T
      requires Proceed?
    {
      value
    }
  }

  /** An exception thrown inside `try`, which `catch` answers with a 500. */
  function Caught<T>(e: Eval<T>): Outcome<T> {
    match e
    case Value(v) => Proceed(v)
    case Thrown(m) => Fail(500, m)
  }

  /** An upstream reply read the way every HubSpot call reads it: a non-ok
      reply fails with its own status and `errorData.message || fallback`, a
      rejected fetch is caught as a 500, and an ok reply yields its body. */
  function Received(reply: Reply, fallback: string): (o: Outcome<Json>)
    ensures o.Proceed? <==> reply.Ok?
    ensures reply.Ok? ==> o.value == reply.body
    ensures reply.NotOk? ==> o == Fail(reply.status, UpstreamMessage(reply.message, fallback))
    ensures reply.Throws? ==> o == Fail(500, reply.reason)
  {
    match reply
    case Ok(body) => Proceed(body)
    case NotOk(status, message) => Fail(status, UpstreamMessage(message, fallback))
    case Throws(reason) => Fail(500, reason)
  }

  /** The `try` block of a handler: how it ends and the upstream calls it
      issued, in order. */
  datatype Flow = Flow(outcome: Outcome<Json>, trace: seq<Call>)

  /** `{ success: false, error: message }` */
  function ErrorEnvelope(message: string): Json {
    JObj(map["success" := JBool(false), "error" := JStr(message)])
  }
}
