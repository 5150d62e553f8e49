# HubSpot sidebar proxy handlers, modelled in Dafny

The sidebar is a Trengo-embedded panel that talks to HubSpot and Trengo through six thin proxy
handlers. Each handler is deployed twice:

- as a Vercel function under `api/`, sharing the helpers of `api/_lib/http.ts`;
- as a Supabase edge function under `supabase/functions/<name>/index.ts`.

The six handlers are:

- contact search by email or phone;
- contact creation;
- a lifecycle-stage update, which searches and then PATCHes;
- deal creation, with a best-effort contact lookup and association;
- the deal pipeline listing;
- a Trengo ticket lookup.

Beside the handlers, the sidebar component decides which ticket it is showing.

The model treats a handler as a function of its inputs:

- the request;
- the environment's API keys;
- a scripted upstream (`Script`), which gives the reply to the k-th call the handler issues.

Its result is an `Exchange`: the response (or the exception that escaped the handler), plus the
upstream calls the handler issued, in order. JavaScript values are a `Json` datatype with
`Option<Json>` for `undefined`. Module `Js` writes out the operators the handlers rely on:

- truthiness, `||` and `??`;
- property reads that throw on `null`, and `?.`;
- `length`, `[0]`, and `split`/`join`.

The modules, by source file:

- **`Js` and `Proxy`**: the value model, upstream calls and replies, responses, and the `Outcome`
  in which a handler's `try` block ends. A failure carries the status a Vercel handler would give
  it.
- **`Http`** (`api/_lib/http.ts`): the Node response object is a class, `ServerResponse`, written
  in place.
  - `setCorsHeaders` is a loop over the header entries, proved to set exactly the three CORS
    headers.
  - `handleOptions`, `respondWithError` and the tolerant `parseJsonBody` are modelled too.
  - `Answer` is how a Vercel handler turns an `Outcome` into a response.
- **`HubSpot`**: the HubSpot logic both deployments share, written once:
  - the OR-ed search filter groups;
  - the contact projection;
  - the contact and deal property maps;
  - the lifecycle flow (search, then PATCH);
  - the deal flow (lookup, create, then associate);
  - the pipeline projection.
- **`Trengo`**: the ticket's contact details and the name split. The split is proved to be "text
  before the first space / everything after it".
- **`ApiSearchContact`, `ApiCreateContact`, `ApiUpdateLifecycle`, `ApiCreateDeal`,
  `ApiDealStages`, `ApiTrengoTicket`** (`api/*.ts`): each has a specification function `Handle`
  and an imperative `Handler`. `Handler` writes the `ServerResponse`, and it is proved to leave
  exactly the response `Handle` describes, and to issue the same calls.
- **`Edge`, `EdgeSearchContact`, `EdgeCreateContact`, `EdgeUpdateLifecycle`, `EdgeCreateDeal`,
  `EdgeDealStages`, `EdgeTrengoTicket`** (`supabase/functions/*`): each has `Handle`, and the four
  handlers written step by step also have a `Serve` method proved equal to it.
  - Every edge function except the ticket lookup answers any failure with 500.
  - For search, lifecycle update, contact creation and deal creation, a lemma compares the edge
    function with its Vercel twin on the same POST body: same calls, same JSON envelope, and
    statuses that differ only where the edge answers 500. For contact and deal creation this
    holds only for a body with the required fields; without them, Vercel refuses with 400 and
    the edge function still creates.
  - The pipeline listing agrees with Vercel in the same way only for a GET; any other method is
    a 405 on Vercel and still lists at the edge.
  - The ticket lookup differs more: its errors are a bare `{error}` object rather than
    `{success:false, error}`, it keeps the 400 and the upstream statuses, and it chooses
    `ticketId` with `||` where Vercel uses `??`. Its lemma compares how the two read a ticket
    reply, not the whole handlers.
- **`Sidebar`** (`src/components/HubSpotSidebar.tsx`): the ticket-id discovery. Its order is the
  query parameter, then the `/tickets/<digits>` match in the parent URL, then (only when the
  parent URL cannot be read) the sidebar's own path, then a demo id.

Behaviour one might expect that the code does not have, and that the model therefore does not
have either:

- **Stage order.** Stages are not sorted by `displayOrder`. The pipeline listing copies
  pipelines and stages in the order HubSpot sends them (`PipelineOrderPreserved`).
- **Name split.** The name is not split on any whitespace, only on the space character. The last
  name keeps the remaining text as written, so repeated spaces survive.
- **Edge statuses.** Upstream statuses are not propagated by the edge functions, except in the
  ticket lookup. Every other edge failure is a 500, including "not found" and "no pipelines".
- **Pipeline listing method.** The Vercel pipeline listing accepts only GET; a POST is a 405.
- **Unguarded exception.** On Vercel a JSON body of `null` makes the destructuring throw outside
  the `try`, so the exception escapes the handler. That is `Thrown` on a Vercel exchange, and
  `escaped` from `Handler`.

## Model

| member | source | states |
|---|---|---|
| Js.Member | api/search-hubspot-contact.ts:16 | a property read or destructuring throws exactly on `null`/`undefined`, with the TypeError's message, and otherwise reads the object's property |
| Js.Split | api/fetch-trengo-ticket.ts:52-53 | `split` on one character returns at least one piece |
| Js.JoinSplit | api/fetch-trengo-ticket.ts:53 | joining the pieces of a split with the same separator gives back the original text |
| Js.SplitPiecesLackSeparator | api/fetch-trengo-ticket.ts:52 | no piece of a split contains the separator |
| Js.SplitCount | api/fetch-trengo-ticket.ts:52-53 | a split has exactly one piece iff the separator does not occur, and that piece is the whole text |
| Proxy.Received | api/search-hubspot-contact.ts:64-70 | every HubSpot reply read alike: an ok reply proceeds with its body; a non-ok one fails with its status and `errorData.message \|\| fallback`; a rejected fetch is a 500 |
| Proxy.UpstreamMessage | api/search-hubspot-contact.ts:67 | `errorData.message \|\| fallback`: a non-empty upstream message is returned, and otherwise the fallback |
| Http.WithJsonType | api/_lib/http.ts:47 | the headers after `res.json`: a content type already set is kept, otherwise the JSON content type is added; no other header changes |
| Http.CorsHeadersExact | api/_lib/http.ts:1-11 | setting the entries in order yields exactly the three CORS headers, and setting them again changes nothing |
| Http.CorsThenJson | api/_lib/http.ts:45-48 | the CORS headers hold no content type, so `res.json` after `setCorsHeaders` on a fresh response leaves exactly the CORS headers plus the JSON content type |
| Http.ServerResponse.SetHeader | api/_lib/http.ts:9 | `res.setHeader` replaces one header and leaves status, body and the finished flag unchanged |
| Http.ServerResponse.Status | api/_lib/http.ts:16 | `res.status` sets the status only |
| Http.ServerResponse.SendJson | api/_lib/http.ts:47 | `res.json` sets the JSON body, adds `Content-Type: application/json; charset=utf-8` unless a content type is set, and finishes the response, keeping the status |
| Http.ServerResponse.End | api/_lib/http.ts:16 | `res.end` finishes the response and changes nothing else |
| Http.SetCorsHeaders | api/_lib/http.ts:7-11 | the loop adds exactly the CORS headers to those already set and touches nothing else |
| Http.HandleOptions | api/_lib/http.ts:13-20 | returns true iff the method is OPTIONS; then the response is a finished 200 with CORS headers, otherwise it is untouched |
| Http.Send | api/_lib/http.ts:47 | `res.status(s).json(v)` leaves a finished response with that status and body, with the JSON content type added to the headers |
| Http.RespondWithError | api/_lib/http.ts:45-48 | a finished response with the given status, body `{success:false, error}`, and the CORS headers plus the JSON content type |
| Http.ParseJsonBody | api/_lib/http.ts:22-43 | a missing request, a GET or a falsy body gives `{}`; a string body is parsed, with `{}` when parsing fails; any other body is returned as is |
| Http.Respond | api/search-hubspot-contact.ts:64-100 | the end of a Vercel `try` block: 200 with the value, or `respondWithError` with the failure's own status and message |
| HubSpot.Filters | api/search-hubspot-contact.ts:24-32 | one equality filter per truthy identifier, email first |
| HubSpot.BuildFilters | api/search-hubspot-contact.ts:24-32 | pushing the filters one at a time builds exactly `Filters` |
| HubSpot.FilterGroups | api/search-hubspot-contact.ts:40 | one singleton group per filter, in order |
| HubSpot.SearchGroupsAreDisjunctive | api/search-hubspot-contact.ts:24-40 | an email and a phone give two separate groups (OR), never one group holding both (AND) |
| HubSpot.ProjectContact | api/search-hubspot-contact.ts:73-88 | the projection throws iff the contact or its `properties` is missing; otherwise it has exactly the ten renamed keys plus `id` when present, each value the property or `''` |
| HubSpot.SearchEnvelope | api/search-hubspot-contact.ts:70-95 | a reply with no results is the not-found envelope with `success:false`; otherwise the first result, projected, is wrapped in `{success:true, contact}` |
| HubSpot.ContactProperties | api/create-hubspot-contact.ts:31-39 | the three required names are copied as given; phone, company and job title are present iff truthy; there are no other keys |
| HubSpot.BuildContactProperties | api/create-hubspot-contact.ts:31-39 | the conditional assignments build exactly `ContactProperties` |
| HubSpot.DealProperties | api/create-hubspot-deal.ts:73-87 | name, amount, stage and pipeline are copied; the close date is converted to milliseconds when truthy; the description is present iff truthy |
| HubSpot.BuildDealProperties | api/create-hubspot-deal.ts:73-87 | the conditional assignments build exactly `DealProperties` |
| HubSpot.ResolvedContact | api/create-hubspot-deal.ts:65-70 | a non-ok or empty lookup leaves `contactId` `null`; a found one yields the first result's id; a rejected fetch or a `null` reply throws |
| HubSpot.ProjectStage | api/get-hubspot-deal-stages.ts:41-45 | a stage keeps exactly its `id`, `label` and `displayOrder`, and throws only when it is `null` |
| HubSpot.ProjectStages | api/get-hubspot-deal-stages.ts:41-45 | `map` over the stages: same length, each element projected in place; it throws iff some stage is `null` |
| HubSpot.ProjectPipeline | api/get-hubspot-deal-stages.ts:38-46 | a pipeline keeps `id` and `label`, and its `stages` are projected; it throws iff the pipeline is `null`, has no stage array, or a stage throws |
| HubSpot.ProjectPipelines | api/get-hubspot-deal-stages.ts:38-46 | `map` over the pipelines: same length, each element projected in place; it throws iff some pipeline does |
| HubSpot.ProjectResults | api/get-hubspot-deal-stages.ts:38 | only an array of results can be mapped; anything else throws |
| HubSpot.PipelineOrderPreserved | api/get-hubspot-deal-stages.ts:38-46 | for every i and j, the i-th output pipeline is the projection of the i-th input pipeline, with as many stages, and its j-th stage is the projection of the input's j-th stage: nothing is reordered |
| HubSpot.StagesPreserved | api/get-hubspot-deal-stages.ts:41-45 | a projected pipeline has as many stages as its input, and its j-th stage is the projection of the j-th input stage |
| HubSpot.SearchOutcome | api/search-hubspot-contact.ts:64-95 | a non-ok search keeps its status and message (or the fallback); a thrown fetch is a 500; no results is the not-found envelope; results give `{success:true, contact}` with the first one projected (a 500 when the projection throws) |
| HubSpot.ContactCreated | api/create-hubspot-contact.ts:51-63 | the create reply yields `{success, contactId, message}` with HubSpot's id, or the upstream status and message |
| HubSpot.PatchTarget | api/update-hubspot-lifecycle.ts:57-69 | the flow proceeds iff the search is ok and has a first result, targeting that result's id; an empty search is a 404 "Contact not found"; a non-ok search keeps its status and message (or the fallback); a rejected fetch, a `null` reply or a `null` first result is a 500 with the error's message |
| HubSpot.LifecycleUpdated | api/update-hubspot-lifecycle.ts:84-96 | the PATCH reply yields `{success, contactId, message}` with the returned id, or the upstream status and message |
| HubSpot.LifecycleFlow | api/update-hubspot-lifecycle.ts:43-96 | at most two calls (the search, then a PATCH setting only `lifecyclestage`); the PATCH happens iff the search found a contact; nothing is ever created |
| HubSpot.RunLifecycle | api/update-hubspot-lifecycle.ts:43-96 | the step-by-step search then PATCH issues the calls and reaches the outcome of `LifecycleFlow` |
| HubSpot.DealId | api/create-hubspot-deal.ts:98-104 | the create reply yields the new deal's id, or the upstream status and message (or the fallback) |
| HubSpot.DealFlow | api/create-hubspot-deal.ts:40-133 | the deal flow issues between one and three upstream calls |
| HubSpot.DealPolicy | api/create-hubspot-deal.ts:42-127 | lookup only for a truthy email; a non-ok or empty lookup is swallowed and the deal is still created; a failed create stops before any association; the association (type 3) is issued iff a contact was found and the deal created, and otherwise the create is the last call; a non-ok association reply leaves the success answer |
| HubSpot.RunDeal | api/create-hubspot-deal.ts:40-133 | the step-by-step lookup, create and associate (with `contactId` reassigned) issue the calls and reach the outcome of `DealFlow` |
| HubSpot.PipelinesOutcome | api/get-hubspot-deal-stages.ts:26-51 | a non-ok reply keeps its status and message; a `null` reply is a 500; no pipelines is a 404; otherwise `{success:true, pipelines}` with the projected list (a 500 when the projection throws) |
| Trengo.NameParts | api/fetch-trengo-ticket.ts:52-53 | a missing name gives two empty strings and a non-string name throws; the first name has no space and, joined to the last name by a space, rebuilds the name; without a space the last name is empty |
| Trengo.ContactInfo | api/fetch-trengo-ticket.ts:51-57 | throws iff the ticket is `null` or its name cannot be split; otherwise exactly the six keys, each the ticket's field or `''` |
| Trengo.Fetched | api/fetch-trengo-ticket.ts:43-49 | a non-ok ticket reply keeps its status with a fixed message; a thrown fetch is a 500 |
| Trengo.SplitAfterFirst | api/fetch-trengo-ticket.ts:52-53 | splitting "word, separator, rest" gives the word followed by the pieces of the rest |
| Trengo.NamePartsAtFirstSpace | api/fetch-trengo-ticket.ts:52-53 | for "Jane Mary Doe" the parts are "Jane" and "Mary Doe": the text before and after the first space |
| ApiSearchContact.Handle | api/search-hubspot-contact.ts:8-101 | OPTIONS, then 405, then the key (500), then the identifiers (400), each answered with no call; otherwise exactly one search with the OR-ed groups, answered from its reply |
| ApiSearchContact.StatusPropagated | api/search-hubspot-contact.ts:64-95 | an upstream failure reaches the caller with the upstream's status; an empty result is a 200 "not found" |
| ApiSearchContact.Handler | api/search-hubspot-contact.ts:8-101 | the imperative handler leaves the response object, the calls and any escaped exception exactly as `Handle` says |
| ApiCreateContact.Handle | api/create-hubspot-contact.ts:12-69 | key (500) before required fields (400), with no call; otherwise one create call with the body's property map |
| ApiCreateContact.SentPropertiesExact | api/create-hubspot-contact.ts:27-39 | past validation the map has the three required names as given, and the optional ones iff truthy |
| ApiCreateContact.Handler | api/create-hubspot-contact.ts:12-69 | the imperative handler leaves the response, calls and escaped exception that `Handle` describes |
| ApiUpdateLifecycle.Handle | api/update-hubspot-lifecycle.ts:9-102 | key (500), then stage (400), then identifiers (400), with no call; otherwise the search-then-PATCH flow |
| ApiUpdateLifecycle.TwoStepOutcome | api/update-hubspot-lifecycle.ts:57-96 | a failed or empty search issues no PATCH (keeping its status, or 404); a PATCH reply is answered with its own status or the returned id; no call creates a contact |
| ApiUpdateLifecycle.Handler | api/update-hubspot-lifecycle.ts:9-102 | the imperative handler leaves the response, calls and escaped exception that `Handle` describes |
| ApiCreateDeal.Handle | api/create-hubspot-deal.ts:13-139 | deals key, then contacts key (500), both before the body is read, then the four fields (400); otherwise the deal flow; some call is issued iff all checks pass |
| ApiCreateDeal.CreateFatalAssociationSoft | api/create-hubspot-deal.ts:98-133 | a non-ok create ends with its status and no association; a non-ok association still answers 200 with the deal id |
| ApiCreateDeal.Handler | api/create-hubspot-deal.ts:13-139 | the imperative handler leaves the response, calls and escaped exception that `Handle` describes |
| ApiDealStages.Handle | api/get-hubspot-deal-stages.ts:3-57 | GET only (405 otherwise), then the deals key (500); otherwise one pipeline listing answered from its reply |
| ApiDealStages.PipelineReplies | api/get-hubspot-deal-stages.ts:26-36 | a non-ok listing keeps its status; an empty listing is a 404 "No deal pipelines found" |
| ApiDealStages.Handler | api/get-hubspot-deal-stages.ts:3-57 | the imperative handler leaves the response and calls that `Handle` describes |
| ApiTrengoTicket.TicketOutcome | api/fetch-trengo-ticket.ts:34-66 | the contact details plus `ticketId`, which is the upstream id unless it is `null`/absent (`??`); non-ok keeps its status with a fixed message |
| ApiTrengoTicket.Handle | api/fetch-trengo-ticket.ts:14-67 | the ticket id (400) is checked before the key (500), with no call; otherwise exactly one GET of that ticket |
| ApiTrengoTicket.Handler | api/fetch-trengo-ticket.ts:14-67 | the imperative handler leaves the response, calls and escaped exception that `Handle` describes |
| Edge.BodyOf | supabase/functions/search-hubspot-contact/index.ts:16 | `await req.json()` destructured: its error passes on, `null` throws, and any other value is the body |
| Edge.AnswersAgree | supabase/functions/search-hubspot-contact/index.ts:76-131 | the end of a `try` block gives the same JSON envelope in both deployments, both with a JSON content type and the edge's CORS headers; the edge status is 200 or 500, where Vercel keeps the failure's status |
| EdgeSearchContact.Handle | supabase/functions/search-hubspot-contact/index.ts:10-132 | body, then key, then identifiers, each failing with a 500 and no call; otherwise one search; only 200 or 500 is ever answered |
| EdgeSearchContact.Serve | supabase/functions/search-hubspot-contact/index.ts:10-132 | the step-by-step function returns the response and calls `Handle` describes |
| EdgeSearchContact.AgreesWithVercel | supabase/functions/search-hubspot-contact/index.ts:15-131 | for the same POST body both deployments issue the same calls and send the same envelope; differing statuses are edge 500s |
| EdgeUpdateLifecycle.Handle | supabase/functions/update-hubspot-lifecycle/index.ts:10-127 | body, key, stage, identifiers (each a 500, no call); otherwise the search-then-PATCH flow; only 200 or 500 |
| EdgeUpdateLifecycle.Serve | supabase/functions/update-hubspot-lifecycle/index.ts:10-127 | the step-by-step function returns the response and calls `Handle` describes |
| EdgeUpdateLifecycle.AgreesWithVercel | supabase/functions/update-hubspot-lifecycle/index.ts:15-126 | same calls and envelope as on Vercel; an empty search is a 404 there and a 500 here |
| EdgeCreateContact.Handle | supabase/functions/create-hubspot-contact/index.ts:10-80 | body, then key (500, no call); otherwise one create call with no required-field check; only 200 or 500 |
| EdgeCreateContact.Serve | supabase/functions/create-hubspot-contact/index.ts:10-80 | the step-by-step function returns the response and calls `Handle` describes |
| EdgeCreateContact.AgreesWithVercelOnlyWhenComplete | supabase/functions/create-hubspot-contact/index.ts:16-65 | with all three required fields both deployments agree; without one, Vercel answers 400 with no call while the edge still creates the contact |
| EdgeCreateDeal.Handle | supabase/functions/create-hubspot-deal/index.ts:11-150 | body, deals key, contacts key (500, no call); otherwise the deal flow, with no field check; only 200 or 500 |
| EdgeCreateDeal.Serve | supabase/functions/create-hubspot-deal/index.ts:11-150 | the step-by-step function returns the response and calls `Handle` describes |
| EdgeCreateDeal.AgreesWithVercelOnlyWhenComplete | supabase/functions/create-hubspot-deal/index.ts:16-135 | with the four required fields both deployments agree; without one, Vercel answers 400 with no call while the edge still creates a deal |
| EdgeDealStages.Handle | supabase/functions/get-hubspot-deal-stages/index.ts:10-79 | any method but OPTIONS: deals key (500), then one listing; an empty listing is a 500; only 200 or 500 |
| EdgeDealStages.AgreesWithVercelOnGet | supabase/functions/get-hubspot-deal-stages/index.ts:10-79 | for a GET the deployments agree on calls and envelope; other methods are a 405 on Vercel and still list here |
| EdgeTrengoTicket.TicketOutcome | supabase/functions/fetch-trengo-ticket/index.ts:44-64 | the contact details plus `ticketId`, which is the upstream id only when truthy (`\|\|`) |
| EdgeTrengoTicket.Handle | supabase/functions/fetch-trengo-ticket/index.ts:9-78 | ticket id (400), then key (500), with no call; otherwise one GET; non-ok keeps its status; all errors are a bare `{error}` |
| EdgeTrengoTicket.TicketIdFallback | supabase/functions/fetch-trengo-ticket/index.ts:63 | the two deployments fail alike and agree on every contact field; `ticketId` differs exactly when Trengo returns a falsy non-null id (`0`, `''`), which Vercel keeps and the edge replaces with the requested id |
| Sidebar.DigitRun | src/components/HubSpotSidebar.tsx:36 | `\d+` taken greedily: a prefix, all digits, and not followed by a digit |
| Sidebar.LeftmostMatch | src/components/HubSpotSidebar.tsx:36 | the leftmost position where the marker is followed by a digit, or none anywhere |
| Sidebar.TicketInPath | src/components/HubSpotSidebar.tsx:36-40 | `match(/\/tickets\/(\d+)/)?.[1]`: none iff the pattern fits nowhere, and otherwise a non-empty run of digits |
| Sidebar.TicketInPathSpec | src/components/HubSpotSidebar.tsx:36-40 | a match is a non-empty maximal digit run after the leftmost marker; no match means the pattern fits nowhere |
| Sidebar.DiscoverTicketId | src/components/HubSpotSidebar.tsx:21-56 | `ticketId`, then `ticket_id`, then the parent URL's match (`''` when none); the own path and the demo id are used only when the parent URL is unreadable |
| Sidebar.FallbacksOnlyWhenParentUnreadable | src/components/HubSpotSidebar.tsx:33-52 | with a readable parent URL the own path never matters, and no match leaves the id empty |
| Sidebar.DiscoveredIdIsDigits | src/components/HubSpotSidebar.tsx:36-51 | without query parameters the id is empty, the demo id, or all digits |

## Left out

- The transport is not modelled:
  - `fetch` itself, URLs and header building. A call is a `Call` value carrying its bearer token and body.
  - JSON text serialisation, except that an `undefined` member is dropped.
  - Key order inside objects.
  - The platform's answer to an exception that escapes a Vercel handler (`escaped` reports it).
- Logging (`console.*`) is not modelled. The reading of an upstream body that is only logged is
  not modelled either: a non-ok association, a non-ok Trengo reply.
- Upstream bodies are abstracted:
  - A non-ok HubSpot reply is represented by its status and the string `message` of its JSON body.
  - A non-JSON or `null` error body, and a non-string `message`, are not modelled.
  - A `.json()` that fails on an ok reply is folded into `Throws`.
- Error objects are simplified:
  - A thrown value that is not an `Error` ("Unknown error occurred") is not modelled.
  - The engine's TypeError wording is one constant.
  - The string form of an object-valued `ticketId` in a URL is not modelled.
- Header names are compared as written, not case-insensitively. The content type `res.json`
  adds is the one the Vercel Node runtime's helper sets; that helper is not part of this model.
- Numbers are integers only. `new Date(closeDate).getTime().toString()` is a parameter
  (`DateToMillis`), and `JSON.parse` is a parameter (`JsonParser`).
- `length` and `[0]` are modelled for arrays and strings only; other values have neither.
- `HubSpot.DealFlow`: its own contract states only the call count; the policy it follows is
  stated separately by `HubSpot.DealPolicy`.
- The sidebar's React state, rendering and the forms, `src/lib/apiClient.ts` and the pages are
  not part of this model. Neither is reading `window.location` (its pieces are parameters of
  `DiscoverTicketId`).
