/** The Vercel pipeline listing (api/get-hubspot-deal-stages.ts): a GET
    answered with every deal pipeline and its stages. */
module ApiDealStages {
  import opened Js
  import opened Proxy
  import opened Http
  import opened HubSpot

  /** The handler as a function of its inputs: the method, then the deals
      key, then one GET of the pipelines. */
  function Handle(httpMethod: string, env: Env, upstream: Script): (x: Exchange)
    ensures httpMethod == "OPTIONS" ==> x == Early(PreflightReply)
    ensures httpMethod != "OPTIONS" && httpMethod != "GET" ==> x == Early(ErrorReply(405, MethodNotAllowed))
    ensures httpMethod == "GET" && !Configured(env.hubspotDealsApiKey) ==> x == Early(ErrorReply(500, DealsKeyMissing))
    ensures httpMethod == "GET" && Configured(env.hubspotDealsApiKey) ==>
      && x.trace == [ListDealPipelines(env.hubspotDealsApiKey.value)]
      && x.response == Value(Answer(PipelinesOutcome(upstream(0))))
    ensures x.response.Value?
  {
    if httpMethod == "OPTIONS" then Early(PreflightReply)
    else if httpMethod != "GET" then Early(ErrorReply(405, MethodNotAllowed))
    else if !Configured(env.hubspotDealsApiKey) then Early(ErrorReply(500, DealsKeyMissing))
    else Finished(PipelinesFlow(env.hubspotDealsApiKey.value, upstream))
  }

  /** A non-ok reply keeps its status; a reply listing no pipelines is a 404. */
  lemma PipelineReplies(env: Env, upstream: Script)
    requires Configured(env.hubspotDealsApiKey)
    ensures var x := Handle("GET", env, upstream);
      && (upstream(0).NotOk? ==> x.response == Value(ErrorReply(upstream(0).status, UpstreamMessage(upstream(0).message, PipelinesFailed))))
      && (upstream(0).Ok? && upstream(0).body != JNull && Lacking(Field(upstream(0).body, "results")) ==>
            x.response == Value(ErrorReply(404, NoPipelines)))
  {
  }

  /** `handler(req, res)`: writes the response in place and returns the
      upstream calls it issued. Nothing can escape it: it never reads the body. */
  method Handler(httpMethod: string, env: Env, upstream: Script, res: ServerResponse)
    returns (trace: seq<Call>)
    requires res.Unsent()
    modifies res
    ensures Delivered(res, Handle(httpMethod, env, upstream).response)
    ensures trace == Handle(httpMethod, env, upstream).trace
  {
    CorsHeadersExact(map[]);
    CorsThenJson();
    trace := [];
    var handled := HandleOptions(httpMethod, res);
    if handled {
      return;
    }
    SetCorsHeaders(res);
    if httpMethod != "GET" {
      RespondWithError(res, 405, MethodNotAllowed);
      return;
    }
    if !Configured(env.hubspotDealsApiKey) {
      RespondWithError(res, 500, DealsKeyMissing);
      return;
    }
    trace := trace + [ListDealPipelines(env.hubspotDealsApiKey.value)];
    Respond(res, PipelinesOutcome(upstream(0)));
  }
}
