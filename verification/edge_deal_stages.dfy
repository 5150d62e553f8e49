/** The edge pipeline listing (supabase/functions/get-hubspot-deal-stages/index.ts):
    no method check and no body; an empty listing is a 500. */
module EdgeDealStages {
  import opened Js
  import opened Proxy
  import opened HubSpot
  import opened Edge
  import ApiDealStages

  /** The function as a function of its inputs: any method but OPTIONS lists
      the pipelines once the deals key is configured. */
  function Handle(httpMethod: string, env: Env, upstream: Script): (x: Exchange)
    ensures httpMethod == "OPTIONS" ==> x == Preflighted
    ensures httpMethod != "OPTIONS" ==> SuccessOrFailure(x) && x.response.get.headers == JsonHeaders
    ensures httpMethod != "OPTIONS" && !Configured(env.hubspotDealsApiKey) ==> x == Refused(DealsKeyMissing)
    ensures httpMethod != "OPTIONS" && Configured(env.hubspotDealsApiKey) ==>
      && x.trace == [ListDealPipelines(env.hubspotDealsApiKey.value)]
      && x.response == Value(EdgeAnswer(PipelinesOutcome(upstream(0))))
  {
    if httpMethod == "OPTIONS" then Preflighted
    else if !Configured(env.hubspotDealsApiKey) then Refused(DealsKeyMissing)
    else Settled(PipelinesFlow(env.hubspotDealsApiKey.value, upstream))
  }

  /** For a GET the two deployments issue the same call and send the same JSON
      envelope, refusals included; an empty listing is a 404 on Vercel and a
      500 here. Any other method is a 405 on Vercel and still lists here. */
  lemma AgreesWithVercelOnGet(httpMethod: string, env: Env, upstream: Script)
    requires httpMethod != "OPTIONS"
    ensures var v, e := ApiDealStages.Handle(httpMethod, env, upstream), Handle(httpMethod, env, upstream);
      && (httpMethod == "GET" ==>
            && e.trace == v.trace
            && e.response.get.body == v.response.get.body
            && (e.response.get.status != v.response.get.status ==> e.response.get.status == 500))
      && (httpMethod != "GET" ==> v.trace == [] && v.response.get.status == 405 && (Configured(env.hubspotDealsApiKey) <==> e.trace != []))
  {
    if Configured(env.hubspotDealsApiKey) {
      AnswersAgree(PipelinesOutcome(upstream(0)));
    }
  }
}
