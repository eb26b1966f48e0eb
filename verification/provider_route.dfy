/** `POST /api/tournament/provider`: registers this application as a
    tournament provider for a region, naming its callback URL. */
module ProviderRoute {
  import opened JsValues
  import opened RiotConfig
  import opened Http

  /** The destructured request body; `None` is an absent key. */
  datatype ProviderFields = ProviderFields(region: Option<string>)

  const RequiredError: string := "Region is required"
  const UpstreamFailure: string := "Failed to register provider with Riot API"

  /** The checks in the order the handler makes them. */
  function Checks(env: Env, f: ProviderFields): seq<Guard>
  {
    [ Guard(!ValidateConfig(env).isValid, ConfigFailure(ValidateConfig(env))),
      Guard(!TruthyString(f.region), Response(400, ErrorBody(RequiredError))),
      Guard(RegionUrl(f.region.GetOr("")).None?, Response(400, ErrorBody(InvalidRegionError))) ]
  }

  /** Everything up to the `fetch`. The callback URL comes from the
      environment alone: no override base is passed. */
  function Prepare(env: Env, body: Option<ProviderFields>): (s: Step<ProviderRegistration>)
    ensures !ValidateConfig(env).isValid ==> s == Early(ConfigFailure(ValidateConfig(env)))
    ensures ValidateConfig(env).isValid && body.None? ==> s == Early(InternalError)
    ensures ValidateConfig(env).isValid && body.Some? && !TruthyString(body.value.region)
            ==> s == Early(Response(400, ErrorBody(RequiredError)))
    ensures ValidateConfig(env).isValid && body.Some? && TruthyString(body.value.region)
            && RegionUrl(body.value.region.value).None?
            ==> s == Early(Response(400, ErrorBody(InvalidRegionError)))
    ensures s.Outbound? <==>
              ValidateConfig(env).isValid && body.Some? && TruthyString(body.value.region)
              && RegionUrl(body.value.region.value).Some?
    ensures s.Outbound? ==>
              && s.request.riotToken == env.riotApiKey.value != ""
              && s.request.url == RegionUrl(body.value.region.value).value + "/lol/tournament/v5/providers"
              && s.request.payload.region == body.value.region.value
              && s.request.payload.url == CallbackUrl(None, env)
  {
    var check := ValidateConfig(env);
    if !check.isValid then Early(ConfigFailure(check))
    else if body.None? then Early(InternalError)
    else
      var f := body.value;
      if !TruthyString(f.region) then Early(Response(400, ErrorBody(RequiredError)))
      else
        var regionUrl := RegionUrl(f.region.value);
        if regionUrl.None? then Early(Response(400, ErrorBody(InvalidRegionError)))
        else
          Outbound(Post(regionUrl.value + RegisterProviderPath, env.riotApiKey.value,
                        ProviderRegistration(f.region.value, CallbackUrl(None, env))))
  }

  /** The whole handler, given what the `fetch` would return. */
  function Handle(env: Env, body: Option<ProviderFields>, up: Upstream): (r: Response)
    ensures Prepare(env, body).Outbound? && up.Reply? && !IsOk(up) ==>
              r == Response(up.status, UpstreamErrorBody(UpstreamFailure, up.text))
    ensures Prepare(env, body).Outbound? && IsOk(up) && up.json.Some? ==>
              && r.status == 200
              && r.body == ProviderBody(up.json.value, body.value.region.value, Prepare(env, body).request.payload.url)
    ensures r.status == 200 ==> Prepare(env, body).Outbound? && IsOk(up)
    ensures Prepare(env, body).Early? ==> r == Prepare(env, body).response
    ensures Prepare(env, body).Outbound? && (up.NetworkError? || (IsOk(up) && up.json.None?)) ==>
              r == InternalError
  {
    match Prepare(env, body)
    case Early(response) => response
    case Outbound(request) =>
      Settle(up, UpstreamFailure, json => ProviderBody(json, request.payload.region, request.payload.url))
  }

  // ---------------------------------------------------------------- lemmas

  /** The handler answers early exactly with the first failing check. */
  lemma FollowsChecks(env: Env, f: ProviderFields)
    ensures Prepare(env, Some(f)).Early? <==> FirstFailure(Checks(env, f)).Some?
    ensures Prepare(env, Some(f)).Early? ==>
              Prepare(env, Some(f)).response == FirstFailure(Checks(env, f)).value
  {
    var g := Checks(env, f);
    if g[0].fails { FirstFailureAt(g, 0); }
    else if g[1].fails { FirstFailureAt(g, 1); }
    else if g[2].fails { FirstFailureAt(g, 2); }
  }

  /** A rejected request never reaches the upstream. */
  lemma RejectedIgnoresUpstream(env: Env, body: Option<ProviderFields>, u1: Upstream, u2: Upstream)
    requires Prepare(env, body).Early?
    ensures Handle(env, body, u1) == Handle(env, body, u2)
    ensures Handle(env, body, u1) == Prepare(env, body).response
    ensures Handle(env, body, u1).status in {400, 500}
  {
  }

  /** The callback URL reported on success is the one registered upstream,
      and it ends in the callback path behind a non-empty base. */
  lemma ReportedCallbackWasSent(env: Env, body: Option<ProviderFields>, up: Upstream)
    requires Handle(env, body, up).status == 200
    ensures Prepare(env, body).Outbound?
    ensures Handle(env, body, up).body.ProviderBody?
    ensures Handle(env, body, up).body.callbackUrl == Prepare(env, body).request.payload.url
    ensures var url := Handle(env, body, up).body.callbackUrl;
            |url| > |CallbackPath| && url[|url| - |CallbackPath|..] == CallbackPath
            && CallbackBase(url) != ""
  {
  }
}
