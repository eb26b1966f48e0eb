/** `POST /api/tournament/create`: checks the request, then registers a
    tournament under a provider with Riot. */
module CreateRoute {
  import opened JsValues
  import opened RiotConfig
  import opened Http

  /** The destructured request body; `None` is an absent key. */
  datatype CreateFields = CreateFields(name: Option<string>, providerId: Option<int>, region: Option<string>)

  const RequiredError: string := "Name, providerId, and region are required"
  const UpstreamFailure: string := "Failed to create tournament with Riot API"

  /** The checks in the order the handler makes them. */
  function Checks(env: Env, f: CreateFields): seq<Guard>
  {
    [ Guard(!ValidateConfig(env).isValid, ConfigFailure(ValidateConfig(env))),
      Guard(!TruthyString(f.name) || !TruthyInt(f.providerId) || !TruthyString(f.region),
            Response(400, ErrorBody(RequiredError))),
      Guard(RegionUrl(f.region.GetOr("")).None?, Response(400, ErrorBody(InvalidRegionError))) ]
  }

  /** Everything up to the `fetch`. The payload names the tournament and
      its provider; the region picks the host and is not sent. */
  function Prepare(env: Env, body: Option<CreateFields>): (s: Step<TournamentRegistration>)
    ensures !ValidateConfig(env).isValid ==> s == Early(ConfigFailure(ValidateConfig(env)))
    ensures ValidateConfig(env).isValid && body.None? ==> s == Early(InternalError)
    ensures ValidateConfig(env).isValid && body.Some?
            && (!TruthyString(body.value.name) || !TruthyInt(body.value.providerId) || !TruthyString(body.value.region))
            ==> s == Early(Response(400, ErrorBody(RequiredError)))
    ensures ValidateConfig(env).isValid && body.Some?
            && TruthyString(body.value.name) && TruthyInt(body.value.providerId) && TruthyString(body.value.region)
            && RegionUrl(body.value.region.value).None?
            ==> s == Early(Response(400, ErrorBody(InvalidRegionError)))
    ensures s.Outbound? <==>
              && ValidateConfig(env).isValid && body.Some?
              && TruthyString(body.value.name) && TruthyInt(body.value.providerId) && TruthyString(body.value.region)
              && RegionUrl(body.value.region.value).Some?
    ensures s.Outbound? ==>
              && s.request.riotToken == env.riotApiKey.value != ""
              && s.request.url == RegionUrl(body.value.region.value).value + "/lol/tournament/v5/tournaments"
              && s.request.payload.name == body.value.name.value != ""
              && s.request.payload.providerId == body.value.providerId.value != 0
  {
    var check := ValidateConfig(env);
    if !check.isValid then Early(ConfigFailure(check))
    else if body.None? then Early(InternalError)
    else
      var f := body.value;
      if !TruthyString(f.name) || !TruthyInt(f.providerId) || !TruthyString(f.region) then
        Early(Response(400, ErrorBody(RequiredError)))
      else
        var regionUrl := RegionUrl(f.region.value);
        if regionUrl.None? then Early(Response(400, ErrorBody(InvalidRegionError)))
        else
          Outbound(Post(regionUrl.value + RegisterTournamentPath, env.riotApiKey.value,
                        TournamentRegistration(f.name.value, f.providerId.value)))
  }

  /** The whole handler, given what the `fetch` would return. */
  function Handle(env: Env, body: Option<CreateFields>, up: Upstream): (r: Response)
    ensures Prepare(env, body).Outbound? && up.Reply? && !IsOk(up) ==>
              r == Response(up.status, UpstreamErrorBody(UpstreamFailure, up.text))
    ensures Prepare(env, body).Outbound? && IsOk(up) && up.json.Some? ==>
              r == Response(200, TournamentBody(up.json.value, body.value.name.value,
                                                body.value.providerId.value, body.value.region.value))
    ensures r.status == 200 ==> Prepare(env, body).Outbound? && IsOk(up)
    ensures Prepare(env, body).Early? ==> r == Prepare(env, body).response
    ensures Prepare(env, body).Outbound? && (up.NetworkError? || (IsOk(up) && up.json.None?)) ==>
              r == InternalError
  {
    match Prepare(env, body)
    case Early(response) => response
    case Outbound(request) =>
      var f := body.value;
      Settle(up, UpstreamFailure,
             json => TournamentBody(json, request.payload.name, request.payload.providerId, f.region.value))
  }

  // ---------------------------------------------------------------- lemmas

  /** The handler answers early exactly with the first failing check. */
  lemma FollowsChecks(env: Env, f: CreateFields)
    ensures Prepare(env, Some(f)).Early? <==> FirstFailure(Checks(env, f)).Some?
    ensures Prepare(env, Some(f)).Early? ==>
              Prepare(env, Some(f)).response == FirstFailure(Checks(env, f)).value
  {
    var g := Checks(env, f);
    if g[0].fails { FirstFailureAt(g, 0); }
    else if g[1].fails { FirstFailureAt(g, 1); }
    else if g[2].fails { FirstFailureAt(g, 2); }
  }

  /** A rejected request never reaches the upstream. */
  lemma RejectedIgnoresUpstream(env: Env, body: Option<CreateFields>, u1: Upstream, u2: Upstream)
    requires Prepare(env, body).Early?
    ensures Handle(env, body, u1) == Handle(env, body, u2)
    ensures Handle(env, body, u1) == Prepare(env, body).response
    ensures Handle(env, body, u1).status in {400, 500}
  {
  }

  /** On success the echoed name and provider are the ones sent upstream. */
  lemma EchoMatchesPayload(env: Env, body: Option<CreateFields>, up: Upstream)
    requires Handle(env, body, up).status == 200
    ensures Prepare(env, body).Outbound?
    ensures Handle(env, body, up).body.TournamentBody?
    ensures Handle(env, body, up).body.name == Prepare(env, body).request.payload.name
    ensures Handle(env, body, up).body.providerId == Prepare(env, body).request.payload.providerId
    ensures RegionUrl(Handle(env, body, up).body.region).Some?
  {
  }
}
