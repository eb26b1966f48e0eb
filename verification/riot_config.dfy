/** The shared Riot Tournament v5 configuration: the region and endpoint
    tables, the callback URL builder, the environment check, and the
    payload shapes the handlers send upstream. */
module RiotConfig {
  import opened JsValues

  /** The three environment variables the handlers read. Each is absent
      or a string; an empty string is as falsy as an absent one. */
  datatype Env = Env(riotApiKey: Option<string>, publicBaseUrl: Option<string>, nodeEnv: Option<string>)

  // ---------------------------------------------------------------- tables

  const AmericasHost: string := "https://americas.api.riotgames.com"
  const EuropeHost: string := "https://europe.api.riotgames.com"
  const AsiaHost: string := "https://asia.api.riotgames.com"

  /** `RIOT_API_CONFIG.REGIONS`, keyed by the exact region name. */
  const Regions: map<string, string> :=
    map["AMERICAS" := AmericasHost, "EUROPE" := EuropeHost, "ASIA" := AsiaHost]

  const RegisterProviderPath: string := "/lol/tournament/v5/providers"
  const RegisterTournamentPath: string := "/lol/tournament/v5/tournaments"
  const CreateCodesPath: string := "/lol/tournament/v5/codes"

  /** `RIOT_API_CONFIG.REGIONS[region]`: the host for a known region name,
      nothing for any other string. */
  function RegionUrl(region: string): (r: Option<string>)
    ensures r.Some? <==> region == "AMERICAS" || region == "EUROPE" || region == "ASIA"
    ensures region == "AMERICAS" ==> r == Some(AmericasHost)
    ensures region == "EUROPE" ==> r == Some(EuropeHost)
    ensures region == "ASIA" ==> r == Some(AsiaHost)
    ensures r.Some? ==> r.value != ""
  {
    if region in Regions then Some(Regions[region]) else None
  }

  /** Different regions never share a host. */
  lemma RegionHostsDistinct(a: string, b: string)
    requires RegionUrl(a).Some? && RegionUrl(b).Some?
    ensures RegionUrl(a) == RegionUrl(b) <==> a == b
  {
  }

  // ---------------------------------------------------------- callback URL

  const CallbackPath: string := "/api/tournament/callback"
  const LocalBaseUrl: string := "http://localhost:3000"

  /** `getCallbackUrl(baseUrl)`: the first truthy of the explicit base,
      `NEXT_PUBLIC_BASE_URL` and the local fallback, followed by the
      callback path. */
  function CallbackUrl(baseUrl: Option<string>, env: Env): (url: string)
    ensures |url| > |CallbackPath|
    ensures url[|url| - |CallbackPath|..] == CallbackPath
    ensures TruthyString(baseUrl) ==> url == baseUrl.value + CallbackPath
    ensures !TruthyString(baseUrl) && TruthyString(env.publicBaseUrl) ==> url == env.publicBaseUrl.value + CallbackPath
    ensures !TruthyString(baseUrl) && !TruthyString(env.publicBaseUrl) ==> url == LocalBaseUrl + CallbackPath
  {
    var base := Or(Or(baseUrl, env.publicBaseUrl), Some(LocalBaseUrl));
    base.value + CallbackPath
  }

  /** The part of a callback URL before the callback path. */
  function CallbackBase(url: string): string
    requires |url| >= |CallbackPath|
  {
    url[..|url| - |CallbackPath|]
  }

  /** The base a callback URL was built from can be read back from it, and
      it is never empty: an empty override or environment value is passed
      over, not used. */
  lemma CallbackBaseRecovered(baseUrl: Option<string>, env: Env)
    ensures CallbackBase(CallbackUrl(baseUrl, env)) != ""
    ensures CallbackBase(CallbackUrl(baseUrl, env)) ==
              if TruthyString(baseUrl) then baseUrl.value
              else if TruthyString(env.publicBaseUrl) then env.publicBaseUrl.value
              else LocalBaseUrl
  {
  }

  // --------------------------------------------------- configuration check

  const MissingKeyError: string := "RIOT_API_KEY environment variable is required"
  const MissingBaseUrlError: string := "NEXT_PUBLIC_BASE_URL should be set for production"

  datatype ConfigCheck = ConfigCheck(isValid: bool, errors: seq<string>)

  /** `NODE_ENV === 'production'`: an exact, case-sensitive match. */
  function IsProduction(env: Env): (b: bool)
    ensures b <==> env.nodeEnv.Some? && env.nodeEnv.value == "production"
    ensures env.nodeEnv.None? || env.nodeEnv == Some("Production") || env.nodeEnv == Some("") ==> !b
  {
    env.nodeEnv == Some("production")
  }

  /** `validateRiotApiConfig()`: the key error whenever the key is falsy,
      the base URL error only in production, key error first. */
  function ValidateConfig(env: Env): (c: ConfigCheck)
    ensures c.isValid <==> |c.errors| == 0
    ensures MissingKeyError in c.errors <==> !TruthyString(env.riotApiKey)
    ensures MissingBaseUrlError in c.errors <==> !TruthyString(env.publicBaseUrl) && IsProduction(env)
    ensures forall e :: e in c.errors ==> e == MissingKeyError || e == MissingBaseUrlError
    ensures |c.errors| <= 2
    ensures |c.errors| == 2 ==> c.errors[0] == MissingKeyError && c.errors[1] == MissingBaseUrlError
    ensures c.isValid ==> TruthyString(env.riotApiKey)
  {
    var keyErrors := if !TruthyString(env.riotApiKey) then [MissingKeyError] else [];
    var baseErrors := if !TruthyString(env.publicBaseUrl) && IsProduction(env) then [MissingBaseUrlError] else [];
    var errors := keyErrors + baseErrors;
    ConfigCheck(|errors| == 0, errors)
  }

  /** Outside production only the API key matters. */
  lemma OnlyKeyOutsideProduction(env: Env)
    requires !IsProduction(env)
    ensures ValidateConfig(env).isValid <==> TruthyString(env.riotApiKey)
    ensures !ValidateConfig(env).isValid ==> ValidateConfig(env).errors == [MissingKeyError]
  {
  }

  // ------------------------------------------------------- upstream payloads

  /** `ProviderRegistration`. */
  datatype ProviderRegistration = ProviderRegistration(region: string, url: string)

  /** `TournamentRegistration`. */
  datatype TournamentRegistration = TournamentRegistration(name: string, providerId: int)

  /** `TournamentCodeRequest`. `None` in `metadata` or `allowedSummonerIds`
      means the key is left out of the JSON object. The three type fields
      are whatever strings the caller sent: the handler casts, it does
      not check them against the allowed names. */
  datatype TournamentCodeRequest = TournamentCodeRequest(
    teamSize: int,
    pickType: string,
    mapType: string,
    spectatorType: string,
    metadata: Option<string>,
    allowedSummonerIds: Option<seq<string>>)
}
