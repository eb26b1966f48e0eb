/** What the tournament handlers exchange with the outside: the response
    they return, the one POST they may send upstream, the outcome of that
    POST, and the ordered list of checks that can end a request early. */
module Http {
  import opened JsValues
  import opened RiotConfig

  /** The JSON bodies the handlers return. */
  datatype Body =
    | ErrorBody(error: string)
      /** `{ error: 'Configuration error', details }` */
    | ConfigErrorBody(configDetails: seq<string>)
      /** `{ error, details }` with the upstream's raw error text. */
    | UpstreamErrorBody(error: string, details: string)
    | CodesBody(tournamentCodes: Json, tournamentId: int, count: int, settings: TournamentCodeRequest)
      /** `{ tournamentId, name, providerId, region }`; the first field is the
          id the upstream returned. */
    | TournamentBody(newTournamentId: Json, name: string, providerId: int, region: string)
      /** `{ providerId, region, callbackUrl }`; the first field is the id
          the upstream returned. */
    | ProviderBody(newProviderId: Json, region: string, callbackUrl: string)
    | AckBody(success: bool, message: string)

  /** `NextResponse.json(body, { status })`; the status defaults to 200. */
  datatype Response = Response(status: int, body: Body)

  const InternalServerError: string := "Internal server error"

  /** What every handler's `catch` returns. */
  const InternalError: Response := Response(500, ErrorBody(InternalServerError))

  const InvalidRegionError: string := "Invalid region"

  /** The 500 a Riot handler returns when the environment check fails,
      listing that check's errors. */
  function ConfigFailure(check: ConfigCheck): (r: Response)
    ensures r.status == 500 && r.body.ConfigErrorBody? && r.body.configDetails == check.errors
    ensures r != InternalError
  {
    Response(500, ConfigErrorBody(check.errors))
  }

  /** The outbound `fetch`: a POST of a JSON payload to `url`, carrying the
      API key in the `X-Riot-Token` header. The constant
      `Content-Type: application/json` header every route also sends is
      not represented. */
  datatype Request<P> = Post(url: string, riotToken: string, payload: P)

  /** Where a handler stands once its checks are done: it has already
      answered, or it has one request to send. */
  datatype Step<P> = Early(response: Response) | Outbound(request: Request<P>)

  /** The outcome of the outbound `fetch`. A reply has a status, its raw
      text and, when that text is JSON, the parsed value; a network failure
      makes `fetch` throw. */
  datatype Upstream = Reply(status: int, text: string, json: Option<Json>) | NetworkError

  /** `response.ok`: a status in the range 200 to 299. */
  function IsOk(up: Upstream): (b: bool)
    ensures b <==> up.Reply? && up.status / 100 == 2
  {
    up.Reply? && 200 <= up.status <= 299
  }

  /** The common tail of the three Riot handlers: a reply that is not ok is
      relayed with its own status and text under `failMessage`; an ok reply
      whose JSON parses becomes `success(json)` with status 200; anything
      that throws is caught as a 500. */
  function Settle(up: Upstream, failMessage: string, success: Json -> Body): (r: Response)
    ensures up.Reply? && !IsOk(up) ==> r == Response(up.status, UpstreamErrorBody(failMessage, up.text))
    ensures IsOk(up) && up.json.Some? ==> r == Response(200, success(up.json.value))
    ensures up.NetworkError? || (IsOk(up) && up.json.None?) ==> r == InternalError
  {
    match up
    case NetworkError => InternalError
    case Reply(status, text, json) =>
      if !(200 <= status <= 299) then Response(status, UpstreamErrorBody(failMessage, text))
      else if json.None? then InternalError
      else Response(200, success(json.value))
  }

  // ------------------------------------------------------- ordered checks

  /** One check of a handler's validation cascade: whether it fails, and the
      response the handler gives when it is the first to fail. */
  datatype Guard = Guard(fails: bool, response: Response)

  /** The response of the first failing check, if any check fails. */
  function FirstFailure(guards: seq<Guard>): (r: Option<Response>)
    ensures r.None? <==> forall i :: 0 <= i < |guards| ==> !guards[i].fails
    ensures r.Some? ==>
              exists i :: 0 <= i < |guards| && guards[i].fails && guards[i].response == r.value
                          && forall j :: 0 <= j < i ==> !guards[j].fails
    decreases |guards|
  {
    if |guards| == 0 then None
    else if guards[0].fails then Some(guards[0].response)
    else FirstFailure(guards[1..])
  }

  /** When check `k` fails and every earlier one passes, the cascade
      answers with check `k`, whatever the later checks say. */
  lemma FirstFailureAt(guards: seq<Guard>, k: nat)
    requires k < |guards| && guards[k].fails
    requires forall j :: 0 <= j < k ==> !guards[j].fails
    ensures FirstFailure(guards) == Some(guards[k].response)
  {
  }
}
