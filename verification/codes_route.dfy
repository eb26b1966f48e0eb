/** `POST /api/tournament/codes`: checks the request, then asks Riot to
    create `count` tournament codes for a tournament. */
module CodesRoute {
  import opened JsValues
  import opened Decimal
  import opened RiotConfig
  import opened Http

  /** The destructured request body; `None` is an absent key. */
  datatype CodesFields = CodesFields(
    tournamentId: Option<int>,
    region: Option<string>,
    count: Option<int>,
    teamSize: Option<int>,
    pickType: Option<string>,
    mapType: Option<string>,
    spectatorType: Option<string>,
    metadata: Option<string>,
    allowedSummonerIds: Option<seq<string>>)

  const RequiredError: string := "Tournament ID and region are required"
  const CountRangeError: string := "Count must be between 1 and 1000"
  const UpstreamFailure: string := "Failed to generate tournament codes with Riot API"

  const MinCount: int := 1
  const MaxCount: int := 1000

  const DefaultCount: int := 1
  const DefaultTeamSize: int := 5
  const DefaultPickType: string := "BLIND_PICK"
  const DefaultMapType: string := "SUMMONERS_RIFT"
  const DefaultSpectatorType: string := "ALL"

  /** The count after its default (`count = 1`): only an absent count
      takes the default. */
  function Count(f: CodesFields): (c: int)
    ensures f.count.None? ==> c == 1
    ensures f.count.Some? ==> c == f.count.value
  {
    f.count.GetOr(DefaultCount)
  }

  /** The `codeRequest` object: defaults for absent fields; `metadata` only
      when it is non-empty; `allowedSummonerIds` only when the list has
      entries; the type names passed through unchecked. */
  function CodeRequestOf(f: CodesFields): (req: TournamentCodeRequest)
    ensures f.teamSize.None? ==> req.teamSize == 5
    ensures f.teamSize.Some? ==> req.teamSize == f.teamSize.value
    ensures f.pickType.None? ==> req.pickType == "BLIND_PICK"
    ensures f.pickType.Some? ==> req.pickType == f.pickType.value
    ensures f.mapType.None? ==> req.mapType == "SUMMONERS_RIFT"
    ensures f.mapType.Some? ==> req.mapType == f.mapType.value
    ensures f.spectatorType.None? ==> req.spectatorType == "ALL"
    ensures f.spectatorType.Some? ==> req.spectatorType == f.spectatorType.value
    ensures req.metadata.Some? <==> TruthyString(f.metadata)
    ensures req.metadata.Some? ==> req.metadata == f.metadata && req.metadata.value != ""
    ensures req.allowedSummonerIds.Some? <==> f.allowedSummonerIds.Some? && |f.allowedSummonerIds.value| > 0
    ensures req.allowedSummonerIds.Some? ==> req.allowedSummonerIds == f.allowedSummonerIds
  {
    var metadata := f.metadata.GetOr("");
    var allowed := f.allowedSummonerIds.GetOr([]);
    TournamentCodeRequest(
      f.teamSize.GetOr(DefaultTeamSize),
      f.pickType.GetOr(DefaultPickType),
      f.mapType.GetOr(DefaultMapType),
      f.spectatorType.GetOr(DefaultSpectatorType),
      if metadata != "" then Some(metadata) else None,
      if |allowed| > 0 then Some(allowed) else None)
  }

  // ----------------------------------------------------------- query string

  const IdKey: string := "?tournamentId="
  const CountKey: string := "&count="

  /** `?tournamentId=${tournamentId}&count=${count}`. */
  function CodesQuery(tournamentId: int, count: int): (q: string)
    ensures ParseCodesQuery(q) == Some((tournamentId, count))
  {
    CodesQueryRoundTrip(tournamentId, count);
    IdKey + IntToDecimal(tournamentId) + CountKey + IntToDecimal(count)
  }

  /** The first position of `c` in `s`. */
  function IndexOf(s: string, c: char): (r: Option<nat>)
    ensures r.None? <==> c !in s
    ensures r.Some? ==> r.value < |s| && s[r.value] == c && c !in s[..r.value]
  {
    if |s| == 0 then None
    else if s[0] == c then Some(0)
    else
      var k := IndexOf(s[1..], c);
      if k.None? then None
      else
        assert s[..k.value + 1] == [s[0]] + s[1..][..k.value];
        Some(k.value + 1)
  }

  lemma IndexOfAfterPrefix(a: string, c: char, t: string)
    requires c !in a
    ensures IndexOf(a + [c] + t, c) == Some(|a|)
  {
    assert (a + [c] + t)[|a|] == c;
  }

  /** What follows `prefix` in `s`, when `s` starts with it. */
  function StripPrefix(s: string, prefix: string): (r: Option<string>)
    ensures r.Some? ==> s == prefix + r.value
  {
    if |prefix| <= |s| && s[..|prefix|] == prefix then Some(s[|prefix|..]) else None
  }

  lemma StripPrefixOf(prefix: string, t: string)
    ensures StripPrefix(prefix + t, prefix) == Some(t)
  {
  }

  /** Reads the tournament id and count back out of a codes query string. */
  function ParseCodesQuery(q: string): Option<(int, int)>
  {
    match StripPrefix(q, IdKey)
    case None => None
    case Some(rest) => ParseIdThenCount(rest)
  }

  /** What follows `?tournamentId=`: the id runs up to the first `&`. */
  function ParseIdThenCount(rest: string): Option<(int, int)>
  {
    match IndexOf(rest, '&')
    case None => None
    case Some(amp) => ParseCountAfter(rest[..amp], rest[amp..])
  }

  /** The id's text, then `&count=` and the count's text. */
  function ParseCountAfter(idText: string, tail: string): Option<(int, int)>
  {
    match StripPrefix(tail, CountKey)
    case None => None
    case Some(countText) =>
      var id := ParseDecimal(idText);
      var count := ParseDecimal(countText);
      if id.None? || count.None? then None
      else Some((id.value, count.value))
  }

  lemma ParseQueryParts(a: string, b: string)
    requires '&' !in a
    requires ParseDecimal(a).Some? && ParseDecimal(b).Some?
    ensures ParseCodesQuery(IdKey + a + CountKey + b) == Some((ParseDecimal(a).value, ParseDecimal(b).value))
  {
    var rest := a + CountKey + b;
    assert IdKey + a + CountKey + b == IdKey + rest;
    StripPrefixOf(IdKey, rest);
    IdThenCountOf(a, b);
    CountAfterOf(a, b);
  }

  lemma IdThenCountOf(a: string, b: string)
    requires '&' !in a
    ensures ParseIdThenCount(a + CountKey + b) == ParseCountAfter(a, CountKey + b)
  {
    var amp := AmpersandAt(a, b);
    var rest := a + CountKey + b;
    assert rest[..amp] == a && rest[amp..] == CountKey + b;
  }

  lemma CountAfterOf(a: string, b: string)
    requires ParseDecimal(a).Some? && ParseDecimal(b).Some?
    ensures ParseCountAfter(a, CountKey + b) == Some((ParseDecimal(a).value, ParseDecimal(b).value))
  {
    StripPrefixOf(CountKey, b);
  }

  lemma AmpersandAt(a: string, b: string) returns (amp: nat)
    requires '&' !in a
    ensures amp == |a|
    ensures IndexOf(a + CountKey + b, '&') == Some(amp)
  {
    assert CountKey == ['&'] + "count=";
    assert a + CountKey + b == a + ['&'] + ("count=" + b);
    IndexOfAfterPrefix(a, '&', "count=" + b);
    amp := |a|;
  }

  lemma DecimalHasNoAmpersand(n: int)
    ensures '&' !in IntToDecimal(n)
  {
  }

  /** The query the handler writes names exactly the tournament id and
      count it validated. */
  lemma CodesQueryRoundTrip(tournamentId: int, count: int)
    ensures ParseCodesQuery(IdKey + IntToDecimal(tournamentId) + CountKey + IntToDecimal(count))
            == Some((tournamentId, count))
  {
    DecimalHasNoAmpersand(tournamentId);
    DecimalRoundTrip(tournamentId);
    DecimalRoundTrip(count);
    ParseQueryParts(IntToDecimal(tournamentId), IntToDecimal(count));
  }

  /** The parser reads `(id, count)` from a text iff that text is the
      query the handler writes for them: no other spelling (leading zeros,
      `-0`, extra characters) reads the same. */
  lemma CodesQueryExact(q: string, tournamentId: int, count: int)
    ensures ParseCodesQuery(q) == Some((tournamentId, count)) <==> q == CodesQuery(tournamentId, count)
  {
    if ParseCodesQuery(q) == Some((tournamentId, count)) {
      var a, b := QueryParts(q);
      DecimalParseExact(a, tournamentId);
      DecimalParseExact(b, count);
    }
  }

  /** A query the parser accepts is the two keys around two decimals. */
  lemma QueryParts(q: string) returns (a: string, b: string)
    requires ParseCodesQuery(q).Some?
    ensures q == IdKey + a + CountKey + b
    ensures ParseDecimal(a) == Some(ParseCodesQuery(q).value.0)
    ensures ParseDecimal(b) == Some(ParseCodesQuery(q).value.1)
  {
    var rest := StripPrefix(q, IdKey).value;
    var tail;
    a, tail := IdThenCountParts(rest);
    b := CountAfterParts(a, tail);
    assert q == IdKey + (a + (CountKey + b));
  }

  lemma IdThenCountParts(rest: string) returns (a: string, tail: string)
    requires ParseIdThenCount(rest).Some?
    ensures rest == a + tail
    ensures ParseCountAfter(a, tail) == ParseIdThenCount(rest)
  {
    var amp := IndexOf(rest, '&').value;
    a, tail := rest[..amp], rest[amp..];
  }

  lemma CountAfterParts(idText: string, tail: string) returns (b: string)
    requires ParseCountAfter(idText, tail).Some?
    ensures tail == CountKey + b
    ensures ParseDecimal(idText) == Some(ParseCountAfter(idText, tail).value.0)
    ensures ParseDecimal(b) == Some(ParseCountAfter(idText, tail).value.1)
  {
    b := StripPrefix(tail, CountKey).value;
  }

  // ---------------------------------------------------------------- handler

  /** The checks in the order the handler makes them. */
  function Checks(env: Env, f: CodesFields): seq<Guard>
  {
    var region := f.region.GetOr("");
    [ Guard(!ValidateConfig(env).isValid, ConfigFailure(ValidateConfig(env))),
      Guard(!TruthyInt(f.tournamentId) || !TruthyString(f.region), Response(400, ErrorBody(RequiredError))),
      Guard(RegionUrl(region).None?, Response(400, ErrorBody(InvalidRegionError))),
      Guard(Count(f) < MinCount || Count(f) > MaxCount, Response(400, ErrorBody(CountRangeError))) ]
  }

  /** Everything up to the `fetch`: the early answer, or the request to
      send. `body` is `None` when the request body cannot be read. */
  function Prepare(env: Env, body: Option<CodesFields>): (s: Step<TournamentCodeRequest>)
    ensures !ValidateConfig(env).isValid ==> s == Early(ConfigFailure(ValidateConfig(env)))
    ensures ValidateConfig(env).isValid && body.None? ==> s == Early(InternalError)
    ensures ValidateConfig(env).isValid && body.Some?
            && (!TruthyInt(body.value.tournamentId) || !TruthyString(body.value.region))
            ==> s == Early(Response(400, ErrorBody(RequiredError)))
    ensures ValidateConfig(env).isValid && body.Some?
            && TruthyInt(body.value.tournamentId) && TruthyString(body.value.region)
            && RegionUrl(body.value.region.value).None?
            ==> s == Early(Response(400, ErrorBody(InvalidRegionError)))
    ensures ValidateConfig(env).isValid && body.Some?
            && TruthyInt(body.value.tournamentId) && TruthyString(body.value.region)
            && RegionUrl(body.value.region.value).Some?
            && (Count(body.value) < 1 || Count(body.value) > 1000)
            ==> s == Early(Response(400, ErrorBody(CountRangeError)))
    ensures s.Outbound? <==>
              && ValidateConfig(env).isValid && body.Some?
              && TruthyInt(body.value.tournamentId) && TruthyString(body.value.region)
              && RegionUrl(body.value.region.value).Some?
              && 1 <= Count(body.value) <= 1000
    ensures s.Outbound? ==>
              && s.request.riotToken == env.riotApiKey.value != ""
              && s.request.payload == CodeRequestOf(body.value)
              && var prefix := RegionUrl(body.value.region.value).value + CreateCodesPath;
                 && s.request.url == prefix + CodesQuery(body.value.tournamentId.value, Count(body.value))
                 && |prefix| <= |s.request.url|
                 && s.request.url[..|prefix|] == prefix
                 && ParseCodesQuery(s.request.url[|prefix|..])
                    == Some((body.value.tournamentId.value, Count(body.value)))
  {
    var check := ValidateConfig(env);
    if !check.isValid then Early(ConfigFailure(check))
    else if body.None? then Early(InternalError)
    else
      var f := body.value;
      if !TruthyInt(f.tournamentId) || !TruthyString(f.region) then
        Early(Response(400, ErrorBody(RequiredError)))
      else
        var regionUrl := RegionUrl(f.region.value);
        if regionUrl.None? then Early(Response(400, ErrorBody(InvalidRegionError)))
        else
          var count := Count(f);
          if count < MinCount || count > MaxCount then Early(Response(400, ErrorBody(CountRangeError)))
          else
            var prefix := regionUrl.value + CreateCodesPath;
            var url := prefix + CodesQuery(f.tournamentId.value, count);
            assert url[..|prefix|] == prefix && url[|prefix|..] == CodesQuery(f.tournamentId.value, count);
            Outbound(Post(url, env.riotApiKey.value, CodeRequestOf(f)))
  }

  /** The whole handler, given what the `fetch` would return. */
  function Handle(env: Env, body: Option<CodesFields>, up: Upstream): (r: Response)
    ensures Prepare(env, body).Outbound? && up.Reply? && !IsOk(up) ==>
              r == Response(up.status, UpstreamErrorBody(UpstreamFailure, up.text))
    ensures Prepare(env, body).Outbound? && IsOk(up) && up.json.Some? ==>
              && r.status == 200
              && r.body == CodesBody(up.json.value, body.value.tournamentId.value, Count(body.value),
                                     Prepare(env, body).request.payload)
    ensures r.status == 200 ==> Prepare(env, body).Outbound? && IsOk(up)
    ensures Prepare(env, body).Early? ==> r == Prepare(env, body).response
    ensures Prepare(env, body).Outbound? && (up.NetworkError? || (IsOk(up) && up.json.None?)) ==>
              r == InternalError
  {
    match Prepare(env, body)
    case Early(response) => response
    case Outbound(request) =>
      var f := body.value;
      Settle(up, UpstreamFailure, json => CodesBody(json, f.tournamentId.value, Count(f), request.payload))
  }

  // ---------------------------------------------------------------- lemmas

  /** The handler answers early exactly with the first failing check. */
  lemma FollowsChecks(env: Env, f: CodesFields)
    ensures Prepare(env, Some(f)).Early? <==> FirstFailure(Checks(env, f)).Some?
    ensures Prepare(env, Some(f)).Early? ==>
              Prepare(env, Some(f)).response == FirstFailure(Checks(env, f)).value
  {
    var g := Checks(env, f);
    if g[0].fails { FirstFailureAt(g, 0); }
    else if g[1].fails { FirstFailureAt(g, 1); }
    else if g[2].fails { FirstFailureAt(g, 2); }
    else if g[3].fails { FirstFailureAt(g, 3); }
  }

  /** A rejected request never reaches the upstream: the answer is the
      same whatever the upstream would have said. */
  lemma RejectedIgnoresUpstream(env: Env, body: Option<CodesFields>, u1: Upstream, u2: Upstream)
    requires Prepare(env, body).Early?
    ensures Handle(env, body, u1) == Handle(env, body, u2)
    ensures Handle(env, body, u1) == Prepare(env, body).response
    ensures Handle(env, body, u1).status in {400, 500}
  {
  }

  /** The `settings` echoed on success are the very request sent upstream. */
  lemma SettingsEchoSentRequest(env: Env, body: Option<CodesFields>, up: Upstream)
    requires Handle(env, body, up).status == 200
    ensures Prepare(env, body).Outbound?
    ensures Handle(env, body, up).body.CodesBody?
    ensures Handle(env, body, up).body.settings == Prepare(env, body).request.payload
    ensures Handle(env, body, up).body.tournamentId == body.value.tournamentId.value
    ensures 1 <= Handle(env, body, up).body.count <= 1000
  {
  }

  /** With only the two required fields, the request carries every default
      and neither optional key. */
  lemma MinimalRequestDefaults(tournamentId: int, region: string)
    ensures var f := CodesFields(Some(tournamentId), Some(region), None, None, None, None, None, None, None);
            && Count(f) == 1
            && CodeRequestOf(f) == TournamentCodeRequest(5, "BLIND_PICK", "SUMMONERS_RIFT", "ALL", None, None)
  {
  }

  lemma ExampleDigits()
    ensures IntToDecimal(123) == "123" && IntToDecimal(3) == "3"
  {
    assert NatToDigits(1) == "1";
    assert NatToDigits(12) == "12";
    assert NatToDigits(123) == "123";
  }

  lemma ExampleQuery()
    ensures IdKey + IntToDecimal(123) + CountKey + IntToDecimal(3) == "?tournamentId=123&count=3"
  {
    ExampleDigits();
  }

  /** `{ tournamentId: 123, region: "AMERICAS", count: 3 }` with a key set:
      the exact request sent, and the answer once Riot returns codes. */
  lemma AmericasExample(key: string, codes: Json)
    requires key != ""
    ensures var env := Env(Some(key), None, None);
            var body := Some(CodesFields(Some(123), Some("AMERICAS"), Some(3), None, None, None, None, None, None));
            var settings := TournamentCodeRequest(5, "BLIND_PICK", "SUMMONERS_RIFT", "ALL", None, None);
            && Prepare(env, body)
               == Outbound(Post(AmericasHost + CreateCodesPath + "?tournamentId=123&count=3", key, settings))
            && Handle(env, body, Reply(200, "", Some(codes))) == Response(200, CodesBody(codes, 123, 3, settings))
  {
    var env := Env(Some(key), None, None);
    var f := CodesFields(Some(123), Some("AMERICAS"), Some(3), None, None, None, None, None, None);
    var settings := TournamentCodeRequest(5, "BLIND_PICK", "SUMMONERS_RIFT", "ALL", None, None);
    assert ValidateConfig(env).isValid;
    assert RegionUrl("AMERICAS") == Some(AmericasHost);
    assert CodeRequestOf(f) == settings;
    var s := Prepare(env, Some(f));
    assert s.Outbound? && s.request.url == AmericasHost + CreateCodesPath + CodesQuery(123, 3);
    assert CodesQuery(123, 3) == IdKey + IntToDecimal(123) + CountKey + IntToDecimal(3);
    ExampleQuery();
    assert s == Outbound(Post(AmericasHost + CreateCodesPath + "?tournamentId=123&count=3", key, settings));
  }
}
