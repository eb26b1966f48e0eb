# Riot tournament handlers: a Dafny model

This project models the request checking and request building of the League
custom tracker's Riot Tournament v5 endpoints, and the configuration
helpers they share. It proves properties of that model.

Each handler does its work in this order:
1. It checks the environment configuration.
2. It checks the required body fields, using JavaScript truthiness.
3. It looks up the region in the three-entry host table.
4. For codes only, it range-checks the count.
5. It builds one outbound POST.
6. It turns the upstream outcome into its response.

Each route is modelled as pure functions:

- `Prepare(env, body)` returns a `Step`. The step is either `Early(response)`, meaning no request goes upstream, or `Outbound(request)`, which holds the URL, the `X-Riot-Token` value and the JSON payload.
- `Handle(env, body, upstream)` gives the final response. The upstream outcome is passed in as a parameter rather than fetched.

Modules:

- `JsValues`: optional values, JSON, JavaScript truthiness and `||`.
- `Decimal`: how `${n}` renders an integer of magnitude at most 2^53, and the parser that reads it back.
- `RiotConfig`: the region and endpoint tables, `getCallbackUrl`, `validateRiotApiConfig` and the payload shapes.
- `Http`: responses, the upstream outcome, the shared tail that relays upstream results (`Settle`), and the ordered check list (`Guard`, `FirstFailure`).
- `CodesRoute`, `CreateRoute`, `ProviderRoute` and `CallbackRoute`: one module per route file.

Environment variables and body fields are `Option` values. `None` stands for JavaScript `undefined`. A string is truthy when it is non-empty, and an integer when it is non-zero. A body that cannot be read (`request.json()` throws) is `None`, and the handler's `catch` turns it into a 500.

## Model

| member | source | states |
|---|---|---|
| `JsValues.TruthyString` | app/api/tournament/codes/route.ts:27 | a string field passes a `!x` test iff it is neither `undefined` nor the empty string |
| `JsValues.TruthyInt` | app/api/tournament/codes/route.ts:27 | a numeric field passes a `!x` test iff it is neither `undefined` nor 0 |
| `JsValues.Option.GetOr` | app/api/tournament/codes/route.ts:18-24 | a destructuring default applies only when the key is absent; a present value is kept, even a falsy one |
| `JsValues.Or` | app/utils/riot-api-config.ts:35 | the JavaScript logical-or operator: the first operand when it is truthy, otherwise the second; the result is truthy iff either operand is |
| `RiotConfig.RegionUrl` | app/utils/riot-api-config.ts:4-8 | lookup succeeds for exactly AMERICAS, EUROPE and ASIA, each with its own non-empty host |
| `RiotConfig.RegionHostsDistinct` | app/utils/riot-api-config.ts:4-8 | two known regions share a host only if they are the same region |
| `RiotConfig.CallbackUrl` | app/utils/riot-api-config.ts:34-37 | the URL always ends in `/api/tournament/callback`; the base is the override when truthy, else `NEXT_PUBLIC_BASE_URL` when truthy, else `http://localhost:3000` |
| `RiotConfig.CallbackBaseRecovered` | app/utils/riot-api-config.ts:34-37 | stripping the callback path from the URL gives back the chosen base, which is never empty |
| `RiotConfig.IsProduction` | app/utils/riot-api-config.ts:69 | production holds iff `NODE_ENV` is set and equal to `production`; any other value, including an empty or differently cased one such as `Production`, is not production |
| `RiotConfig.ValidateConfig` | app/utils/riot-api-config.ts:62-77 | `isValid` iff no errors; the key error iff the key is falsy, in any environment; the base-URL error iff the base URL is falsy and `NODE_ENV` is exactly `production`; at most two errors, key error first; a valid config has a non-empty key |
| `RiotConfig.OnlyKeyOutsideProduction` | app/utils/riot-api-config.ts:65-71 | outside production the config is valid iff the key is truthy, and the only possible error is the key error |
| `Decimal.IntToDecimal` | app/api/tournament/codes/route.ts:62 | the text is never empty; it starts with `-` iff the integer is negative; the digits have no leading zero, and a negative number never prints as `-0` |
| `Decimal.DecimalParseExact` | app/api/tournament/codes/route.ts:62 | a text reads back as `n` iff it is exactly the rendering of `n`, so no other spelling reads the same |
| `Decimal.DecimalRoundTrip` | app/api/tournament/codes/route.ts:62 | parsing the decimal text of an integer gives back the integer |
| `Decimal.DecimalInjective` | app/api/tournament/codes/route.ts:62 | different integers render as different decimal texts |
| `Http.ConfigFailure` | app/api/tournament/codes/route.ts:8-13 | a failed environment check answers 500 with the check's error list as `details`, which differs from the generic internal error |
| `Http.IsOk` | app/api/tournament/codes/route.ts:73 | `response.ok` holds iff there was a reply and its status is in the 2xx class |
| `Http.Settle` | app/api/tournament/codes/route.ts:73-97 | a reply that is not ok keeps its upstream status and raw text; an ok reply with parseable JSON gives 200 with the success body; a network failure or unparseable JSON gives 500 `Internal server error` |
| `Http.FirstFailure` | app/api/tournament/codes/route.ts:7-49 | the result is absent iff every check passes; otherwise it is the response of a failing check that all earlier checks passed |
| `Http.FirstFailureAt` | app/api/tournament/codes/route.ts:7-49 | the first failing check decides the answer, whatever the later checks say |
| `CodesRoute.Count` | app/api/tournament/codes/route.ts:18 | the count is 1 when the key is absent and the given value otherwise, including 0 |
| `CodesRoute.CodeRequestOf` | app/api/tournament/codes/route.ts:15-59 | defaults are teamSize 5, BLIND_PICK, SUMMONERS_RIFT and ALL; the type names pass through unchecked; `metadata` is present iff it is non-empty; `allowedSummonerIds` is present iff the list is non-empty |
| `CodesRoute.MinimalRequestDefaults` | app/api/tournament/codes/route.ts:15-25 | a body holding only tournamentId and region gives count 1 and the request (5, BLIND_PICK, SUMMONERS_RIFT, ALL) with neither optional key |
| `CodesRoute.CodesQuery` | app/api/tournament/codes/route.ts:62 | the query for an id and a count parses back to exactly that id and count |
| `CodesRoute.CodesQueryExact` | app/api/tournament/codes/route.ts:62 | a query text parses as `(id, count)` iff it is exactly the query written for them |
| `CodesRoute.Prepare` | app/api/tournament/codes/route.ts:7-71 | a bad config gives 500 with its errors before the body is read; then an unreadable body gives 500; then a falsy tournamentId (including 0) or region gives 400; then an unknown region gives 400 `Invalid region`; then a count outside 1..1000 gives 400; a request goes upstream iff every check passes; it carries the configured key, the code request built from the body, and exactly the URL regionHost + codes path + `?tournamentId=${id}&count=${count}`, whose query parses back to the id and count |
| `CodesRoute.Handle` | app/api/tournament/codes/route.ts:7-97 | a rejected request gets exactly `Prepare`'s early answer; a reply that is not ok is relayed with its status and text; success gives 200 echoing the numeric tournamentId, the count and the sent request as `settings`; a network failure or an ok reply whose JSON does not parse gives 500 `Internal server error`; 200 only after an ok upstream reply |
| `CodesRoute.FollowsChecks` | app/api/tournament/codes/route.ts:7-49 | the handler answers early iff a check in the list config, required fields, region, count fails, and then with the first failing check's response |
| `CodesRoute.RejectedIgnoresUpstream` | app/api/tournament/codes/route.ts:7-49 | a rejected request gets exactly `Prepare`'s 400 or 500 answer, whatever the upstream would have said |
| `CodesRoute.SettingsEchoSentRequest` | app/api/tournament/codes/route.ts:82-89 | on success, `settings` is the request that was sent, `tournamentId` is the body's id, and `count` lies in 1..1000 |
| `CodesRoute.AmericasExample` | app/api/tournament/codes/route.ts:15-89 | with a key set, `{tournamentId: 123, region: "AMERICAS", count: 3}` sends to the Americas host and codes path with query `?tournamentId=123&count=3` the request (5, BLIND_PICK, SUMMONERS_RIFT, ALL), and an ok reply gives 200 echoing 123, 3 and those settings |
| `CreateRoute.Prepare` | app/api/tournament/create/route.ts:7-49 | a bad config gives 500 first; then an unreadable body gives 500; then a falsy name, providerId or region gives 400; then an unknown region gives 400; a request goes upstream iff all pass; its URL is regionHost + `/lol/tournament/v5/tournaments` and its payload is exactly the name and the numeric providerId, without the region |
| `CreateRoute.Handle` | app/api/tournament/create/route.ts:7-75 | a rejected request gets exactly `Prepare`'s early answer; a reply that is not ok keeps its status and text; success gives 200 echoing the upstream tournament id, name, providerId and region; a network failure or unparseable JSON gives 500; 200 only after an ok upstream reply |
| `CreateRoute.FollowsChecks` | app/api/tournament/create/route.ts:7-31 | the handler answers early iff a check in the list config, required fields, region fails, and then with the first failing check's response |
| `CreateRoute.RejectedIgnoresUpstream` | app/api/tournament/create/route.ts:7-31 | a rejected request gets exactly `Prepare`'s 400 or 500 answer, whatever the upstream would have said |
| `CreateRoute.EchoMatchesPayload` | app/api/tournament/create/route.ts:62-67 | on success the echoed name and providerId are those sent upstream, and the echoed region is a known one |
| `ProviderRoute.Prepare` | app/api/tournament/provider/route.ts:7-49 | a bad config gives 500 first; then an unreadable body gives 500; then a falsy region gives 400 `Region is required`; then an unknown region gives 400 `Invalid region`; a request goes upstream iff all pass; its URL is regionHost + `/lol/tournament/v5/providers` and its payload is the region and the callback URL built with no override |
| `ProviderRoute.Handle` | app/api/tournament/provider/route.ts:7-74 | a rejected request gets exactly `Prepare`'s early answer; a reply that is not ok keeps its status and text; success gives 200 with the upstream provider id, the region and the callback URL that was sent; a network failure or unparseable JSON gives 500; 200 only after an ok upstream reply |
| `ProviderRoute.FollowsChecks` | app/api/tournament/provider/route.ts:7-31 | the handler answers early iff a check in the list config, region present, region known fails, and then with the first failing check's response |
| `ProviderRoute.RejectedIgnoresUpstream` | app/api/tournament/provider/route.ts:7-31 | a rejected request gets exactly `Prepare`'s 400 or 500 answer, whatever the upstream would have said |
| `ProviderRoute.ReportedCallbackWasSent` | app/api/tournament/provider/route.ts:62-66 | on success the reported `callbackUrl` is the URL registered upstream; it ends in the callback path after a non-empty base |
| `CallbackRoute.Dispatch` | app/api/tournament/callback/route.ts:55-70 | a known event type selects the handler of that name; every other string takes the default branch |
| `CallbackRoute.DispatchSelectsByName` | app/api/tournament/callback/route.ts:55-70 | each of the four handlers is selected by its own event type and by no other string |
| `CallbackRoute.HasRequiredFields` | app/api/tournament/callback/route.ts:38 | the body passes iff eventType, tournamentCode and platformId are each neither absent nor empty |
| `CallbackRoute.HandlePost` | app/api/tournament/callback/route.ts:32-85 | an unreadable body gives 500; a falsy eventType, tournamentCode or platformId gives 400 `Missing required fields` and runs no branch; otherwise the answer is 200 `{success: true, message: 'Callback processed successfully'}` after exactly the dispatched branch |
| `CallbackRoute.OptionalFieldsIgnored` | app/api/tournament/callback/route.ts:38 | changing or removing gameId and timestamp never changes the outcome |
| `CallbackRoute.AnswerIndependentOfEvent` | app/api/tournament/callback/route.ts:55-76 | once the required fields are present, the answer is the same for every non-empty event type, known or not |
| `CallbackRoute.HandleGet` | app/api/tournament/callback/route.ts:120-125 | GET always gives 405 `Method not allowed` |

## Left out

- The `fetch` calls, JSON parsing of the request and of the upstream reply, and the construction of `NextResponse` are input and output. The upstream outcome is a parameter (`Upstream`): a reply with its status, its text and its JSON when that parses, or a network failure. A request body that cannot be read is a `None` body.
- The `Content-Type: application/json` header on each outbound POST is a constant and is not modelled. `Request` holds only the URL, the `X-Riot-Token` value and the payload.
- Logging (`console.*`) is left out. The four event handlers' bodies only log, so a handler is modelled as the name of the branch that ran.
- Body fields are either absent or hold the type the handler expects. JSON `null`, wrong-typed values, and JavaScript's loose coercions are not modelled. Those coercions include a string `providerId` passed through `Number(…)`, and a string `count` compared with `<`.
- Numbers are integers. Floating point, `NaN` and fractional counts are not modelled.
- Decimal.IntToDecimal: matches `${n}` only for magnitudes up to 2^53. Above that a JavaScript number is a double: `${n}` prints its shortest round-tripping digits (exponent form from 1e21), and these differ from the integer's exact digits. Doubles are not modelled.
- The region table is looked up as a three-key map. Inherited object keys such as `"constructor"`, which JavaScript's property lookup would also find, are not modelled.
- The callback body's `participants` and `gameData` are not modelled. The handler never reads them outside logging.
- Upstream statuses outside 200..599, which `fetch` never delivers, are not treated specially. `NextResponse` would throw on them.
- `app/api/tournament/status/route.ts` returns a static payload with a wall-clock timestamp. It has no logic to model.
- The Leaguepedia proxy routes under `app/api/leaguepedia` and the Python backend are not modelled. They are proxies to another service, and the backend wraps a library.
- The example modules under `app/utils`, the registration script `app/scripts/register-provider.ts` and the UI pages are not modelled. They are fetch wrappers and static markup. Their URL composition repeats that of the route handlers.
