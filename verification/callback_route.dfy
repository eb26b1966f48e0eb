/** `/api/tournament/callback`: the endpoint Riot posts game and tournament
    events to. POST checks three fields and dispatches on the event type;
    GET is refused. */
module CallbackRoute {
  import opened JsValues
  import opened Http

  /** The fields of a callback body the handler reads. The optional
      participant list and game summary are only ever logged. */
  datatype CallbackFields = CallbackFields(
    eventType: Option<string>,
    tournamentCode: Option<string>,
    gameId: Option<int>,
    platformId: Option<string>,
    timestamp: Option<int>)

  /** The four event handlers, and the default branch that only warns. */
  datatype EventHandler = GameCreated | GameCompleted | TournamentStarted | TournamentCompleted | UnknownEvent

  const MissingFieldsError: string := "Missing required fields"
  const ProcessedMessage: string := "Callback processed successfully"
  const MethodNotAllowedError: string := "Method not allowed"

  /** The event type string each known handler answers to. */
  function EventName(h: EventHandler): string
    requires !h.UnknownEvent?
  {
    match h
    case GameCreated => "gameCreated"
    case GameCompleted => "gameCompleted"
    case TournamentStarted => "tournamentStarted"
    case TournamentCompleted => "tournamentCompleted"
  }

  predicate IsKnownEvent(eventType: string)
  {
    eventType in {"gameCreated", "gameCompleted", "tournamentStarted", "tournamentCompleted"}
  }

  /** The `switch (body.eventType)`: a known event type selects its own
      handler; every other string takes the default branch. */
  function Dispatch(eventType: string): (h: EventHandler)
    ensures h.UnknownEvent? <==> !IsKnownEvent(eventType)
    ensures !h.UnknownEvent? ==> EventName(h) == eventType
  {
    match eventType
    case "gameCreated" => GameCreated
    case "gameCompleted" => GameCompleted
    case "tournamentStarted" => TournamentStarted
    case "tournamentCompleted" => TournamentCompleted
    case _ => UnknownEvent
  }

  /** Each known handler is reached by its own event type and no other. */
  lemma DispatchSelectsByName(h: EventHandler, eventType: string)
    requires !h.UnknownEvent?
    ensures Dispatch(eventType) == h <==> eventType == EventName(h)
  {
  }

  /** The answer, and which branch of the switch ran (none when the request
      was refused before the switch). */
  datatype CallbackResult = CallbackResult(response: Response, handled: Option<EventHandler>)

  /** The handler's `!eventType || !tournamentCode || !platformId` test,
      negated; `gameId` and `timestamp` are not required. */
  function HasRequiredFields(f: CallbackFields): (b: bool)
    ensures b <==> && f.eventType !in {None, Some("")}
                   && f.tournamentCode !in {None, Some("")}
                   && f.platformId !in {None, Some("")}
  {
    TruthyString(f.eventType) && TruthyString(f.tournamentCode) && TruthyString(f.platformId)
  }

  /** `POST`. `body` is `None` when the request body cannot be read, which
      the handler's `catch` turns into a 500. */
  function HandlePost(body: Option<CallbackFields>): (r: CallbackResult)
    ensures body.None? ==> r == CallbackResult(InternalError, None)
    ensures body.Some? && !HasRequiredFields(body.value) ==>
              r == CallbackResult(Response(400, ErrorBody(MissingFieldsError)), None)
    ensures body.Some? && HasRequiredFields(body.value) ==>
              && r.response == Response(200, AckBody(true, ProcessedMessage))
              && r.handled == Some(Dispatch(body.value.eventType.value))
    ensures r.handled.Some? <==> r.response.status == 200
  {
    if body.None? then CallbackResult(InternalError, None)
    else
      var f := body.value;
      if !TruthyString(f.eventType) || !TruthyString(f.tournamentCode) || !TruthyString(f.platformId) then
        CallbackResult(Response(400, ErrorBody(MissingFieldsError)), None)
      else
        CallbackResult(Response(200, AckBody(true, ProcessedMessage)), Some(Dispatch(f.eventType.value)))
  }

  /** `GET`: always refused. */
  function HandleGet(): (r: Response)
    ensures r.status == 405
    ensures r.body == ErrorBody(MethodNotAllowedError)
  {
    Response(405, ErrorBody(MethodNotAllowedError))
  }

  /** `gameId` and `timestamp` play no part in the answer. */
  lemma OptionalFieldsIgnored(f: CallbackFields, gameId: Option<int>, timestamp: Option<int>)
    ensures HandlePost(Some(f.(gameId := gameId, timestamp := timestamp))) == HandlePost(Some(f))
  {
  }

  /** Which branch runs never changes the answer: an unknown event type is
      answered exactly like a known one. */
  lemma AnswerIndependentOfEvent(f: CallbackFields, eventType: string)
    requires HasRequiredFields(f) && eventType != ""
    ensures HandlePost(Some(f.(eventType := Some(eventType)))).response == HandlePost(Some(f)).response
  {
  }
}
