/** GET and POST /api/flashcards (src/pages/api/flashcards/index.ts): each handler is a chain of
    early returns. A handler is split into the decision before the service call (a Plan) and the
    mapping of the service's outcome to a response. */
module FlashcardsRoute {
  import opened Wrappers
  import opened Json
  import opened Types
  import opened ZodIssues
  import opened Database
  import FlashcardSchema
  import FlashcardService

  /** A response: status, JSON body, and whether a JSON Content-Type header is set. */
  datatype Response = Response(status: int, body: Json, jsonContentType: bool)

  /** The authenticated user placed in locals by the middleware. */
  datatype User = User(id: string, email: Option<string>)

  function ErrorBody(message: string, code: string): Json {
    JObject([("error", JObject([("message", JString(message)), ("code", JString(code))]))])
  }

  /** Both handlers answer this without a Content-Type header. */
  const Unauthorized := Response(401, ErrorBody("Unauthorized", "UNAUTHORIZED"), false)
  const InternalError := Response(500, ErrorBody("Internal server error", "INTERNAL_ERROR"), true)

  function ValidationFailed(issues: seq<Issue>): Json {
    JObject([("error", JObject([("message", JString("Invalid request body")), ("code", JString("VALIDATION_ERROR")),
                                ("details", Format(issues))]))])
  }

  /** `!locals.user?.id`: no user, or an empty id. */
  predicate Authenticated(user: Option<User>) {
    user.Some? && user.value.id != ""
  }

  datatype GetPlan = GetReply(response: Response) | CallList(userId: string)

  function PlanGet(user: Option<User>): (p: GetPlan)
    ensures p.GetReply? <==> !Authenticated(user)
    ensures p.GetReply? ==> p.response == Unauthorized
    ensures p.CallList? ==> p.userId == user.value.id
  {
    if !Authenticated(user) then GetReply(Unauthorized) else CallList(user.value.id)
  }

  /** The list wrapped as {flashcards}, or the internal error. */
  function FinishGet(outcome: Result<seq<FlashcardDTO>, string>): (r: Response)
    ensures outcome.Success? ==>
              r.status == 200 && r.jsonContentType &&
              Get(r.body, "flashcards") == Some(JArray(seq(|outcome.value|, i requires 0 <= i < |outcome.value| => FlashcardToJson(outcome.value[i]))))
    ensures outcome.Failure? ==> r == InternalError
  {
    if outcome.Failure? then InternalError
    else
      var items := seq(|outcome.value|, i requires 0 <= i < |outcome.value| => FlashcardToJson(outcome.value[i]));
      Response(200, JObject([("flashcards", JArray(items))]), true)
  }

  datatype PostPlan = PostReply(response: Response) | CallCreate(command: CreateCommand, userId: string)

  /** Up to the service call: authentication, request.json() (whose failure the catch turns into
      the internal error), then the schema. */
  function PlanPost(user: Option<User>, body: Result<Json, string>): (p: PostPlan)
    ensures !Authenticated(user) ==> p == PostReply(Unauthorized)
    ensures Authenticated(user) && body.Failure? ==> p == PostReply(InternalError)
    ensures p.CallCreate? <==> Authenticated(user) && body.Success? && FlashcardSchema.ParseCreate(body.value).Success?
    ensures p.CallCreate? ==> p.userId == user.value.id && FlashcardSchema.ParseCreate(body.value) == Success(p.command)
    ensures Authenticated(user) && body.Success? && FlashcardSchema.ParseCreate(body.value).Failure? ==>
      p == PostReply(Response(400, ValidationFailed(FlashcardSchema.ParseCreate(body.value).error), true))
  {
    if !Authenticated(user) then PostReply(Unauthorized)
    else if body.Failure? then PostReply(InternalError)
    else match FlashcardSchema.ParseCreate(body.value)
      case Failure(issues) => PostReply(Response(400, ValidationFailed(issues), true))
      case Success(cmd) => CallCreate(cmd, user.value.id)
  }

  /** The created card with 201; only the generation-ownership error is a client error. */
  function FinishPost(outcome: Result<FlashcardDTO, string>): (r: Response)
    ensures r.jsonContentType
    ensures r.status == 201 <==> outcome.Success?
    ensures outcome.Success? ==> r.body == FlashcardToJson(outcome.value)
    ensures r.status == 400 <==> outcome == Failure(FlashcardService.InvalidGeneration)
    ensures r.status == 400 ==> r.body == ErrorBody(FlashcardService.InvalidGeneration, "INVALID_GENERATION")
    ensures outcome.Failure? && outcome.error != FlashcardService.InvalidGeneration ==> r == InternalError
  {
    match outcome
    case Success(card) => Response(201, FlashcardToJson(card), true)
    case Failure(message) =>
      if message == FlashcardService.InvalidGeneration then Response(400, ErrorBody(message, "INVALID_GENERATION"), true)
      else InternalError
  }

  /** Exceeding the acceptance ceiling is reported as an internal error. */
  lemma CeilingIsInternalError()
    ensures FinishPost(Failure(FlashcardService.CeilingExceeded)) == InternalError
  {
  }

  /** GET: the plan, then the service. */
  method HandleGet(service: FlashcardService.Service, user: Option<User>, fault: Option<string>) returns (r: Response)
    ensures match PlanGet(user)
      case GetReply(response) => r == response
      case CallList(u) => r == FinishGet(service.ListFlashcards(u, fault))
  {
    match PlanGet(user) {
      case GetReply(response) => r := response;
      case CallList(u) => r := FinishGet(service.ListFlashcards(u, fault));
    }
  }

  /** POST: the plan, then createFlashcard; the tables change only when the service is called. */
  method HandlePost(service: FlashcardService.Service, user: Option<User>, body: Result<Json, string>,
                    newId: string, now: int, f: FlashcardService.CreateFaults) returns (r: Response)
    requires service.db.Valid() && service.db.FreshFlashcardId(newId)
    modifies service.db
    ensures service.db.Valid()
    ensures match PlanPost(user, body)
      case PostReply(response) =>
        r == response && service.db.flashcards == old(service.db.flashcards) &&
        service.db.generations == old(service.db.generations)
      case CallCreate(cmd, u) =>
        var (outcome, after) := FlashcardService.CreateSpec(
          FlashcardService.Stored(old(service.db.flashcards), old(service.db.generations)), cmd, u, newId, now, f);
        r == FinishPost(outcome) && service.db.flashcards == after.flashcards && service.db.generations == after.generations
  {
    match PlanPost(user, body) {
      case PostReply(response) => r := response;
      case CallCreate(cmd, u) =>
        var outcome := service.CreateFlashcard(cmd, u, newId, now, f);
        r := FinishPost(outcome);
    }
  }
}
