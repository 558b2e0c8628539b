/** POST /api/generations/generate (src/pages/api/generations/generate.ts). The owner of the new
    generation is the configured default user, never the session's; its value is a parameter. */
module GenerateRoute {
  import opened Wrappers
  import opened Json
  import opened Types
  import opened Http
  import opened ZodIssues
  import opened Database
  import opened FlashcardsRoute
  import GenerationSchema
  import GenerationService

  /** The local `json` helper: `init?.status || 200`, so an absent or zero status becomes 200,
      and the body is always sent as JSON. */
  function JsonReply(data: Json, status: Option<int>): (r: Response)
    ensures r.body == data && r.jsonContentType
    ensures status.None? ==> r.status == 200
    ensures status.Some? ==> r.status == if status.value == 0 then 200 else status.value
  {
    Response(if status.None? || status.value == 0 then 200 else status.value, data, true)
  }

  function ErrorMessage(message: string): Json {
    JObject([("error", JString(message))])
  }

  const InvalidJson := JsonReply(ErrorMessage("Invalid JSON in request body"), Some(400))

  /** A zod issue as it is serialised: its path (the member name, or nothing at the root) and its message. */
  function IssueToJson(i: Issue): (j: Json)
    ensures Get(j, "message") == Some(JString(i.message))
  {
    var path := if i.path.Some? then [JString(i.path.value)] else [];
    var fields := [("path", JArray(path)), ("message", JString(i.message))];
    LookupFirst(fields, 1);
    JObject(fields)
  }

  function IssuesToJson(issues: seq<Issue>): (j: Json)
    ensures j.JArray? && |j.items| == |issues|
    ensures forall k :: 0 <= k < |issues| ==> j.items[k] == IssueToJson(issues[k])
  {
    JArray(seq(|issues|, k requires 0 <= k < |issues| => IssueToJson(issues[k])))
  }

  function ProposalToJson(p: ProposalDTO): Json {
    JObject([("front_content", JString(p.frontContent)), ("back_content", JString(p.backContent))])
  }

  /** The generation response as JSON, members in declaration order. */
  function ResponseToJson(d: GenerationResponseDTO): (j: Json)
    ensures Get(j, "generation_id") == Some(JString(d.generationId))
    ensures Get(j, "proposals") ==
              Some(JArray(seq(|d.proposals|, k requires 0 <= k < |d.proposals| => ProposalToJson(d.proposals[k]))))
    ensures Get(j, "ai_model") == Some(JString(d.aiModel))
    ensures Get(j, "total_generated") == Some(JNumber(d.totalGenerated as real))
  {
    var items := seq(|d.proposals|, k requires 0 <= k < |d.proposals| => ProposalToJson(d.proposals[k]));
    var first := [("generation_id", JString(d.generationId)), ("proposals", JArray(items)),
                  ("ai_model", JString(d.aiModel)), ("generation_time_ms", JNumber(d.generationTimeMs as real))];
    var last := [("total_generated", JNumber(d.totalGenerated as real))];
    Distinct4(first);
    LookupAt(first, 0); LookupAt(first, 1); LookupAt(first, 2);
    LookupPrefix(first, last, "generation_id"); LookupPrefix(first, last, "proposals"); LookupPrefix(first, last, "ai_model");
    LookupAfter(first, last, "total_generated");
    JObject(first + last)
  }

  datatype GeneratePlan = GenerateReply(response: Response) | CallGenerate(userId: string, input: GenerationSchema.GenerateInput)

  /** Up to the service call: request.json(), then the schema. */
  function PlanGenerate(defaultUserId: string, body: Result<Json, string>): (p: GeneratePlan)
    ensures body.Failure? ==> p == GenerateReply(InvalidJson)
    ensures p.CallGenerate? <==> body.Success? && GenerationSchema.ParseGenerate(body.value).Success?
    ensures p.CallGenerate? ==>
              p.userId == defaultUserId && GenerationSchema.ParseGenerate(body.value) == Success(p.input)
    ensures body.Success? && GenerationSchema.ParseGenerate(body.value).Failure? ==>
              p.response.status == 400 &&
              Get(p.response.body, "details") == Some(IssuesToJson(GenerationSchema.ParseGenerate(body.value).error))
  {
    if body.Failure? then GenerateReply(InvalidJson)
    else match GenerationSchema.ParseGenerate(body.value)
      case Failure(issues) =>
        var fields := [("error", JString("Invalid input")), ("details", IssuesToJson(issues))];
        LookupFirst(fields, 1);
        GenerateReply(JsonReply(JObject(fields), Some(400)))
      case Success(input) => CallGenerate(defaultUserId, input)
  }

  /** The DTO with 200; an Error's message with 500, anything else thrown as the generic 500. */
  function FinishGenerate(outcome: Result<GenerationResponseDTO, Thrown>): (r: Response)
    ensures r.jsonContentType
    ensures r.status == 200 <==> outcome.Success?
    ensures outcome.Success? ==> r.body == ResponseToJson(outcome.value)
    ensures outcome.Failure? ==> r.status == 500 && r.body == ErrorMessage(MessageOr(outcome.error, "Internal server error"))
  {
    match outcome
    case Success(d) => JsonReply(ResponseToJson(d), None)
    case Failure(ErrorThrown(m)) => JsonReply(ErrorMessage(m), Some(500))
    case Failure(ValueThrown) => JsonReply(ErrorMessage("Internal server error"), Some(500))
  }

  /** POST: the plan, then generateFlashcards with the default user. */
  method HandleGenerate(service: GenerationService.Service, defaultUserId: string, body: Result<Json, string>,
                        newId: string, elapsedMs: nat, outcome: GenerationService.InsertOutcome) returns (r: Response)
    requires service.db.Valid() && service.db.FreshGenerationId(newId)
    modifies service.db
    ensures service.db.Valid() && service.db.flashcards == old(service.db.flashcards)
    ensures match PlanGenerate(defaultUserId, body)
      case GenerateReply(response) => r == response && service.db.generations == old(service.db.generations)
      case CallGenerate(u, input) =>
        match outcome
        case Inserted =>
          var record := GenerationService.GenerationRecord(newId, defaultUserId, elapsedMs);
          var dto := GenerationResponseDTO(newId, GenerationService.MockProposals(input.inputText),
                                           GenerationService.DefaultAiModel, elapsedMs, GenerationService.DefaultNumberOfCards);
          r == JsonReply(ResponseToJson(dto), None) && service.db.generations == old(service.db.generations) + [record]
        case InsertFailed(m) =>
          r == JsonReply(ErrorMessage("Database error: " + m), Some(500)) && service.db.generations == old(service.db.generations)
        case NothingReturned =>
          r == JsonReply(ErrorMessage(GenerationService.NoRecord), Some(500)) && service.db.generations == old(service.db.generations)
  {
    match PlanGenerate(defaultUserId, body) {
      case GenerateReply(response) => r := response;
      case CallGenerate(u, input) =>
        var result := service.GenerateFlashcards(u, input, newId, elapsedMs, outcome);
        r := FinishGenerate(result);
    }
  }
}
