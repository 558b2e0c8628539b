/** The data transfer objects and commands shared by the API and the client (src/types.ts). */
module Types {
  import opened Wrappers
  import opened Json

  /** The creation_method enum of the flashcards table. */
  datatype CreationMethod = Manual | AiFull | AiEdited

  /** The two methods an accepted AI proposal can carry. */
  type AiMethod = m: CreationMethod | m != Manual witness AiFull

  function MethodName(m: CreationMethod): string {
    match m
    case Manual => "manual"
    case AiFull => "ai_full"
    case AiEdited => "ai_edited"
  }

  function ParseMethod(s: string): (r: Option<CreationMethod>)
    ensures r.Some? <==> (s == "manual" || s == "ai_full" || s == "ai_edited")
    ensures r.Some? ==> MethodName(r.value) == s
  {
    if s == "manual" then Some(Manual)
    else if s == "ai_full" then Some(AiFull)
    else if s == "ai_edited" then Some(AiEdited)
    else None
  }

  lemma MethodNameRoundTrip(m: CreationMethod)
    ensures ParseMethod(MethodName(m)) == Some(m)
  {
  }

  lemma MethodNameInjective(a: CreationMethod, b: CreationMethod)
    ensures MethodName(a) == MethodName(b) <==> a == b
  {
  }

  /** A flashcard as the API returns it. Timestamps are milliseconds since the epoch. */
  datatype FlashcardDTO = FlashcardDTO(
    id: string,
    frontContent: string,
    backContent: string,
    creationMethod: CreationMethod,
    createdAt: int,
    updatedAt: int)

  /** The body of POST /api/flashcards: a manual card or an accepted AI proposal. */
  datatype CreateCommand =
    | ManualCommand(frontContent: string, backContent: string)
    | AcceptAiCommand(frontContent: string, backContent: string, aiMethod: AiMethod, generationId: string)
  {
    function Method(): CreationMethod {
      if ManualCommand? then Manual else aiMethod
    }
  }

  datatype UpdateCommand = UpdateCommand(frontContent: string, backContent: string)

  datatype ProposalDTO = ProposalDTO(frontContent: string, backContent: string)

  datatype GenerationResponseDTO = GenerationResponseDTO(
    generationId: string,
    proposals: seq<ProposalDTO>,
    aiModel: string,
    generationTimeMs: int,
    totalGenerated: int)

  datatype StatsDTO = StatsDTO(manualCount: int, aiFullCount: int, aiEditedCount: int, totalGenerated: int)

  /** The JSON a client sends for a create command, members in declaration order. */
  function CommandToJson(c: CreateCommand): (j: Json)
    ensures WellFormed(j)
    ensures Get(j, "front_content") == Some(JString(c.frontContent))
    ensures Get(j, "back_content") == Some(JString(c.backContent))
    ensures Get(j, "creation_method") == Some(JString(MethodName(c.Method())))
    ensures Get(j, "generation_id") == if c.ManualCommand? then None else Some(JString(c.generationId))
  {
    var m := MethodName(c.Method());
    var common := [("front_content", JString(c.frontContent)), ("back_content", JString(c.backContent)),
                   ("creation_method", JString(m))];
    if c.ManualCommand? then
      Distinct3(common); Members3(common);
      LookupAt(common, 0); LookupAt(common, 1); LookupAt(common, 2);
      JObject(common)
    else
      var fields := common + [("generation_id", JString(c.generationId))];
      Distinct4(fields); Members4(fields);
      LookupAt(fields, 0); LookupAt(fields, 1); LookupAt(fields, 2); LookupAt(fields, 3);
      JObject(fields)
  }

  /** The JSON body of an update. */
  function UpdateToJson(c: UpdateCommand): (j: Json)
    ensures Get(j, "front_content") == Some(JString(c.frontContent))
    ensures Get(j, "back_content") == Some(JString(c.backContent))
  {
    var fields := [("front_content", JString(c.frontContent)), ("back_content", JString(c.backContent))];
    LookupFirst(fields, 1);
    JObject(fields)
  }

  /** A flashcard as the API serialises it; the timestamps are written as numbers here. */
  function FlashcardToJson(c: FlashcardDTO): (j: Json)
    ensures Get(j, "id") == Some(JString(c.id))
    ensures Get(j, "front_content") == Some(JString(c.frontContent))
    ensures Get(j, "back_content") == Some(JString(c.backContent))
    ensures Get(j, "creation_method") == Some(JString(MethodName(c.creationMethod)))
  {
    var m := MethodName(c.creationMethod);
    var created, updated := JNumber(c.createdAt as real), JNumber(c.updatedAt as real);
    var named := [("id", JString(c.id)), ("front_content", JString(c.frontContent)), ("back_content", JString(c.backContent)),
                  ("creation_method", JString(m))];
    var stamps := [("created_at", created), ("updated_at", updated)];
    Distinct4(named);
    LookupAt(named, 0); LookupAt(named, 1); LookupAt(named, 2); LookupAt(named, 3);
    LookupPrefix(named, stamps, "id"); LookupPrefix(named, stamps, "front_content");
    LookupPrefix(named, stamps, "back_content"); LookupPrefix(named, stamps, "creation_method");
    JObject(named + stamps)
  }

  function StatsToJson(s: StatsDTO): (j: Json)
    ensures WellFormed(j)
    ensures Get(j, "manual_count") == Some(JNumber(s.manualCount as real))
    ensures Get(j, "ai_full_count") == Some(JNumber(s.aiFullCount as real))
    ensures Get(j, "ai_edited_count") == Some(JNumber(s.aiEditedCount as real))
    ensures Get(j, "total_generated") == Some(JNumber(s.totalGenerated as real))
  {
    var manual, full := JNumber(s.manualCount as real), JNumber(s.aiFullCount as real);
    var edited, total := JNumber(s.aiEditedCount as real), JNumber(s.totalGenerated as real);
    var fields := [("manual_count", manual), ("ai_full_count", full), ("ai_edited_count", edited), ("total_generated", total)];
    Distinct4(fields); Members4(fields);
    LookupAt(fields, 0); LookupAt(fields, 1); LookupAt(fields, 2); LookupAt(fields, 3);
    JObject(fields)
  }
}
