/** The server-side request schemas for flashcards (src/lib/schemas/flashcard.schema.ts). */
module FlashcardSchema {
  import opened Wrappers
  import opened Json
  import opened Types
  import opened Uuid
  import opened ZodIssues

  const ContentTooShort := "Content must be at least 2 characters long"
  const ContentTooLong := "Content must not exceed 200 characters"
  const InvalidGenerationId := "Invalid generation ID format"
  const InvalidFlashcardId := "Invalid flashcard ID format"

  /** flashcardContentSchema applied to a string. */
  function ContentMessages(s: string): (ms: seq<string>)
    ensures ms == [] <==> 2 <= |s| <= 200
    ensures |s| < 2 ==> ms == [ContentTooShort]
    ensures |s| > 200 ==> ms == [ContentTooLong]
  {
    LengthChecks(s, 2, 200, ContentTooShort, ContentTooLong)
  }

  function UuidMessages(message: string): string -> seq<string> {
    s => if IsUuid(s) then [] else [message]
  }

  predicate ContentAt(body: Json, key: string) {
    Get(body, key).Some? && Get(body, key).value.JString? && 2 <= |Get(body, key).value.s| <= 200
  }

  predicate UuidAt(body: Json, key: string) {
    Get(body, key).Some? && Get(body, key).value.JString? && IsUuid(Get(body, key).value.s)
  }

  function ContentMember(body: Json, key: string): (r: seq<Issue>)
    ensures r == [] <==> ContentAt(body, key)
    ensures forall i :: 0 <= i < |r| ==> r[i].path == Some(key)
  {
    StringMember(body, key, ContentMessages)
  }

  function GenerationIdMember(body: Json): (r: seq<Issue>)
    ensures r == [] <==> UuidAt(body, "generation_id")
    ensures forall i :: 0 <= i < |r| ==> r[i].path == Some("generation_id")
  {
    StringMember(body, "generation_id", UuidMessages(InvalidGenerationId))
  }

  /** What createFlashcardSchema accepts, stated member by member. */
  predicate ValidCreateBody(body: Json) {
    var m := Get(body, "creation_method");
    body.JObject? && ContentAt(body, "front_content") && ContentAt(body, "back_content") &&
    (m == Some(JString("manual")) ||
     ((m == Some(JString("ai_full")) || m == Some(JString("ai_edited"))) && UuidAt(body, "generation_id")))
  }

  /** createFlashcardSchema.safeParse: a discriminated union on creation_method. The chosen
      variant's object schema keeps only its own members, so a manual body loses any
      generation_id it carried. */
  function ParseCreate(body: Json): (r: Result<CreateCommand, seq<Issue>>)
    ensures r.Success? <==> ValidCreateBody(body)
    ensures r.Failure? ==> |r.error| > 0
    ensures r.Success? ==> Get(body, "front_content") == Some(JString(r.value.frontContent))
    ensures r.Success? ==> Get(body, "back_content") == Some(JString(r.value.backContent))
    ensures r.Success? ==> Get(body, "creation_method") == Some(JString(MethodName(r.value.Method())))
    ensures r.Success? && r.value.AcceptAiCommand? ==> Get(body, "generation_id") == Some(JString(r.value.generationId))
  {
    if !body.JObject? then Failure([Issue(None, ExpectedObject)])
    else
      var m := Get(body, "creation_method");
      var front := ContentMember(body, "front_content");
      var back := ContentMember(body, "back_content");
      if m == Some(JString("manual")) then
        if front + back == [] then
          Success(ManualCommand(Get(body, "front_content").value.s, Get(body, "back_content").value.s))
        else Failure(front + back)
      else if m == Some(JString("ai_full")) || m == Some(JString("ai_edited")) then
        var gid := GenerationIdMember(body);
        if front + back + gid == [] then
          var aiMethod: AiMethod := if m == Some(JString("ai_full")) then AiFull else AiEdited;
          Success(AcceptAiCommand(Get(body, "front_content").value.s, Get(body, "back_content").value.s,
                                  aiMethod, Get(body, "generation_id").value.s))
        else Failure(front + back + gid)
      else Failure([Issue(Some("creation_method"), InvalidDiscriminator)])
  }

  /** Any creation_method other than the three names only yields the discriminator issue. */
  lemma UnknownMethodRejected(body: Json)
    requires body.JObject?
    requires forall m :: ParseMethod(m).Some? ==> Get(body, "creation_method") != Some(JString(m))
    ensures ParseCreate(body) == Failure([Issue(Some("creation_method"), InvalidDiscriminator)])
  {
    assert ParseMethod("manual").Some? && ParseMethod("ai_full").Some? && ParseMethod("ai_edited").Some?;
  }

  /** The JSON of a command parses back to the same command exactly when its contents satisfy
      the schema. */
  lemma CommandRoundTrip(c: CreateCommand)
    ensures ParseCreate(CommandToJson(c)).Success? <==>
      2 <= |c.frontContent| <= 200 && 2 <= |c.backContent| <= 200 && (c.AcceptAiCommand? ==> IsUuid(c.generationId))
    ensures ParseCreate(CommandToJson(c)).Success? ==> ParseCreate(CommandToJson(c)) == Success(c)
  {
    if c.ManualCommand? {
      ManualRoundTrip(c);
    } else {
      AiRoundTrip(c);
    }
  }

  lemma ManualRoundTrip(c: CreateCommand)
    requires c.ManualCommand?
    ensures ParseCreate(CommandToJson(c)).Success? <==> 2 <= |c.frontContent| <= 200 && 2 <= |c.backContent| <= 200
    ensures ParseCreate(CommandToJson(c)).Success? ==> ParseCreate(CommandToJson(c)) == Success(c)
  {
    var j := CommandToJson(c);
    assert Get(j, "creation_method") == Some(JString("manual"));
  }

  lemma AiRoundTrip(c: CreateCommand)
    requires c.AcceptAiCommand?
    ensures ParseCreate(CommandToJson(c)).Success? <==>
      2 <= |c.frontContent| <= 200 && 2 <= |c.backContent| <= 200 && IsUuid(c.generationId)
    ensures ParseCreate(CommandToJson(c)).Success? ==> ParseCreate(CommandToJson(c)) == Success(c)
  {
    var j := CommandToJson(c);
    var m := Get(j, "creation_method");
    assert m == Some(JString(MethodName(c.aiMethod)));
    assert m != Some(JString("manual"));
    assert m == Some(JString("ai_full")) <==> c.aiMethod == AiFull;
    assert m == Some(JString("ai_full")) || m == Some(JString("ai_edited"));
  }

  predicate ValidUpdateBody(body: Json) {
    body.JObject? && ContentAt(body, "front_content") && ContentAt(body, "back_content")
  }

  /** updateFlashcardSchema.safeParse. */
  function ParseUpdate(body: Json): (r: Result<UpdateCommand, seq<Issue>>)
    ensures r.Success? <==> ValidUpdateBody(body)
    ensures r.Failure? ==> |r.error| > 0
    ensures r.Success? ==> Get(body, "front_content") == Some(JString(r.value.frontContent))
    ensures r.Success? ==> Get(body, "back_content") == Some(JString(r.value.backContent))
  {
    if !body.JObject? then Failure([Issue(None, ExpectedObject)])
    else
      var issues := ContentMember(body, "front_content") + ContentMember(body, "back_content");
      if issues == [] then Success(UpdateCommand(Get(body, "front_content").value.s, Get(body, "back_content").value.s))
      else Failure(issues)
  }

  /** flashcardIdSchema.safeParse on a route parameter. */
  function ParseFlashcardId(id: string): (r: Result<string, seq<Issue>>)
    ensures r.Success? <==> IsUuid(id)
    ensures r.Success? ==> r.value == id
    ensures r.Failure? ==> r.error == [Issue(None, InvalidFlashcardId)]
  {
    if IsUuid(id) then Success(id) else Failure([Issue(None, InvalidFlashcardId)])
  }
}
