/** The schema of the statistics response (src/lib/schemas/stats.schema.ts). */
module StatsSchema {
  import opened Wrappers
  import opened Json
  import opened Types
  import opened ZodIssues

  /** z.number().int().min(0) on one member: both checks run. */
  function CountMember(body: Json, key: string): (r: seq<Issue>)
    ensures r == [] <==> (Get(body, key).Some? && Get(body, key).value.JNumber? &&
                          IsInteger(Get(body, key).value.n) && Get(body, key).value.n >= 0.0)
  {
    match Get(body, key)
    case None => [Issue(Some(key), Required)]
    case Some(JNumber(n)) =>
      At(key, (if IsInteger(n) then [] else [ExpectedInteger]) + (if n < 0.0 then [NotNegative] else []))
    case Some(_) => [Issue(Some(key), ExpectedNumber)]
  }

  function Count(body: Json, key: string): int {
    if Get(body, key).Some? && Get(body, key).value.JNumber? then Get(body, key).value.n.Floor else 0
  }

  /** StatsResponseSchema.safeParse: four required non-negative integers. */
  function ParseStats(body: Json): (r: Result<StatsDTO, seq<Issue>>)
    ensures r.Success? <==>
              body.JObject? && CountMember(body, "manual_count") == [] &&
              CountMember(body, "ai_full_count") == [] && CountMember(body, "ai_edited_count") == [] &&
              CountMember(body, "total_generated") == []
    ensures r.Failure? ==> |r.error| > 0
    ensures r.Success? ==>
              r.value.manualCount >= 0 && r.value.aiFullCount >= 0 &&
              r.value.aiEditedCount >= 0 && r.value.totalGenerated >= 0
    ensures r.Success? ==> StatsToJson(r.value) == JObject([
      ("manual_count", Get(body, "manual_count").value), ("ai_full_count", Get(body, "ai_full_count").value),
      ("ai_edited_count", Get(body, "ai_edited_count").value), ("total_generated", Get(body, "total_generated").value)])
  {
    if !body.JObject? then Failure([Issue(None, ExpectedObject)])
    else
      var issues := CountMember(body, "manual_count") + CountMember(body, "ai_full_count") +
                    CountMember(body, "ai_edited_count") + CountMember(body, "total_generated");
      if issues != [] then Failure(issues)
      else Success(StatsDTO(Count(body, "manual_count"), Count(body, "ai_full_count"),
                            Count(body, "ai_edited_count"), Count(body, "total_generated")))
  }

  /** Encoding statistics and parsing them back succeeds exactly for non-negative counts. */
  lemma StatsRoundTrip(s: StatsDTO)
    ensures ParseStats(StatsToJson(s)).Success? <==>
      s.manualCount >= 0 && s.aiFullCount >= 0 && s.aiEditedCount >= 0 && s.totalGenerated >= 0
    ensures ParseStats(StatsToJson(s)).Success? ==> ParseStats(StatsToJson(s)).value == s
  {
  }
}
