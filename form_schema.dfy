/** The client-side schema of the add-flashcard form (src/schemas/flashcard.schema.ts). */
module FormSchema {
  import opened Wrappers
  import opened Json
  import opened ZodIssues
  import FlashcardSchema

  const TooShort := "Must be at least 2 characters"
  const TooLong := "Must be no more than 200 characters"

  /** The form's two text fields, always strings. */
  datatype FormData = FormData(frontContent: string, backContent: string)

  /** flashcardSchema applied to the form values: issues for front_content, then back_content. */
  function FormIssues(d: FormData): (r: seq<Issue>)
    ensures r == [] <==> 2 <= |d.frontContent| <= 200 && 2 <= |d.backContent| <= 200
    ensures |d.frontContent| < 2 ==> Issue(Some("front_content"), TooShort) in r
    ensures |d.frontContent| > 200 ==> Issue(Some("front_content"), TooLong) in r
    ensures |d.backContent| < 2 ==> Issue(Some("back_content"), TooShort) in r
    ensures |d.backContent| > 200 ==> Issue(Some("back_content"), TooLong) in r
  {
    var front := At("front_content", LengthChecks(d.frontContent, 2, 200, TooShort, TooLong));
    var back := At("back_content", LengthChecks(d.backContent, 2, 200, TooShort, TooLong));
    assert |front| > 0 ==> front[0] in front + back;
    assert |back| > 0 ==> back[|back| - 1] in front + back;
    At("front_content", LengthChecks(d.frontContent, 2, 200, TooShort, TooLong)) +
    At("back_content", LengthChecks(d.backContent, 2, 200, TooShort, TooLong))
  }

  /** The JSON members the form would submit. */
  function FormJson(d: FormData): Json {
    JObject([("front_content", JString(d.frontContent)), ("back_content", JString(d.backContent))])
  }

  /** The form accepts exactly the pairs the server's update schema accepts. */
  lemma AgreesWithUpdateSchema(d: FormData)
    ensures FormIssues(d) == [] <==> FlashcardSchema.ParseUpdate(FormJson(d)).Success?
  {
    var j := FormJson(d);
    assert DistinctKeys(j.fields);
    LookupAt(j.fields, 0);
    LookupAt(j.fields, 1);
  }

  /** Both fields are required: a form issue never blames anything but the two fields. */
  lemma IssuesOnFields(d: FormData)
    ensures forall i :: 0 <= i < |FormIssues(d)| ==>
      FormIssues(d)[i].path == Some("front_content") || FormIssues(d)[i].path == Some("back_content")
  {
  }
}
