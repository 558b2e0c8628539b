/** The request schema of the generate endpoint (src/schemas/generation.schema.ts). */
module GenerationSchema {
  import opened Wrappers
  import opened Json
  import opened Strings
  import opened ZodIssues

  const TextTooShort := "Input text must be at least 1000 characters"
  const TextTooLong := "Input text must not exceed 10000 characters"
  const CountNotInteger := "Number of cards must be an integer"
  const CountTooSmall := "At least 1 card must be generated"
  const CountTooLarge := "Maximum 20 cards can be generated at once"
  const DefaultCardCount := 5

  datatype GenerateInput = GenerateInput(inputText: string, numberOfCards: int)

  function TextMessages(s: string): (ms: seq<string>)
    ensures ms == [] <==> 1000 <= |s| <= 10000
  {
    LengthChecks(s, 1000, 10000, TextTooShort, TextTooLong)
  }

  /** The three number checks; zod runs all of them. */
  function CountMessages(n: real): (ms: seq<string>)
    ensures ms == [] <==> IsInteger(n) && 1.0 <= n <= 20.0
    ensures !IsInteger(n) ==> ms[0] == CountNotInteger
  {
    (if IsInteger(n) then [] else [CountNotInteger]) +
    (if n < 1.0 then [CountTooSmall] else []) +
    (if n > 20.0 then [CountTooLarge] else [])
  }

  function CountMember(body: Json): (r: seq<Issue>)
    ensures r == [] <==> match Get(body, "number_of_cards")
                         case None => true
                         case Some(JNumber(n)) => IsInteger(n) && 1.0 <= n <= 20.0
                         case Some(_) => false
  {
    match Get(body, "number_of_cards")
    case None => []
    case Some(JNumber(n)) => At("number_of_cards", CountMessages(n))
    case Some(_) => [Issue(Some("number_of_cards"), ExpectedNumber)]
  }

  /** generateFlashcardsSchema.safeParse. The length bounds apply to the raw text; the parsed
      text is the trimmed one; an absent card count becomes 5. */
  function ParseGenerate(body: Json): (r: Result<GenerateInput, seq<Issue>>)
    ensures r.Success? <==>
      body.JObject? && Get(body, "input_text").Some? && Get(body, "input_text").value.JString? &&
      1000 <= |Get(body, "input_text").value.s| <= 10000 && CountMember(body) == []
    ensures r.Failure? ==> |r.error| > 0
    ensures r.Success? ==> r.value.inputText == Trim(Get(body, "input_text").value.s)
    ensures r.Success? ==> 1 <= r.value.numberOfCards <= 20
    ensures r.Success? && Get(body, "number_of_cards").None? ==> r.value.numberOfCards == DefaultCardCount
    ensures r.Success? && Get(body, "number_of_cards").Some? ==>
      Get(body, "number_of_cards") == Some(JNumber(r.value.numberOfCards as real))
  {
    if !body.JObject? then Failure([Issue(None, ExpectedObject)])
    else
      var issues := StringMember(body, "input_text", TextMessages) + CountMember(body);
      if issues != [] then Failure(issues)
      else
        var count := match Get(body, "number_of_cards")
                     case Some(JNumber(n)) => n.Floor
                     case _ => DefaultCardCount;
        Success(GenerateInput(Trim(Get(body, "input_text").value.s), count))
  }

  /** A body with only the text takes the default card count. */
  lemma TextOnly(s: string)
    requires 1000 <= |s| <= 10000
    ensures ParseGenerate(JObject([("input_text", JString(s))])) == Success(GenerateInput(Trim(s), DefaultCardCount))
  {
    var body := JObject([("input_text", JString(s))]);
    assert Get(body, "input_text") == Some(JString(s));
    assert Get(body, "number_of_cards") == None;
  }

  /** Trimming after the length check can bring the text under the minimum: whitespace w in front
      of a text t that is already trimmed passes the check on |w + t| but parses to t. */
  lemma {:induction false} TrimAfterLengthCheck(w: string, t: string)
    requires AllWhitespace(w)
    requires t == [] || (!IsJsWhitespace(t[0]) && !IsJsWhitespace(t[|t| - 1]))
    requires 1000 <= |w + t| <= 10000
    ensures ParseGenerate(JObject([("input_text", JString(w + t))])) == Success(GenerateInput(t, DefaultCardCount))
  {
    TrimStartSkips(w, t);
    TrimNoOp(t);
    assert Trim(w + t) == TrimEnd(TrimStart(w + t));
    TextOnly(w + t);
  }

  lemma ParsedTextNotLonger(body: Json)
    requires ParseGenerate(body).Success?
    ensures |ParseGenerate(body).value.inputText| <= |Get(body, "input_text").value.s|
  {
  }

  /** For instance, one space followed by 999 letters is accepted and parses to 999 characters. */
  lemma ShortAfterTrim()
    ensures var body := JObject([("input_text", JString([' '] + seq(999, _ => 'a')))]);
            ParseGenerate(body).Success? && |ParseGenerate(body).value.inputText| == 999
  {
    var t := seq(999, _ => 'a');
    assert AllWhitespace([' ']);
    TrimAfterLengthCheck([' '], t);
  }
}
