/** OpenRouterService (src/lib/services/openrouter.service.ts): configuration, model
    parameters, payload construction and the validation of a chat-completion response. The HTTP
    request is left to the caller: a method that would send it receives the reply as a value. */
module OpenRouter {
  import opened Wrappers
  import opened Json
  import opened Strings
  import opened Types

  const DefaultBaseUrl := "https://openrouter.ai/api/v1"
  const DefaultModel := "openai/gpt-4o-mini"
  const MissingApiKey := "OpenRouter API key is required"
  const MissingModel := "OpenRouter model name is required"
  const MissingBaseUrl := "OpenRouter base URL is required"
  const InvalidFormat := "Invalid response format from API"
  const CompletionFailed := "Failed to generate flashcard"
  const GenerationFailed := "Failed to generate flashcards"

  const DefaultSystemMessage :=
    "You are an AI assistant specialized in creating educational flashcards. Your task is to analyze the provided text and create concise, effective flashcards that help users learn the key concepts.\n\n" +
    "Create flashcards following these rules:\n" +
    "1. Front side should be a clear, specific question\n" +
    "2. Back side should be a concise but comprehensive answer\n" +
    "3. Each flashcard should focus on one concept\n" +
    "4. Use clear, simple language\n" +
    "5. Avoid complex or compound questions\n\n" +
    "IMPORTANT: Your response must be a valid JSON object with a 'flashcards' array containing objects with 'front_content' and 'back_content' properties. Example:\n" +
    "{\n  \"flashcards\": [\n    {\n      \"front_content\": \"What is X?\",\n      \"back_content\": \"X is Y\"\n    }\n  ]\n}"

  /** The sampling parameters; the numbers are opaque to the service. */
  datatype Params = Params(temperature: real, maxTokens: int, topP: Option<real>)

  /** A Partial<ModelParameters>: a member is either given or absent. */
  datatype PartialParams = PartialParams(temperature: Option<real>, maxTokens: Option<int>, topP: Option<real>)

  const NoParams := PartialParams(None, None, None)
  const DefaultParams := Params(0.7, 5000, Some(1.0))

  /** `{...p, ...q}`: every member q gives replaces p's, every other member of p stays. */
  function Merge(p: Params, q: PartialParams): (r: Params)
    ensures r.temperature == (if q.temperature.Some? then q.temperature.value else p.temperature)
    ensures r.maxTokens == (if q.maxTokens.Some? then q.maxTokens.value else p.maxTokens)
    ensures r.topP == (if q.topP.Some? then q.topP else p.topP)
  {
    Params(q.temperature.GetOr(p.temperature), q.maxTokens.GetOr(p.maxTokens), if q.topP.Some? then q.topP else p.topP)
  }

  lemma MergeLaws(p: Params, q: PartialParams)
    ensures Merge(p, NoParams) == p
    ensures Merge(Merge(p, q), q) == Merge(p, q)
  {
  }

  /** The constructor's Partial<OpenRouterConfig>; a missing config is all members absent. */
  datatype ConfigInput = ConfigInput(apiKey: Option<string>, baseUrl: Option<string>, modelName: Option<string>,
                                     defaultParameters: PartialParams)

  datatype Config = Config(apiKey: string, baseUrl: string, modelName: string, parameters: Params)

  /** The constructor's defaults and checks: the key falls back to the environment's on any
      empty value (`||`), the URL and model only on absence (`??`); then key, model and URL are
      checked in that order. */
  function ResolveConfig(config: ConfigInput, envApiKey: string): (r: Result<Config, string>)
    ensures var key := if config.apiKey.Some? && config.apiKey.value != "" then config.apiKey.value else envApiKey;
            var model := config.modelName.GetOr(DefaultModel);
            var url := config.baseUrl.GetOr(DefaultBaseUrl);
            (r.Success? <==> key != "" && model != "" && url != "") &&
            (key == "" ==> r == Failure(MissingApiKey)) &&
            (key != "" && model == "" ==> r == Failure(MissingModel)) &&
            (key != "" && model != "" && url == "" ==> r == Failure(MissingBaseUrl)) &&
            (r.Success? ==> r.value == Config(key, url, model, Merge(DefaultParams, config.defaultParameters)))
  {
    var key := if config.apiKey.Some? && config.apiKey.value != "" then config.apiKey.value else envApiKey;
    var url := config.baseUrl.GetOr(DefaultBaseUrl);
    var model := config.modelName.GetOr(DefaultModel);
    if key == "" then Failure(MissingApiKey)
    else if model == "" then Failure(MissingModel)
    else if url == "" then Failure(MissingBaseUrl)
    else Success(Config(key, url, model, Merge(DefaultParams, config.defaultParameters)))
  }

  /** With no configuration, an environment key gives the default URL, model and parameters. */
  lemma DefaultsApply(envApiKey: string)
    requires envApiKey != ""
    ensures ResolveConfig(ConfigInput(None, None, None, NoParams), envApiKey) ==
            Success(Config(envApiKey, DefaultBaseUrl, DefaultModel, DefaultParams))
  {
  }

  /** The json_schema response format sent with every request. */
  function ResponseFormat(): (j: Json)
    ensures Get(j, "type") == Some(JString("json_schema"))
    ensures GetOpt(Get(j, "json_schema"), "name") == Some(JString("flashcards-schema"))
  {
    var card := JObject([
      ("type", JString("object")),
      ("required", StringArray(["front_content", "back_content"])),
      ("properties", JObject([("front_content", JObject([("type", JString("string"))])),
                              ("back_content", JObject([("type", JString("string"))]))]))]);
    var schema := JObject([
      ("type", JString("object")),
      ("required", StringArray(["flashcards"])),
      ("properties", JObject([("flashcards", JObject([("type", JString("array")), ("items", card)]))]))]);
    var outer := [("type", JString("json_schema")),
                  ("json_schema", JObject([("name", JString("flashcards-schema")), ("schema", schema)]))];
    LookupFirst(outer, 1);
    JObject(outer)
  }

  datatype Role = System | User | Assistant

  datatype ChatMessage = ChatMessage(role: Role, content: string)

  datatype Payload = Payload(model: string, messages: seq<ChatMessage>, responseFormat: Json, parameters: Params)

  /** The system text: the default, followed by the context's JSON when a context is given. */
  function SystemMessage(context: Option<Json>, stringify: Json -> string): (s: string)
    ensures context.None? ==> s == DefaultSystemMessage
    ensures context.Some? ==> s == DefaultSystemMessage + "\nContext: " + stringify(context.value)
  {
    if context.Some? then DefaultSystemMessage + "\nContext: " + stringify(context.value) else DefaultSystemMessage
  }

  /** Why a completion is rejected: the first check that fails. */
  datatype Rejection =
    | MissingChoices
    | MissingMessage
    | InvalidContentType
    | EmptyContent
    | NotJson
    | WrongShape
    | MissingCardContent

  /** A card is an object with string front_content and back_content. */
  predicate IsProposal(j: Json) {
    j.JObject? && Get(j, "front_content").Some? && Get(j, "front_content").value.JString? &&
    Get(j, "back_content").Some? && Get(j, "back_content").value.JString?
  }

  /** _isFlashcardResponse: an object whose flashcards member is an array of cards. */
  predicate IsFlashcardResponse(j: Json) {
    j.JObject? && Get(j, "flashcards").Some? && Get(j, "flashcards").value.JArray? &&
    forall k :: 0 <= k < |Get(j, "flashcards").value.items| ==> IsProposal(Get(j, "flashcards").value.items[k])
  }

  function Cards(j: Json): seq<Json>
    requires IsFlashcardResponse(j)
  {
    Get(j, "flashcards").value.items
  }

  /** Both texts of a card are non-empty. */
  predicate HasContent(card: Json)
    requires IsProposal(card)
  {
    Get(card, "front_content").value.s != "" && Get(card, "back_content").value.s != ""
  }

  /** The first three checks of _handleResponse: the message content of the first choice, or
      the check that failed. `choices.length` and `choices[0]` are read as JavaScript reads
      them, so an array-like object passes as well as an array. */
  function FirstContent(response: Json): (r: Result<string, Rejection>)
    ensures r.Failure? ==> r.error == MissingChoices || r.error == MissingMessage || r.error == InvalidContentType
    ensures r.Success? ==> r.value != ""
  {
    var choices := Get(response, "choices");
    var length := if choices.Some? then LengthOf(choices.value) else None;
    if length.None? || !Truthy(length.value) then Failure(MissingChoices)
    else
      var message := GetOpt(ItemZero(choices.value), "message");
      if message.None? || !Truthy(message.value) then Failure(MissingMessage)
      else
        var content := Get(message.value, "content");
        if content.Some? && content.value.JString? && content.value.s != "" then Success(content.value.s)
        else Failure(InvalidContentType)
  }

  /** The message content of the first choice, when the first three checks pass. */
  function Content(response: Json): Option<string> {
    if FirstContent(response).Success? then Some(FirstContent(response).value) else None
  }

  /** `choices` is tested only through `length` and `[0]`: an object with a truthy "length" and
      a "0" member is read exactly as the one-element array holding that member. */
  lemma ArrayLikeChoices(c: Json, length: Json)
    requires Truthy(length)
    ensures FirstContent(JObject([("choices", JObject([("length", length), ("0", c)]))])) ==
            FirstContent(JObject([("choices", JArray([c]))]))
  {
    var like := JObject([("length", length), ("0", c)]);
    assert Get(JObject([("choices", like)]), "choices") == Some(like);
    assert Get(JObject([("choices", JArray([c]))]), "choices") == Some(JArray([c]));
    assert LengthOf(like) == Some(length);
    assert like.fields[0].0 != like.fields[1].0 by {
      assert |like.fields[0].0| != |like.fields[1].0|;
    }
    assert DistinctKeys(like.fields);
    LookupAt(like.fields, 1);
    assert ItemZero(like) == Some(c);
  }

  /** The remaining checks, on the content: not blank, JSON, the right shape, every card full. */
  function ContentRejected(content: string, parse: string -> Option<Json>): Option<Rejection> {
    if Trim(content) == "" then Some(EmptyContent)
    else
      var parsed := parse(content);
      if parsed.None? then Some(NotJson)
      else if !IsFlashcardResponse(parsed.value) then Some(WrongShape)
      else if exists k :: 0 <= k < |Cards(parsed.value)| && !HasContent(Cards(parsed.value)[k]) then Some(MissingCardContent)
      else None
  }

  /** The checks of _handleResponse in order; None means the response is accepted. */
  function Rejected(response: Json, parse: string -> Option<Json>): (r: Option<Rejection>)
    ensures r.None? ==> Content(response).Some?
    ensures Content(response).None? ==> r == Some(FirstContent(response).error)
  {
    match FirstContent(response)
    case Failure(e) => Some(e)
    case Success(c) => ContentRejected(c, parse)
  }

  /** The cards of a validated response as proposals, in order. */
  function ToProposals(cards: seq<Json>): (ps: seq<ProposalDTO>)
    requires forall k :: 0 <= k < |cards| ==> IsProposal(cards[k])
    ensures |ps| == |cards|
    ensures forall k :: 0 <= k < |cards| ==>
      Get(cards[k], "front_content") == Some(JString(ps[k].frontContent)) &&
      Get(cards[k], "back_content") == Some(JString(ps[k].backContent))
  {
    if cards == [] then []
    else
      assert IsProposal(cards[0]);
      [ProposalDTO(Get(cards[0], "front_content").value.s, Get(cards[0], "back_content").value.s)] + ToProposals(cards[1..])
  }

  /** `list.slice(0, n)`: a negative n counts from the end. */
  function Slice<T>(s: seq<T>, n: int): (r: seq<T>)
    ensures n >= 0 ==> |r| == (if n < |s| then n else |s|)
    ensures n < 0 ==> |r| == (if |s| + n > 0 then |s| + n else 0)
    ensures r == s[..|r|]
  {
    if n >= 0 then (if n < |s| then s[..n] else s)
    else if |s| + n > 0 then s[..|s| + n] else []
  }

  /** Truncating never pads: the result is the first min(n, |s|) elements. */
  lemma SliceNeverPads<T>(s: seq<T>, n: nat)
    ensures |Slice(s, n)| <= |s| && |Slice(s, n)| <= n
    ensures |s| <= n ==> Slice(s, n) == s
  {
  }

  function UserMessage(numberOfCards: int, inputText: string): string {
    "Please create " + IntToString(numberOfCards) + " flashcards from the following text:\n\n" + inputText
  }

  /** The reply to a chat-completion request: a status with the body response.json() gives
      (None when it cannot be parsed), or a request that never completed. */
  datatype ApiReply = ApiReply(status: int, body: Option<Json>) | RequestFailed

  class Service {
    const apiKey: string
    const baseUrl: string
    const modelName: string
    var modelParameters: Params

    /** The constructor after ResolveConfig has succeeded. */
    constructor(config: Config)
      ensures apiKey == config.apiKey && baseUrl == config.baseUrl && modelName == config.modelName
      ensures modelParameters == config.parameters
    {
      apiKey := config.apiKey;
      baseUrl := config.baseUrl;
      modelName := config.modelName;
      modelParameters := config.parameters;
    }

    method SetModelParameters(parameters: PartialParams)
      modifies this
      ensures modelParameters == Merge(old(modelParameters), parameters)
    {
      modelParameters := Merge(modelParameters, parameters);
    }

    /** _buildPayload: messages [system, user], the response format and the current parameters. */
    method BuildPayload(userMessage: string, context: Option<Json>, stringify: Json -> string) returns (p: Payload)
      ensures p.messages == [ChatMessage(System, SystemMessage(context, stringify)), ChatMessage(User, userMessage)]
      ensures p.model == modelName && p.parameters == modelParameters && p.responseFormat == ResponseFormat()
    {
      var systemMessage := DefaultSystemMessage;
      if context.Some? {
        systemMessage := systemMessage + "\nContext: " + stringify(context.value);
      }
      var messages := [ChatMessage(System, systemMessage), ChatMessage(User, userMessage)];
      p := Payload(modelName, messages, ResponseFormat(), modelParameters);
    }

    /** _handleResponse: the checks in order, then every card's content; any failure becomes
        the one generic error, a success returns the parsed content unchanged. */
    method HandleResponse(response: Json, parse: string -> Option<Json>) returns (r: Result<Json, string>)
      ensures r.Failure? <==> Rejected(response, parse).Some?
      ensures r.Failure? ==> r.error == InvalidFormat
      ensures r.Success? ==> r.value == parse(Content(response).value).value && IsFlashcardResponse(r.value)
    {
      var choices := Get(response, "choices");
      var length := if choices.Some? then LengthOf(choices.value) else None;
      if length.None? || !Truthy(length.value) {
        assert FirstContent(response) == Failure(MissingChoices);
        return Failure(InvalidFormat);
      }
      var choice := ItemZero(choices.value);
      var message := GetOpt(choice, "message");
      if message.None? || !Truthy(message.value) {
        assert FirstContent(response) == Failure(MissingMessage);
        return Failure(InvalidFormat);
      }
      var content := Get(message.value, "content");
      if !(content.Some? && content.value.JString? && content.value.s != "") {
        assert FirstContent(response) == Failure(InvalidContentType);
        return Failure(InvalidFormat);
      }
      var c := content.value.s;
      assert FirstContent(response) == Success(c);
      assert Content(response) == Some(c);
      assert Rejected(response, parse) == ContentRejected(c, parse);
      if Trim(c) == "" {
        assert ContentRejected(c, parse) == Some(EmptyContent);
        return Failure(InvalidFormat);
      }
      var parsed := parse(c);
      if parsed.None? {
        assert ContentRejected(c, parse) == Some(NotJson);
        return Failure(InvalidFormat);
      }
      if !IsFlashcardResponse(parsed.value) {
        assert ContentRejected(c, parse) == Some(WrongShape);
        return Failure(InvalidFormat);
      }
      var complete := AllHaveContent(Cards(parsed.value));
      ContentAcceptedIff(c, parse);
      if !complete {
        return Failure(InvalidFormat);
      }
      return Success(parsed.value);
    }

    /** The loop over the cards: stops at the first card with an empty side. */
    method AllHaveContent(cards: seq<Json>) returns (ok: bool)
      requires forall k :: 0 <= k < |cards| ==> IsProposal(cards[k])
      ensures ok <==> forall k :: 0 <= k < |cards| ==> HasContent(cards[k])
    {
      var i := 0;
      while i < |cards|
        invariant 0 <= i <= |cards|
        invariant forall k :: 0 <= k < i ==> HasContent(cards[k])
      {
        if Get(cards[i], "front_content").value.s == "" || Get(cards[i], "back_content").value.s == "" {
          return false;
        }
        i := i + 1;
      }
      return true;
    }

    /** sendChatCompletion, given the reply to the payload it builds. */
    method SendChatCompletion(userMessage: string, context: Option<Json>, stringify: Json -> string,
                              reply: ApiReply, parse: string -> Option<Json>) returns (r: Result<Json, string>)
      ensures r.Failure? ==> r.error == CompletionFailed
      ensures r.Success? <==> reply.ApiReply? && 200 <= reply.status <= 299 && reply.body.Some? &&
                              Rejected(reply.body.value, parse).None?
      ensures r.Success? ==> IsFlashcardResponse(r.value) && r.value == parse(Content(reply.body.value).value).value
    {
      var payload := BuildPayload(userMessage, context, stringify);
      if reply.RequestFailed? || !(200 <= reply.status <= 299) || reply.body.None? {
        return Failure(CompletionFailed);
      }
      var handled := HandleResponse(reply.body.value, parse);
      if handled.Failure? {
        return Failure(CompletionFailed);
      }
      return handled;
    }

    /** generateFlashcards: asks for numberOfCards cards and keeps at most that many, in order. */
    method GenerateFlashcards(inputText: string, numberOfCards: int, stringify: Json -> string,
                              reply: ApiReply, parse: string -> Option<Json>) returns (r: Result<seq<ProposalDTO>, string>)
      ensures r.Failure? ==> r.error == GenerationFailed
      ensures r.Success? <==> reply.ApiReply? && 200 <= reply.status <= 299 && reply.body.Some? &&
                              Rejected(reply.body.value, parse).None?
      ensures r.Success? ==>
        var parsed := parse(Content(reply.body.value).value).value;
        IsFlashcardResponse(parsed) && r.value == Slice(ToProposals(Cards(parsed)), numberOfCards)
    {
      var userMessage := UserMessage(numberOfCards, inputText);
      var response := SendChatCompletion(userMessage, None, stringify, reply, parse);
      if response.Failure? {
        return Failure(GenerationFailed);
      }
      var flashcards := Slice(ToProposals(Cards(response.value)), numberOfCards);
      return Success(flashcards);
    }
  }

  /** A response is accepted exactly when its content is non-blank JSON of the right shape and
      every card has both sides. */
  lemma AcceptedIff(response: Json, parse: string -> Option<Json>)
    ensures Rejected(response, parse).None? <==>
      Content(response).Some? && Trim(Content(response).value) != "" &&
      parse(Content(response).value).Some? && IsFlashcardResponse(parse(Content(response).value).value) &&
      forall k :: 0 <= k < |Cards(parse(Content(response).value).value)| ==>
        HasContent(Cards(parse(Content(response).value).value)[k])
  {
    if FirstContent(response).Success? {
      var c := FirstContent(response).value;
      assert Content(response) == Some(c);
      assert Rejected(response, parse) == ContentRejected(c, parse);
      ContentAcceptedIff(c, parse);
    }
  }

  lemma ContentAcceptedIff(c: string, parse: string -> Option<Json>)
    ensures ContentRejected(c, parse).None? <==>
      Trim(c) != "" && parse(c).Some? && IsFlashcardResponse(parse(c).value) &&
      forall k :: 0 <= k < |Cards(parse(c).value)| ==> HasContent(Cards(parse(c).value)[k])
  {
  }

  /** One card with an empty side rejects the whole response, whatever the other cards hold. */
  lemma AllOrNothing(response: Json, parse: string -> Option<Json>, k: nat)
    requires Content(response).Some? && parse(Content(response).value).Some?
    requires IsFlashcardResponse(parse(Content(response).value).value)
    requires k < |Cards(parse(Content(response).value).value)|
    requires !HasContent(Cards(parse(Content(response).value).value)[k])
    ensures Rejected(response, parse).Some?
  {
    AcceptedIff(response, parse);
  }
}
