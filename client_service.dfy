/** The browser-side FlashcardService (src/services/flashcard.service.ts): create posts a manual
    card and turns an error response into a thrown Error whose message depends on the error code. */
module ClientService {
  import opened Wrappers
  import opened Json
  import opened Http
  import opened ZodIssues
  import FlashcardsRoute

  const UnknownError := "An unknown error occurred"
  const ServerError := "Server error. Please try again later."

  /** `responseData.error?.code || "UNKNOWN_ERROR"`. */
  function ErrorCode(body: Json): (c: Json)
    ensures Truthy(c)
    ensures c == JString("UNKNOWN_ERROR") || Some(c) == GetOpt(Get(body, "error"), "code")
  {
    var code := GetOpt(Get(body, "error"), "code");
    if code.Some? && Truthy(code.value) then code.value else JString("UNKNOWN_ERROR")
  }

  /** `responseData.error?.message || "An unknown error occurred"`, kept as a value. */
  function MessageValue(body: Json): (m: Json)
    ensures Truthy(m)
  {
    var message := GetOpt(Get(body, "error"), "message");
    if message.Some? && Truthy(message.value) then message.value else JString(UnknownError)
  }

  /** The object stringified for a validation error. JSON.stringify drops an undefined member,
      so details is present only when the server sent it. */
  function ValidationPayload(body: Json): (j: Json)
    ensures Get(j, "code") == Some(JString("VALIDATION_ERROR"))
    ensures Get(j, "details") == GetOpt(Get(body, "error"), "details")
  {
    var details := GetOpt(Get(body, "error"), "details");
    var fields := [("code", JString("VALIDATION_ERROR")), ("message", MessageValue(body))] +
                  (if details.Some? then [("details", details.value)] else []);
    assert DistinctKeys(fields);
    assert details.Some? ==> Lookup(fields, "details") == details by {
      if details.Some? {
        LookupAt(fields, 2);
      }
    }
    JObject(fields)
  }

  /** create: the body is read before the status is looked at, so an unreadable body rejects
      with its SyntaxError even on success; a thrown non-Error becomes the unknown-error Error. */
  function Create(codec: Codec, reply: Reply): (r: Result<Json, Thrown>)
    ensures r.Failure? ==> r.error.ErrorThrown?
    ensures r.Success? <==> reply.Replied? && Ok(reply.status) && reply.body.Success?
    ensures r.Success? ==> r.value == reply.body.value
    ensures reply.Replied? && reply.body.Failure? ==> r == Failure(ErrorThrown(reply.body.error))
    ensures reply.FetchFailed? ==> r == Failure(ErrorThrown(MessageOr(reply.error, UnknownError)))
    ensures reply.Replied? && !Ok(reply.status) && reply.body.Success? ==>
              var body := reply.body.value;
              r == Failure(ErrorThrown(
                     if ErrorCode(body) == JString("VALIDATION_ERROR") then codec.stringify(ValidationPayload(body))
                     else if ErrorCode(body) == JString("INTERNAL_ERROR") then ServerError
                     else ServerErrorMessage(body, UnknownError)))
  {
    match reply
    case FetchFailed(t) => Failure(ErrorThrown(MessageOr(t, UnknownError)))
    case Replied(status, Failure(m)) => Failure(ErrorThrown(m))
    case Replied(status, Success(body)) =>
      if Ok(status) then Success(body)
      else
        var code := ErrorCode(body);
        if code == JString("VALIDATION_ERROR") then Failure(ErrorThrown(codec.stringify(ValidationPayload(body))))
        else if code == JString("INTERNAL_ERROR") then Failure(ErrorThrown(ServerError))
        else Failure(ErrorThrown(ServerErrorMessage(body, UnknownError)))
  }

  /** The route's validation failure reaches the form intact: the thrown message parses back to
      an object whose details are the server's formatted issues. */
  lemma ValidationRoundTrip(codec: Codec, issues: seq<Issue>)
    requires RoundTrips(codec) && NoReservedPath(issues)
    ensures var r := Create(codec, Replied(400, Success(FlashcardsRoute.ValidationFailed(issues))));
            r.Failure? && codec.parse(r.error.message).Some? &&
            Get(codec.parse(r.error.message).value, "code") == Some(JString("VALIDATION_ERROR")) &&
            GetOpt(codec.parse(r.error.message), "details") == Some(Format(issues))
  {
    var payload := RoutePayload(Format(issues));
    var body := FlashcardsRoute.ValidationFailed(issues);
    RouteBodyRead(issues);
    assert Create(codec, Replied(400, Success(body))) == Failure(ErrorThrown(codec.stringify(payload)));
    FormatWellFormed(issues);
    assert WellFormed(payload);
    assert codec.parse(codec.stringify(payload)) == Some(payload);
  }

  /** The object the client stringifies for the route's validation failure. */
  function RoutePayload(details: Json): (j: Json)
    ensures WellFormed(details) ==> WellFormed(j)
    ensures Get(j, "code") == Some(JString("VALIDATION_ERROR")) && Get(j, "details") == Some(details)
  {
    var fields := [("code", JString("VALIDATION_ERROR")), ("message", JString("Invalid request body")), ("details", details)];
    assert DistinctKeys(fields);
    assert Lookup(fields, "details") == Some(details) by {
      LookupAt(fields, 2);
    }
    JObject(fields)
  }

  /** Reading the route's validation body: its code, and the payload built from it. */
  lemma RouteBodyRead(issues: seq<Issue>)
    ensures ErrorCode(FlashcardsRoute.ValidationFailed(issues)) == JString("VALIDATION_ERROR")
    ensures ValidationPayload(FlashcardsRoute.ValidationFailed(issues)) == RoutePayload(Format(issues))
  {
    var body := FlashcardsRoute.ValidationFailed(issues);
    var innerFields := [("message", JString("Invalid request body")), ("code", JString("VALIDATION_ERROR")),
                        ("details", Format(issues))];
    assert body == JObject([("error", JObject(innerFields))]);
    assert Get(body, "error") == Some(JObject(innerFields));
    Distinct3(innerFields);
    LookupAt(innerFields, 0); LookupAt(innerFields, 1); LookupAt(innerFields, 2);
    assert MessageValue(body) == JString("Invalid request body");
    PayloadFields(JString("Invalid request body"), Format(issues));
  }

  /** ValidationPayload's members, once the message and the details are known. */
  lemma PayloadFields(message: Json, details: Json)
    ensures [("code", JString("VALIDATION_ERROR")), ("message", message)] + [("details", details)] ==
            [("code", JString("VALIDATION_ERROR")), ("message", message), ("details", details)]
  {
  }

  /** The route's internal error is shown as the generic server-error text. */
  lemma InternalErrorWording(codec: Codec)
    ensures Create(codec, Replied(500, Success(FlashcardsRoute.InternalError.body))) == Failure(ErrorThrown(ServerError))
  {
    var inner := JObject([("message", JString("Internal server error")), ("code", JString("INTERNAL_ERROR"))]);
    assert FlashcardsRoute.InternalError.body == JObject([("error", inner)]);
    LookupAt(inner.fields, 1);
  }

  /** Any other coded error is shown with the server's own message. */
  lemma UnauthorizedWording(codec: Codec)
    ensures Create(codec, Replied(401, Success(FlashcardsRoute.Unauthorized.body))) == Failure(ErrorThrown("Unauthorized"))
  {
    var inner := JObject([("message", JString("Unauthorized")), ("code", JString("UNAUTHORIZED"))]);
    assert FlashcardsRoute.Unauthorized.body == JObject([("error", inner)]);
    LookupAt(inner.fields, 1);
  }
}
