/** The API error hierarchy (src/lib/errors/api.errors.ts): an error with a status, a code and
    optional details, three fixed subclasses, and createAPIError, which classifies anything thrown. */
module ApiErrors {
  import opened Wrappers
  import opened Json
  import opened Strings

  /** Which constructor built the error; `instanceof APIError` holds for all of them. */
  datatype ErrorClass = Base | UnauthorizedClass | ValidationClass | DatabaseClass

  datatype ApiError = ApiError(cls: ErrorClass, message: string, status: int, code: string, details: Option<Json>)

  /** A thrown value as createAPIError sees it. */
  datatype Raised = RaisedApi(error: ApiError) | RaisedError(message: string) | RaisedOther

  const UnauthorizedAccess := "Unauthorized access"
  const Unexpected := "An unexpected error occurred"

  /** `new UnauthorizedError(message?)`: the default message applies only when none is passed. */
  function UnauthorizedError(message: Option<string>): (e: ApiError)
    ensures e.status == 401 && e.code == "UNAUTHORIZED" && e.details.None?
    ensures e.message == message.GetOr(UnauthorizedAccess)
  {
    ApiError(UnauthorizedClass, message.GetOr(UnauthorizedAccess), 401, "UNAUTHORIZED", None)
  }

  function ValidationError(message: string, details: Option<Json>): (e: ApiError)
    ensures e.status == 400 && e.code == "VALIDATION_ERROR" && e.message == message && e.details == details
  {
    ApiError(ValidationClass, message, 400, "VALIDATION_ERROR", details)
  }

  function DatabaseError(message: string, details: Option<Json>): (e: ApiError)
    ensures e.status == 500 && e.code == "DATABASE_ERROR" && e.message == message && e.details == details
  {
    ApiError(DatabaseClass, message, 500, "DATABASE_ERROR", details)
  }

  /** toJSON as it is serialised: error, code, and details when defined. */
  function ToJson(e: ApiError): (j: Json)
    ensures Get(j, "error") == Some(JString(e.message)) && Get(j, "code") == Some(JString(e.code))
    ensures Get(j, "details") == e.details
  {
    var fields := [("error", JString(e.message)), ("code", JString(e.code))] +
                  (if e.details.Some? then [("details", e.details.value)] else []);
    assert DistinctKeys(fields);
    assert Lookup(fields, "code") == Some(JString(e.code)) by {
      LookupAt(fields, 1);
    }
    assert e.details.Some? ==> Lookup(fields, "details") == e.details by {
      if e.details.Some? {
        LookupAt(fields, 2);
      }
    }
    JObject(fields)
  }

  /** createAPIError. */
  function CreateApiError(raised: Raised): (e: ApiError)
    ensures raised.RaisedApi? ==> e == raised.error
    ensures raised.RaisedError? && Contains(raised.message, "Failed to fetch") ==> e == DatabaseError(raised.message, None)
    ensures raised.RaisedError? && !Contains(raised.message, "Failed to fetch") ==>
              e == ApiError(Base, raised.message, 500, "INTERNAL_SERVER_ERROR", None)
    ensures raised.RaisedOther? ==> e == ApiError(Base, Unexpected, 500, "INTERNAL_SERVER_ERROR", None)
  {
    match raised
    case RaisedApi(error) => error
    case RaisedError(message) =>
      if Contains(message, "Failed to fetch") then DatabaseError(message, None)
      else ApiError(Base, message, 500, "INTERNAL_SERVER_ERROR", None)
    case RaisedOther => ApiError(Base, Unexpected, 500, "INTERNAL_SERVER_ERROR", None)
  }

  /** Classifying a classified error changes nothing. */
  lemma CreateIdempotent(raised: Raised)
    ensures CreateApiError(RaisedApi(CreateApiError(raised))) == CreateApiError(raised)
  {
  }

  /** Only an APIError passed through can carry a status other than 500; plain errors keep their
      message. */
  lemma ClassifiedStatus(raised: Raised)
    ensures !raised.RaisedApi? ==> CreateApiError(raised).status == 500 && CreateApiError(raised).details.None?
    ensures raised.RaisedError? ==> CreateApiError(raised).message == raised.message
  {
  }

  /** A fetch failure somewhere in the message is a database error. */
  lemma FetchFailureIsDatabaseError(prefix: string, suffix: string)
    ensures CreateApiError(RaisedError(prefix + "Failed to fetch" + suffix)).code == "DATABASE_ERROR"
  {
    ContainsAt(prefix + "Failed to fetch" + suffix, "Failed to fetch", |prefix|);
  }
}
