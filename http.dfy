/** The parts of fetch and Response that the client code depends on, as plain values. */
module Http {
  import opened Wrappers
  import opened Json

  /** A value thrown by JavaScript code: an Error with its message, or anything else. */
  datatype Thrown = ErrorThrown(message: string) | ValueThrown

  /** What `await fetch(...)` gives: a response, whose body `response.json()` either parses or
      rejects with a SyntaxError carrying the given message; or a rejection of fetch itself. */
  datatype Reply =
    | Replied(status: int, body: Result<Json, string>)
    | FetchFailed(error: Thrown)

  /** Response.ok. */
  predicate Ok(status: int) {
    200 <= status <= 299
  }

  /** The idiom `errorData.error?.message || fallback` applied to a parsed error body. */
  function ServerErrorMessage(body: Json, fallback: string): string {
    StringOr(GetOpt(Get(body, "error"), "message"), fallback)
  }

  /** `error instanceof Error ? error.message : fallback`. */
  function MessageOr(t: Thrown, fallback: string): string {
    if t.ErrorThrown? then t.message else fallback
  }

  /** A GET whose ok body is read as a T: the value, the SyntaxError of an unreadable ok body,
      a non-ok status with its body parsed (or not), or a rejection of fetch. */
  datatype Fetch<T> =
    | Received(data: T)
    | BodyUnreadable(message: string)
    | ErrorStatus(body: Result<Json, string>)
    | Threw(error: Thrown)

  /** The message such a handler stores in its error cell: `error.message || serverFallback`
      for a non-ok status, the thrown message otherwise; None when the data arrived. */
  function FetchError<T>(reply: Fetch<T>, serverFallback: string, otherFallback: string): (m: Option<string>)
    ensures m.None? <==> reply.Received?
    ensures reply.ErrorStatus? && reply.body.Success? ==> m == Some(ServerErrorMessage(reply.body.value, serverFallback))
    ensures reply.ErrorStatus? && reply.body.Failure? ==> m == Some(reply.body.error)
    ensures reply.BodyUnreadable? ==> m == Some(reply.message)
    ensures reply.Threw? ==> m == Some(MessageOr(reply.error, otherFallback))
  {
    match reply
    case Received(_) => None
    case BodyUnreadable(message) => Some(message)
    case ErrorStatus(Failure(message)) => Some(message)
    case ErrorStatus(Success(body)) => Some(ServerErrorMessage(body, serverFallback))
    case Threw(t) => Some(MessageOr(t, otherFallback))
  }

  /** What a PUT or DELETE handler does with its reply: resolve on ok, otherwise throw
      `error.message || fallback`, the SyntaxError of an unreadable error body, or fetch's own rejection. */
  function ChangeOutcome(reply: Reply, fallback: string): (r: Result<(), Thrown>)
    ensures r.Success? <==> reply.Replied? && Ok(reply.status)
    ensures reply.Replied? && !Ok(reply.status) && reply.body.Success? ==>
              r == Failure(ErrorThrown(ServerErrorMessage(reply.body.value, fallback)))
    ensures reply.Replied? && !Ok(reply.status) && reply.body.Failure? ==> r == Failure(ErrorThrown(reply.body.error))
    ensures reply.FetchFailed? ==> r == Failure(reply.error)
  {
    match reply
    case FetchFailed(t) => Failure(t)
    case Replied(status, body) =>
      if Ok(status) then Success(())
      else if body.Failure? then Failure(ErrorThrown(body.error))
      else Failure(ErrorThrown(ServerErrorMessage(body.value, fallback)))
  }

  /** A sonner toast shown to the user. */
  datatype Toast = SuccessToast(message: string) | ErrorToast(message: string)
}
