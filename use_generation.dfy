/** useGeneration (src/hooks/useGeneration.ts): one state cell (generating flag, error, result)
    set when a generation starts and when it settles. */
module UseGeneration {
  import opened Wrappers
  import opened Types
  import opened Http

  const DefaultStatusError := "An error occurred during generation."
  const InvalidInput := "Invalid input data. Make sure the text has the correct length."
  const SessionExpired := "Session expired. Please log in again."
  const LimitExceeded := "Request limit exceeded. Please try again later."
  const Unavailable := "The generation service is currently unavailable."
  const Unexpected := "An unexpected error occurred."

  /** The status switch for a non-ok response. */
  function StatusMessage(status: int): (m: string)
    ensures status == 400 ==> m == InvalidInput
    ensures status == 401 ==> m == SessionExpired
    ensures status == 429 ==> m == LimitExceeded
    ensures status == 503 ==> m == Unavailable
    ensures status !in {400, 401, 429, 503} ==> m == DefaultStatusError
  {
    if status == 400 then InvalidInput
    else if status == 401 then SessionExpired
    else if status == 429 then LimitExceeded
    else if status == 503 then Unavailable
    else DefaultStatusError
  }

  /** The message tells the status class apart: two statuses show the same message exactly when
      they are equal or both fall to the default. */
  lemma StatusMessageDetermines(a: int, b: int)
    ensures StatusMessage(a) == StatusMessage(b) <==> a == b || (a !in {400, 401, 429, 503} && b !in {400, 401, 429, 503})
  {
    assert InvalidInput != SessionExpired && InvalidInput != LimitExceeded && InvalidInput != Unavailable;
    assert SessionExpired != LimitExceeded && SessionExpired != Unavailable && LimitExceeded != Unavailable;
    assert DefaultStatusError !in {InvalidInput, SessionExpired, LimitExceeded, Unavailable};
  }

  /** How the POST settles: a status with the body read as a response (or the reading's error),
      or a rejection of fetch itself. */
  datatype GenerateReply =
    | Responded(status: int, body: Result<GenerationResponseDTO, string>)
    | Rejected(error: Thrown)

  datatype GenerationState = GenerationState(isGenerating: bool, error: Option<string>, result: Option<GenerationResponseDTO>)

  const Idle := GenerationState(false, None, None)

  /** The first setState: generating, no error, the previous result kept. */
  function Started(s: GenerationState): (t: GenerationState)
    ensures t.isGenerating && t.error.None? && t.result == s.result
  {
    s.(isGenerating := true, error := None)
  }

  /** What the call resolves with or throws. */
  function Outcome(reply: GenerateReply): (r: Result<GenerationResponseDTO, Thrown>)
    ensures r.Success? <==> reply.Responded? && Ok(reply.status) && reply.body.Success?
    ensures r.Success? ==> r.value == reply.body.value
    ensures reply.Responded? && !Ok(reply.status) ==> r == Failure(ErrorThrown(StatusMessage(reply.status)))
    ensures reply.Responded? && Ok(reply.status) && reply.body.Failure? ==> r == Failure(ErrorThrown(reply.body.error))
    ensures reply.Rejected? ==> r == Failure(reply.error)
  {
    match reply
    case Rejected(t) => Failure(t)
    case Responded(status, body) =>
      if !Ok(status) then Failure(ErrorThrown(StatusMessage(status)))
      else match body
        case Success(dto) => Success(dto)
        case Failure(m) => Failure(ErrorThrown(m))
  }

  /** The state once the call settles: the result on success, the message and no result on failure. */
  function Settled(outcome: Result<GenerationResponseDTO, Thrown>): (t: GenerationState)
    ensures !t.isGenerating
    ensures t.result.Some? <==> outcome.Success?
    ensures t.error.Some? <==> outcome.Failure?
    ensures outcome.Success? ==> t.result == Some(outcome.value)
    ensures outcome.Failure? ==> t.error == Some(MessageOr(outcome.error, Unexpected))
  {
    match outcome
    case Success(dto) => GenerationState(false, None, Some(dto))
    case Failure(t) => GenerationState(false, Some(MessageOr(t, Unexpected)), None)
  }

  /** A non-ok status always shows one of the five status messages. */
  lemma RefusedShowsStatusMessage(status: int, body: Result<GenerationResponseDTO, string>)
    requires !Ok(status)
    ensures Settled(Outcome(Responded(status, body))).error == Some(StatusMessage(status))
    ensures Settled(Outcome(Responded(status, body))).error.value in {InvalidInput, SessionExpired, LimitExceeded, Unavailable, DefaultStatusError}
  {
  }

  class Generation {
    var isGenerating: bool
    var error: Option<string>
    var result: Option<GenerationResponseDTO>

    function State(): GenerationState
      reads this
    {
      GenerationState(isGenerating, error, result)
    }

    constructor()
      ensures State() == Idle
    {
      isGenerating, error, result := false, None, None;
    }

    /** generateFlashcards. `started` is the state while the request is in flight; `r` is what the
        call resolves with or rethrows. */
    method GenerateFlashcards(reply: GenerateReply) returns (started: GenerationState, r: Result<GenerationResponseDTO, Thrown>)
      modifies this
      ensures started == Started(old(State()))
      ensures r == Outcome(reply)
      ensures State() == Settled(r)
    {
      isGenerating, error := true, None;
      started := State();
      r := Outcome(reply);
      match r
      case Success(dto) =>
        isGenerating, error, result := false, None, Some(dto);
      case Failure(t) =>
        isGenerating, error, result := false, Some(MessageOr(t, Unexpected)), None;
    }

    method ResetGeneration()
      modifies this
      ensures State() == Idle
    {
      isGenerating, error, result := false, None, None;
    }
  }

  /** After any call, exactly one of the error and the result is present: a failure drops the
      previous result and a success clears the error. */
  lemma SettledExclusive(reply: GenerateReply)
    ensures var t := Settled(Outcome(reply)); !t.isGenerating && (t.error.Some? <==> t.result.None?)
  {
  }
}
