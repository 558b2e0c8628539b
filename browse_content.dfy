/** BrowseContent (src/components/browse/BrowseContent.tsx): the filter and sort cells, and the
    PUT and DELETE handlers the grid calls. */
module BrowseContent {
  import opened Wrappers
  import opened Json
  import opened Types
  import opened Http
  import opened CreatedOrder
  import opened FlashcardGrid

  const UpdateFailed := "Failed to update flashcard"
  const DeleteFailed := "Failed to delete flashcard"

  /** handleSortChange's toggle. */
  function Toggled(d: SortDirection): (r: SortDirection)
    ensures r != d
  {
    if d == Newest then Oldest else Newest
  }

  lemma ToggleTwice(d: SortDirection)
    ensures Toggled(Toggled(d)) == d
  {
  }

  /** Reversing the direction reverses the order of any two cards with distinct timestamps. */
  lemma ToggleReversesOrder(a: FlashcardDTO, b: FlashcardDTO, d: SortDirection)
    requires a.createdAt != b.createdAt
    ensures InOrder(a, b, d) <==> !InOrder(a, b, Toggled(d))
  {
  }

  /** A request: verb, URL and JSON body. */
  datatype Request = Request(verb: string, url: string, body: Option<Json>)

  function EditRequest(id: string, data: UpdateCommand): (q: Request)
    ensures q.verb == "PUT" && q.url == "/api/flashcards/" + id && q.body == Some(UpdateToJson(data))
  {
    Request("PUT", "/api/flashcards/" + id, Some(UpdateToJson(data)))
  }

  function DeleteRequest(id: string): (q: Request)
    ensures q.verb == "DELETE" && q.url == "/api/flashcards/" + id && q.body.None?
  {
    Request("DELETE", "/api/flashcards/" + id, None)
  }

  /** handleEdit's outcome: resolve on ok, otherwise throw the server's message or the default. */
  function EditOutcome(reply: Reply): (r: Result<(), Thrown>)
    ensures r.Success? <==> reply.Replied? && Ok(reply.status)
    ensures reply.Replied? && !Ok(reply.status) && reply.body.Success? ==>
              r == Failure(ErrorThrown(ServerErrorMessage(reply.body.value, UpdateFailed)))
  {
    ChangeOutcome(reply, UpdateFailed)
  }

  function DeleteOutcome(reply: Reply): (r: Result<(), Thrown>)
    ensures r.Success? <==> reply.Replied? && Ok(reply.status)
    ensures reply.Replied? && !Ok(reply.status) && reply.body.Success? ==>
              r == Failure(ErrorThrown(ServerErrorMessage(reply.body.value, DeleteFailed)))
  {
    ChangeOutcome(reply, DeleteFailed)
  }

  /** An error body without a message falls back to the default text. */
  lemma SilentErrorBody(status: int)
    requires !Ok(status)
    ensures EditOutcome(Replied(status, Success(JObject([])))) == Failure(ErrorThrown(UpdateFailed))
    ensures DeleteOutcome(Replied(status, Success(JObject([])))) == Failure(ErrorThrown(DeleteFailed))
  {
  }

  class Browse {
    var activeFilter: Filter
    var sortDirection: SortDirection

    constructor()
      ensures activeFilter == All && sortDirection == Newest
    {
      activeFilter, sortDirection := All, Newest;
    }

    method HandleFilterChange(f: Filter)
      modifies this
      ensures activeFilter == f && sortDirection == old(sortDirection)
    {
      activeFilter := f;
    }

    method HandleSortChange()
      modifies this
      ensures sortDirection == Toggled(old(sortDirection)) && activeFilter == old(activeFilter)
    {
      sortDirection := Toggled(sortDirection);
    }
  }
}
