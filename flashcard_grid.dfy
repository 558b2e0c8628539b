/** FlashcardGrid (src/components/browse/FlashcardGrid.tsx): the fetched list, the filter-then-sort
    view of it, the screen it renders and the refetch after an edit or a delete. */
module FlashcardGrid {
  import opened Wrappers
  import opened Types
  import opened Http
  import opened CreatedOrder

  const DefaultError := "Failed to fetch flashcards"
  const UnknownError := "An error occurred"
  const NoCards := "No flashcards found. Create your first flashcard to get started!"
  const NoMatch := "No flashcards match the selected filter."

  /** FilterType: every card, or the cards of one creation method. */
  datatype Filter = All | Only(m: CreationMethod)

  predicate Matches(f: Filter, c: FlashcardDTO) {
    f.All? || c.creationMethod == f.m
  }

  /** `filter`: the matching cards in their fetched order. */
  function FilterCards(cs: seq<FlashcardDTO>, f: Filter): (r: seq<FlashcardDTO>)
    ensures f.All? ==> r == cs
    ensures forall c :: c in r <==> c in cs && Matches(f, c)
    ensures multiset(r) <= multiset(cs)
  {
    if cs == [] then []
    else
      var rest := FilterCards(cs[1..], f);
      assert cs == [cs[0]] + cs[1..];
      if Matches(f, cs[0]) then [cs[0]] + rest else rest
  }

  /** filteredAndSortedFlashcards: the matching cards ordered by created_at. */
  function Visible(cs: seq<FlashcardDTO>, f: Filter, d: SortDirection): (r: seq<FlashcardDTO>)
    ensures Sorted(r, d)
    ensures multiset(r) == multiset(FilterCards(cs, f))
  {
    SortByCreated(FilterCards(cs, f), d)
  }

  /** A card is shown exactly when it was fetched and matches the filter. */
  lemma VisibleMembers(cs: seq<FlashcardDTO>, f: Filter, d: SortDirection, c: FlashcardDTO)
    ensures c in Visible(cs, f, d) <==> c in cs && Matches(f, c)
  {
    assert c in Visible(cs, f, d) <==> c in multiset(Visible(cs, f, d));
    assert c in FilterCards(cs, f) <==> c in multiset(FilterCards(cs, f));
  }

  /** Filtering by every method shows every card. */
  lemma AllShowsEverything(cs: seq<FlashcardDTO>, d: SortDirection)
    ensures multiset(Visible(cs, All, d)) == multiset(cs)
  {
  }

  datatype GridState = GridState(flashcards: seq<FlashcardDTO>, loading: bool, error: Option<string>)

  const Initial := GridState([], true, None)

  /** One fetchFlashcards. As in the statistics panel, a success leaves an earlier error in place. */
  function Fetched(s: GridState, reply: Fetch<seq<FlashcardDTO>>): (t: GridState)
    ensures !t.loading
    ensures reply.Received? ==> t.flashcards == reply.data && t.error == s.error
    ensures !reply.Received? ==> t.flashcards == s.flashcards && t.error == FetchError(reply, DefaultError, UnknownError)
  {
    match FetchError(reply, DefaultError, UnknownError)
    case None => GridState(reply.data, false, s.error)
    case Some(m) => GridState(s.flashcards, false, Some(m))
  }

  /** The skeleton, the error with its retry button, the empty-state text, or the cards. */
  datatype GridScreen = Skeleton | ErrorScreen(message: string) | EmptyScreen(text: string) | CardList(cards: seq<FlashcardDTO>)

  function Render(s: GridState, f: Filter, d: SortDirection): (r: GridScreen)
    ensures r.Skeleton? <==> s.loading
    ensures r.ErrorScreen? <==> !s.loading && s.error.Some? && s.error.value != ""
    ensures r.EmptyScreen? ==> Visible(s.flashcards, f, d) == [] && (r.text == NoCards <==> s.flashcards == [])
    ensures r.EmptyScreen? ==> r.text == NoCards || r.text == NoMatch
    ensures r.CardList? ==> r.cards == Visible(s.flashcards, f, d) && r.cards != []
  {
    if s.loading then Skeleton
    else if s.error.Some? && s.error.value != "" then ErrorScreen(s.error.value)
    else if Visible(s.flashcards, f, d) == [] then EmptyScreen(if s.flashcards == [] then NoCards else NoMatch)
    else CardList(Visible(s.flashcards, f, d))
  }

  /** With every card shown, the "no match" text never appears. */
  lemma AllNeverNoMatch(s: GridState, d: SortDirection)
    ensures Render(s, All, d) != EmptyScreen(NoMatch)
  {
    if Visible(s.flashcards, All, d) == [] {
      assert multiset(s.flashcards) == multiset{};
    }
  }

  /** The change a card asks the parent for: an edit with its new content, or a delete. */
  datatype Change = EditCard(id: string, command: UpdateCommand) | DeleteCard(id: string)

  /** What handleEdit and handleDelete do, in order. */
  datatype Effect = CallParent(change: Change) | Refetch | NotifySuccess

  class Grid {
    var flashcards: seq<FlashcardDTO>
    var loading: bool
    var error: Option<string>

    function State(): GridState
      reads this
    {
      GridState(flashcards, loading, error)
    }

    constructor()
      ensures State() == Initial
    {
      flashcards, loading, error := [], true, None;
    }

    method FetchFlashcards(reply: Fetch<seq<FlashcardDTO>>)
      modifies this
      ensures State() == Fetched(old(State()), reply)
    {
      loading := true;
      var failure := FetchError(reply, DefaultError, UnknownError);
      if failure.Some? {
        error := failure;
      } else {
        flashcards := reply.data;
      }
      loading := false;
    }

    /** handleEdit and handleDelete: the parent's handler, then a refetch, then onSuccess when it
        is given. A rejection of the parent's handler propagates and nothing else happens; the
        refetch itself never throws. */
    method HandleChange(change: Change, parent: Result<(), Thrown>, refetch: Fetch<seq<FlashcardDTO>>, hasOnSuccess: bool)
      returns (effects: seq<Effect>, r: Result<(), Thrown>)
      modifies this
      ensures r == parent
      ensures parent.Failure? ==> effects == [CallParent(change)] && State() == old(State())
      ensures parent.Success? ==>
                effects == [CallParent(change), Refetch] + (if hasOnSuccess then [NotifySuccess] else []) &&
                State() == Fetched(old(State()), refetch)
    {
      effects := [CallParent(change)];
      if parent.Failure? {
        return effects, parent;
      }
      FetchFlashcards(refetch);
      effects := effects + [Refetch];
      if hasOnSuccess {
        effects := effects + [NotifySuccess];
      }
      r := parent;
    }
  }
}
