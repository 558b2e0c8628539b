/** useLearnSession (src/hooks/useLearnSession.ts): one state cell that each action replaces.
    Math.random() is a parameter in [0, 1). */
module LearnSession {
  import opened Wrappers
  import opened Types
  import opened Http

  const FetchFailedMessage := "Failed to fetch flashcards"
  const UnknownError := "An unknown error occurred"

  datatype LearnState = LearnState(
    flashcards: seq<FlashcardDTO>,
    currentFlashcard: Option<FlashcardDTO>,
    isFlipped: bool,
    availableFlashcards: seq<FlashcardDTO>,
    sessionEnded: bool,
    isLoading: bool,
    error: Option<string>)

  const Initial := LearnState([], None, false, [], false, true, None)

  /** What the session's GET /api/flashcards gives: the list, a non-ok status, or a rejection
      (of fetch, or of reading the body). */
  datatype LoadReply = CardsReceived(cards: seq<FlashcardDTO>) | NotOk | LoadRejected(error: Thrown)

  /** The first update of fetchFlashcards. */
  function LoadStarted(s: LearnState): (t: LearnState)
    ensures t == s.(isLoading := true, error := None)
  {
    s.(isLoading := true, error := None)
  }

  /** The second update of fetchFlashcards. */
  function LoadFinished(s: LearnState, reply: LoadReply): (t: LearnState)
    ensures !t.isLoading
    ensures t.currentFlashcard == s.currentFlashcard && t.isFlipped == s.isFlipped
    ensures reply.CardsReceived? ==>
              t.flashcards == reply.cards && t.availableFlashcards == reply.cards &&
              (t.sessionEnded <==> reply.cards == []) && t.error == s.error
    ensures reply.NotOk? ==> t == s.(isLoading := false, error := Some(FetchFailedMessage))
    ensures reply.LoadRejected? ==> t == s.(isLoading := false, error := Some(MessageOr(reply.error, UnknownError)))
  {
    match reply
    case CardsReceived(cards) =>
      s.(flashcards := cards, availableFlashcards := cards, isLoading := false, sessionEnded := |cards| == 0)
    case NotOk => s.(isLoading := false, error := Some(FetchFailedMessage))
    case LoadRejected(t) => s.(isLoading := false, error := Some(MessageOr(t, UnknownError)))
  }

  /** Math.floor(random * n). */
  function RandomIndex(random: real, n: nat): (i: nat)
    requires 0.0 <= random < 1.0 && n > 0
    ensures i < n
  {
    var x := random * n as real;
    assert x < n as real;
    x.Floor
  }

  /** The list without position i, the rest in order. */
  function RemoveAt<T>(s: seq<T>, i: nat): (r: seq<T>)
    requires i < |s|
    ensures |r| == |s| - 1
    ensures forall k :: 0 <= k < i ==> r[k] == s[k]
    ensures forall k :: i <= k < |r| ==> r[k] == s[k + 1]
    ensures multiset(r) + multiset{s[i]} == multiset(s)
  {
    assert s == s[..i] + [s[i]] + s[i + 1..];
    s[..i] + s[i + 1..]
  }

  function Draw(s: LearnState, random: real): (t: LearnState)
    requires 0.0 <= random < 1.0
    ensures s.availableFlashcards == [] ==> t == s.(sessionEnded := true)
    ensures s.availableFlashcards != [] ==>
              t.currentFlashcard.Some? && !t.isFlipped &&
              multiset(t.availableFlashcards) + multiset{t.currentFlashcard.value} == multiset(s.availableFlashcards) &&
              |t.availableFlashcards| == |s.availableFlashcards| - 1 &&
              (t.sessionEnded <==> t.availableFlashcards == []) &&
              t.flashcards == s.flashcards && t.isLoading == s.isLoading && t.error == s.error
  {
    if |s.availableFlashcards| == 0 then s.(sessionEnded := true)
    else
      var i := RandomIndex(random, |s.availableFlashcards|);
      var rest := RemoveAt(s.availableFlashcards, i);
      s.(currentFlashcard := Some(s.availableFlashcards[i]), availableFlashcards := rest,
         isFlipped := false, sessionEnded := |rest| == 0)
  }

  function Flip(s: LearnState): (t: LearnState)
    ensures t.isFlipped != s.isFlipped && t.(isFlipped := s.isFlipped) == s
  {
    s.(isFlipped := !s.isFlipped)
  }

  function Reset(s: LearnState): (t: LearnState)
    ensures t.flashcards == s.flashcards && t.availableFlashcards == s.flashcards
    ensures t.currentFlashcard.None? && !t.isFlipped && !t.sessionEnded
    ensures t.isLoading == s.isLoading && t.error == s.error
  {
    s.(availableFlashcards := s.flashcards, currentFlashcard := None, isFlipped := false, sessionEnded := false)
  }

  /** The cards still to draw are some of the loaded cards. */
  predicate Consistent(s: LearnState) {
    multiset(s.availableFlashcards) <= multiset(s.flashcards)
  }

  lemma InitialConsistent()
    ensures Consistent(Initial)
  {
  }

  /** Every action keeps the cards still to draw among the loaded ones. */
  lemma ActionsKeepConsistent(s: LearnState, reply: LoadReply, random: real)
    requires Consistent(s) && 0.0 <= random < 1.0
    ensures Consistent(LoadStarted(s)) && Consistent(LoadFinished(s, reply))
    ensures Consistent(Draw(s, random)) && Consistent(Flip(s)) && Consistent(Reset(s))
  {
    if s.availableFlashcards != [] {
      var i := RandomIndex(random, |s.availableFlashcards|);
      assert multiset(RemoveAt(s.availableFlashcards, i)) <= multiset(s.availableFlashcards);
    }
  }

  /** A draw removes one position of the pile, keeping the others in order, and shows that card. */
  lemma DrawRemovesPosition(s: LearnState, random: real)
    requires 0.0 <= random < 1.0 && s.availableFlashcards != []
    ensures exists i :: 0 <= i < |s.availableFlashcards| &&
              Draw(s, random).currentFlashcard == Some(s.availableFlashcards[i]) &&
              Draw(s, random).availableFlashcards == RemoveAt(s.availableFlashcards, i)
  {
    var i := RandomIndex(random, |s.availableFlashcards|);
    assert Draw(s, random).availableFlashcards == RemoveAt(s.availableFlashcards, i);
  }

  /** Two flips restore the state. */
  lemma FlipTwice(s: LearnState)
    ensures Flip(Flip(s)) == s
  {
  }

  /** After a reset, drawing every card once is possible again: the pile is the full list. */
  lemma ResetRestoresPile(s: LearnState)
    ensures multiset(Reset(s).availableFlashcards) == multiset(s.flashcards)
  {
  }

  /** Numbers Math.random() can return. */
  predicate Randoms(rs: seq<real>) {
    forall k :: 0 <= k < |rs| ==> 0.0 <= rs[k] < 1.0
  }

  /** Draws one after another, one random number each. */
  function DrawAll(s: LearnState, rs: seq<real>): LearnState
    requires Randoms(rs)
    decreases |rs|
  {
    if rs == [] then s else DrawAll(Draw(s, rs[0]), rs[1..])
  }

  lemma DrawAllStep(s: LearnState, rs: seq<real>)
    requires Randoms(rs) && rs != []
    ensures Randoms(rs[1..]) && DrawAll(s, rs) == DrawAll(Draw(s, rs[0]), rs[1..])
  {
    assert Randoms(rs[1..]);
  }

  /** n draws empty a pile of n cards and end the session. */
  lemma {:induction false} DrawsEndSession(s: LearnState, rs: seq<real>)
    requires Randoms(rs) && |rs| == |s.availableFlashcards| > 0
    ensures DrawAll(s, rs).availableFlashcards == [] && DrawAll(s, rs).sessionEnded
    decreases |rs|
  {
    var t := Draw(s, rs[0]);
    DrawAllStep(s, rs);
    if |rs| > 1 {
      DrawsEndSession(t, rs[1..]);
    } else {
      assert DrawAll(t, rs[1..]) == t;
    }
  }

  class Session {
    var state: LearnState

    constructor()
      ensures state == Initial
    {
      state := Initial;
    }

    /** fetchFlashcards: the loading update, then the outcome. */
    method FetchFlashcards(reply: LoadReply)
      modifies this
      ensures state == LoadFinished(LoadStarted(old(state)), reply)
    {
      state := LoadStarted(state);
      state := LoadFinished(state, reply);
    }

    method DrawFlashcard(random: real)
      requires 0.0 <= random < 1.0
      modifies this
      ensures state == Draw(old(state), random)
    {
      state := Draw(state, random);
    }

    method FlipCard()
      modifies this
      ensures state == Flip(old(state))
    {
      state := Flip(state);
    }

    method ResetSession()
      modifies this
      ensures state == Reset(old(state))
    {
      state := Reset(state);
    }
  }
}
