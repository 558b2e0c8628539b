/** The two tables the services read and write, kept in memory: flashcards and generations.
    Each row carries its owner; the query builder's filters become predicates on rows. */
module Database {
  import opened Wrappers
  import opened Types

  datatype FlashcardRow = FlashcardRow(
    id: string,
    userId: string,
    frontContent: string,
    backContent: string,
    creationMethod: CreationMethod,
    generationId: Option<string>,
    createdAt: int,
    updatedAt: int)

  /** The columns the API selects. */
  function ToDTO(r: FlashcardRow): FlashcardDTO {
    FlashcardDTO(r.id, r.frontContent, r.backContent, r.creationMethod, r.createdAt, r.updatedAt)
  }

  /** A generation record; the counters and the total are nullable columns. */
  datatype GenerationRow = GenerationRow(
    id: string,
    userId: string,
    totalGenerated: Option<nat>,
    generationTimeMs: int,
    aiModel: string,
    error: Option<string>,
    acceptedFull: Option<nat>,
    acceptedEdited: Option<nat>)

  /** `x ?? 0` on a nullable count; JavaScript also reads null as 0 in a comparison. */
  function OrZero(x: Option<nat>): nat {
    if x.Some? then x.value else 0
  }

  function Accepted(g: GenerationRow): nat {
    OrZero(g.acceptedFull) + OrZero(g.acceptedEdited)
  }

  /** The acceptance ceiling of one generation. */
  predicate WithinCeiling(g: GenerationRow) {
    Accepted(g) <= OrZero(g.totalGenerated)
  }

  predicate IsAi(r: FlashcardRow) {
    r.creationMethod != Manual
  }

  /** The number of AI flashcards owned by u. */
  function AiCount(fs: seq<FlashcardRow>, u: string): nat {
    if fs == [] then 0 else (if fs[0].userId == u && IsAi(fs[0]) then 1 else 0) + AiCount(fs[1..], u)
  }

  /** The sum of the acceptance counters of u's generations. */
  function SumAccepted(gs: seq<GenerationRow>, u: string): nat {
    if gs == [] then 0 else (if gs[0].userId == u then Accepted(gs[0]) else 0) + SumAccepted(gs[1..], u)
  }

  /** The sum of total_generated over u's generations, null counting 0. */
  function SumTotal(gs: seq<GenerationRow>, u: string): nat {
    if gs == [] then 0 else (if gs[0].userId == u then OrZero(gs[0].totalGenerated) else 0) + SumTotal(gs[1..], u)
  }

  lemma {:induction false} AiCountAppend(fs: seq<FlashcardRow>, r: FlashcardRow, u: string)
    ensures AiCount(fs + [r], u) == AiCount(fs, u) + (if r.userId == u && IsAi(r) then 1 else 0)
  {
    if fs != [] {
      assert (fs + [r])[1..] == fs[1..] + [r];
      AiCountAppend(fs[1..], r, u);
    }
  }

  lemma {:induction false} SumAcceptedAppend(gs: seq<GenerationRow>, g: GenerationRow, u: string)
    ensures SumAccepted(gs + [g], u) == SumAccepted(gs, u) + (if g.userId == u then Accepted(g) else 0)
  {
    if gs != [] {
      assert (gs + [g])[1..] == gs[1..] + [g];
      SumAcceptedAppend(gs[1..], g, u);
    }
  }

  lemma {:induction false} SumTotalAppend(gs: seq<GenerationRow>, g: GenerationRow, u: string)
    ensures SumTotal(gs + [g], u) == SumTotal(gs, u) + (if g.userId == u then OrZero(g.totalGenerated) else 0)
  {
    if gs != [] {
      assert (gs + [g])[1..] == gs[1..] + [g];
      SumTotalAppend(gs[1..], g, u);
    }
  }

  /** Replacing row i by a row of the same owner changes u's counter sum by the difference. */
  lemma {:induction false} SumAcceptedUpdate(gs: seq<GenerationRow>, i: nat, g: GenerationRow, u: string)
    requires i < |gs| && g.userId == gs[i].userId
    ensures SumAccepted(gs[i := g], u) + (if g.userId == u then Accepted(gs[i]) else 0) ==
            SumAccepted(gs, u) + (if g.userId == u then Accepted(g) else 0)
  {
    if i > 0 {
      assert gs[i := g][1..] == gs[1..][i - 1 := g];
      SumAcceptedUpdate(gs[1..], i - 1, g, u);
    } else {
      assert gs[i := g][1..] == gs[1..];
    }
  }

  lemma {:induction false} SumTotalUpdate(gs: seq<GenerationRow>, i: nat, g: GenerationRow, u: string)
    requires i < |gs| && g.userId == gs[i].userId && g.totalGenerated == gs[i].totalGenerated
    ensures SumTotal(gs[i := g], u) == SumTotal(gs, u)
  {
    if i > 0 {
      assert gs[i := g][1..] == gs[1..][i - 1 := g];
      SumTotalUpdate(gs[1..], i - 1, g, u);
    } else {
      assert gs[i := g][1..] == gs[1..];
    }
  }

  /** Where every generation is within its ceiling, so is the sum over a user's generations. */
  lemma {:induction false} CeilingSums(gs: seq<GenerationRow>, u: string)
    requires forall i :: 0 <= i < |gs| ==> WithinCeiling(gs[i])
    ensures SumAccepted(gs, u) <= SumTotal(gs, u)
  {
    if gs != [] {
      assert WithinCeiling(gs[0]);
      CeilingSums(gs[1..], u);
    }
  }

  /** The first position whose element satisfies p, if any: the row a filtered `.single()` read
      sees once keys are unique. */
  function Find<T>(xs: seq<T>, p: T -> bool): (r: Option<nat>)
    ensures r.None? <==> forall i :: 0 <= i < |xs| ==> !p(xs[i])
    ensures r.Some? ==> r.value < |xs| && p(xs[r.value]) && forall i :: 0 <= i < r.value ==> !p(xs[i])
  {
    if xs == [] then None
    else if p(xs[0]) then Some(0)
    else
      var r := Find(xs[1..], p);
      assert forall i :: 1 <= i < |xs| ==> xs[i] == xs[1..][i - 1];
      if r.Some? then Some(r.value + 1) else None
  }

  /** The position of the generation with this id owned by user, if any. */
  function FindGeneration(gs: seq<GenerationRow>, id: string, user: string): (r: Option<nat>)
    ensures r.None? <==> forall i :: 0 <= i < |gs| ==> !(gs[i].id == id && gs[i].userId == user)
    ensures r.Some? ==> r.value < |gs| && gs[r.value].id == id && gs[r.value].userId == user
  {
    Find(gs, (g: GenerationRow) => g.id == id && g.userId == user)
  }

  /** The position of the flashcard with this id owned by user, if any. */
  function FindFlashcard(fs: seq<FlashcardRow>, id: string, user: string): (r: Option<nat>)
    ensures r.None? <==> forall i :: 0 <= i < |fs| ==> !(fs[i].id == id && fs[i].userId == user)
    ensures r.Some? ==> r.value < |fs| && fs[r.value].id == id && fs[r.value].userId == user
  {
    Find(fs, (f: FlashcardRow) => f.id == id && f.userId == user)
  }

  /** `delete().eq("id", id).eq("user_id", user)`: drops exactly the matching rows. */
  function Without(fs: seq<FlashcardRow>, id: string, user: string): (r: seq<FlashcardRow>)
    ensures forall x :: x in r <==> x in fs && !(x.id == id && x.userId == user)
    ensures |r| <= |fs|
  {
    if fs == [] then []
    else if fs[0].id == id && fs[0].userId == user then Without(fs[1..], id, user)
    else [fs[0]] + Without(fs[1..], id, user)
  }

  lemma {:induction false} AiCountWithout(fs: seq<FlashcardRow>, id: string, user: string, u: string)
    ensures AiCount(Without(fs, id, user), u) <= AiCount(fs, u)
  {
    if fs != [] {
      AiCountWithout(fs[1..], id, user, u);
      if !(fs[0].id == id && fs[0].userId == user) {
        assert ([fs[0]] + Without(fs[1..], id, user))[1..] == Without(fs[1..], id, user);
      }
    }
  }

  /** Replacing a row by one of the same owner and method keeps every user's AI count. */
  lemma {:induction false} AiCountUpdate(fs: seq<FlashcardRow>, i: nat, r: FlashcardRow, u: string)
    requires i < |fs| && r.userId == fs[i].userId && r.creationMethod == fs[i].creationMethod
    ensures AiCount(fs[i := r], u) == AiCount(fs, u)
  {
    if i > 0 {
      assert fs[i := r][1..] == fs[1..][i - 1 := r];
      AiCountUpdate(fs[1..], i - 1, r, u);
    } else {
      assert fs[i := r][1..] == fs[1..];
    }
  }

  predicate UniqueFlashcardIds(fs: seq<FlashcardRow>) {
    forall i, j :: 0 <= i < j < |fs| ==> fs[i].id != fs[j].id
  }

  predicate UniqueGenerationIds(gs: seq<GenerationRow>) {
    forall i, j :: 0 <= i < j < |gs| ==> gs[i].id != gs[j].id
  }

  /** Primary keys are unique and every generation respects its ceiling. */
  predicate ValidTables(fs: seq<FlashcardRow>, gs: seq<GenerationRow>) {
    UniqueFlashcardIds(fs) && UniqueGenerationIds(gs) && forall i :: 0 <= i < |gs| ==> WithinCeiling(gs[i])
  }

  /** The tables, as the services see them. */
  class Tables {
    var flashcards: seq<FlashcardRow>
    var generations: seq<GenerationRow>

    predicate Valid()
      reads this
    {
      ValidTables(flashcards, generations)
    }

    /** The counters of u's generations account for at least the AI cards u holds. */
    predicate Accounted(u: string)
      reads this
    {
      AiCount(flashcards, u) <= SumAccepted(generations, u)
    }

    constructor Empty()
      ensures Valid() && flashcards == [] && generations == []
    {
      flashcards := [];
      generations := [];
    }

    predicate FreshFlashcardId(id: string)
      reads this
    {
      forall i :: 0 <= i < |flashcards| ==> flashcards[i].id != id
    }

    predicate FreshGenerationId(id: string)
      reads this
    {
      forall i :: 0 <= i < |generations| ==> generations[i].id != id
    }
  }
}
