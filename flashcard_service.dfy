/** FlashcardService (src/lib/services/flashcard.service.ts) over the in-memory tables. Database
    errors other than "no row" are parameters: the message the database would report. */
module FlashcardService {
  import opened Wrappers
  import opened Types
  import opened CreatedOrder
  import opened Database

  const NotFound := "Flashcard not found"
  const InvalidGeneration := "Invalid or unauthorized generation ID"
  const CeilingExceeded := "Cannot accept more flashcards than generated"

  /** The caller's rows as DTOs, in table order. */
  function OwnedDTOs(fs: seq<FlashcardRow>, u: string): (r: seq<FlashcardDTO>)
    ensures forall d :: d in r <==> exists i :: 0 <= i < |fs| && fs[i].userId == u && ToDTO(fs[i]) == d
  {
    if fs == [] then []
    else
      var rest := OwnedDTOs(fs[1..], u);
      assert forall i :: 0 < i < |fs| ==> fs[i] == fs[1..][i - 1];
      if fs[0].userId == u then [ToDTO(fs[0])] + rest else rest
  }

  /** Both tables at one moment. */
  datatype Stored = Stored(flashcards: seq<FlashcardRow>, generations: seq<GenerationRow>)

  /** What the database may report during createFlashcard: the generation lookup fails for a
      reason other than a missing row, the insert fails, or the counter update fails. */
  datatype CreateFaults = CreateFaults(lookupFails: bool, insertError: Option<string>, counterError: Option<string>)

  /** The inserted row: the command's content and method, the caller as owner, no generation. */
  function NewRow(cmd: CreateCommand, userId: string, newId: string, now: int): FlashcardRow {
    FlashcardRow(newId, userId, cmd.frontContent, cmd.backContent, cmd.Method(), None, now, now)
  }

  /** `update({accepted_full: v}).eq("id", id)`. */
  function SetAcceptedFull(gs: seq<GenerationRow>, id: string, v: nat): (r: seq<GenerationRow>)
    ensures |r| == |gs|
    ensures forall i :: 0 <= i < |gs| ==> r[i] == if gs[i].id == id then gs[i].(acceptedFull := Some(v)) else gs[i]
  {
    seq(|gs|, i requires 0 <= i < |gs| => if gs[i].id == id then gs[i].(acceptedFull := Some(v)) else gs[i])
  }

  /** `update({accepted_edited: v}).eq("id", id)`. */
  function SetAcceptedEdited(gs: seq<GenerationRow>, id: string, v: nat): (r: seq<GenerationRow>)
    ensures |r| == |gs|
    ensures forall i :: 0 <= i < |gs| ==> r[i] == if gs[i].id == id then gs[i].(acceptedEdited := Some(v)) else gs[i]
  {
    seq(|gs|, i requires 0 <= i < |gs| => if gs[i].id == id then gs[i].(acceptedEdited := Some(v)) else gs[i])
  }

  /** createFlashcard as a function of the tables before the call: the result and the tables
      after it. */
  function CreateSpec(s: Stored, cmd: CreateCommand, userId: string, newId: string, now: int, f: CreateFaults)
    : (Result<FlashcardDTO, string>, Stored)
  {
    var row := NewRow(cmd, userId, newId, now);
    if cmd.ManualCommand? then
      if f.insertError.Some? then (Failure("Failed to create flashcard: " + f.insertError.value), s)
      else (Success(ToDTO(row)), Stored(s.flashcards + [row], s.generations))
    else
      var gi := FindGeneration(s.generations, cmd.generationId, userId);
      if f.lookupFails || gi.None? then (Failure(InvalidGeneration), s)
      else
        var g := s.generations[gi.value];
        if OrZero(g.acceptedFull) + OrZero(g.acceptedEdited) + 1 > OrZero(g.totalGenerated) then
          (Failure(CeilingExceeded), s)
        else if f.insertError.Some? then (Failure("Failed to create flashcard: " + f.insertError.value), s)
        else
          var fs := s.flashcards + [row];
          if cmd.aiMethod == AiFull then
            if f.counterError.Some? then
              (Failure("Failed to update generation accepted_full: " + f.counterError.value), Stored(fs, s.generations))
            else
              (Success(ToDTO(row)), Stored(fs, SetAcceptedFull(s.generations, cmd.generationId, OrZero(g.acceptedFull) + 1)))
          else
            if f.counterError.Some? then
              (Failure("Failed to update generation accepted_edited: " + f.counterError.value), Stored(fs, s.generations))
            else
              (Success(ToDTO(row)), Stored(fs, SetAcceptedEdited(s.generations, cmd.generationId, OrZero(g.acceptedEdited) + 1)))
  }

  /** With unique ids, the counter update by id touches exactly the row found for the caller. */
  lemma SetAcceptedFullAt(gs: seq<GenerationRow>, i: nat, v: nat)
    requires UniqueGenerationIds(gs) && i < |gs|
    ensures SetAcceptedFull(gs, gs[i].id, v) == gs[i := gs[i].(acceptedFull := Some(v))]
  {
  }

  lemma SetAcceptedEditedAt(gs: seq<GenerationRow>, i: nat, v: nat)
    requires UniqueGenerationIds(gs) && i < |gs|
    ensures SetAcceptedEdited(gs, gs[i].id, v) == gs[i := gs[i].(acceptedEdited := Some(v))]
  {
  }

  /** An AI accept naming a generation the caller does not own fails before anything changes. */
  lemma ForeignGenerationRejected(s: Stored, cmd: CreateCommand, userId: string, newId: string, now: int, f: CreateFaults)
    requires cmd.AcceptAiCommand?
    requires forall i :: 0 <= i < |s.generations| ==>
      !(s.generations[i].id == cmd.generationId && s.generations[i].userId == userId)
    ensures CreateSpec(s, cmd, userId, newId, now, f) == (Failure(InvalidGeneration), s)
  {
  }

  /** An accept past the ceiling fails before any insert or counter change; null counters
      count as 0. */
  lemma CeilingRejected(s: Stored, cmd: CreateCommand, userId: string, newId: string, now: int, f: CreateFaults, i: nat)
    requires cmd.AcceptAiCommand? && !f.lookupFails && UniqueGenerationIds(s.generations)
    requires i < |s.generations| && s.generations[i].id == cmd.generationId && s.generations[i].userId == userId
    requires Accepted(s.generations[i]) + 1 > OrZero(s.generations[i].totalGenerated)
    ensures CreateSpec(s, cmd, userId, newId, now, f) == (Failure(CeilingExceeded), s)
  {
    var gi := FindGeneration(s.generations, cmd.generationId, userId);
    assert gi.Some? && gi.value == i;
  }

  /** The generation row after its counter for method m is raised by one (a null counter counts as 0). */
  function Bumped(g: GenerationRow, m: AiMethod): (h: GenerationRow)
    ensures Accepted(h) == Accepted(g) + 1
    ensures h.id == g.id && h.userId == g.userId && h.totalGenerated == g.totalGenerated
  {
    if m == AiFull then g.(acceptedFull := Some(OrZero(g.acceptedFull) + 1))
    else g.(acceptedEdited := Some(OrZero(g.acceptedEdited) + 1))
  }

  /** A successful ai_full accept raises accepted_full of that generation by one and changes no
      other counter; ai_edited is symmetric. */
  lemma {:induction false} AcceptBumpsOneCounter(s: Stored, cmd: CreateCommand, userId: string, newId: string, now: int,
                                                 f: CreateFaults, i: nat)
    requires cmd.AcceptAiCommand? && UniqueGenerationIds(s.generations)
    requires i < |s.generations| && s.generations[i].id == cmd.generationId && s.generations[i].userId == userId
    requires CreateSpec(s, cmd, userId, newId, now, f).0.Success?
    ensures CreateSpec(s, cmd, userId, newId, now, f).1.generations == s.generations[i := Bumped(s.generations[i], cmd.aiMethod)]
  {
    var gi := FindGeneration(s.generations, cmd.generationId, userId);
    assert gi.Some? && gi.value == i;
    var g := s.generations[i];
    if cmd.aiMethod == AiFull {
      SetAcceptedFullAt(s.generations, i, OrZero(g.acceptedFull) + 1);
    } else {
      SetAcceptedEditedAt(s.generations, i, OrZero(g.acceptedEdited) + 1);
    }
  }

  /** A manual create leaves the generations table alone; any inserted row belongs to the caller
      and records no generation. */
  lemma ManualCreateLeavesGenerations(s: Stored, cmd: CreateCommand, userId: string, newId: string, now: int, f: CreateFaults)
    ensures cmd.ManualCommand? ==> CreateSpec(s, cmd, userId, newId, now, f).1.generations == s.generations
    ensures var after := CreateSpec(s, cmd, userId, newId, now, f).1.flashcards;
      after == s.flashcards || after == s.flashcards + [NewRow(cmd, userId, newId, now)]
    ensures NewRow(cmd, userId, newId, now).userId == userId && NewRow(cmd, userId, newId, now).generationId.None?
  {
  }

  /** The tables after a create: a successful AI accept appends the row and bumps the found
      generation; any other outcome leaves the generations alone and appends the row or nothing. */
  lemma CreateOutcomes(s: Stored, cmd: CreateCommand, userId: string, newId: string, now: int, f: CreateFaults)
    requires UniqueGenerationIds(s.generations)
    ensures var (r, after) := CreateSpec(s, cmd, userId, newId, now, f);
      var row := NewRow(cmd, userId, newId, now);
      if cmd.AcceptAiCommand? && r.Success? then
        var gi := FindGeneration(s.generations, cmd.generationId, userId);
        gi.Some? && Accepted(s.generations[gi.value]) + 1 <= OrZero(s.generations[gi.value].totalGenerated) &&
        after == Stored(s.flashcards + [row], s.generations[gi.value := Bumped(s.generations[gi.value], cmd.aiMethod)])
      else
        after.generations == s.generations && (after.flashcards == s.flashcards || after.flashcards == s.flashcards + [row])
  {
    var r := CreateSpec(s, cmd, userId, newId, now, f).0;
    if cmd.AcceptAiCommand? && r.Success? {
      var i := FindGeneration(s.generations, cmd.generationId, userId).value;
      AcceptBumpsOneCounter(s, cmd, userId, newId, now, f, i);
    }
  }

  /** Creates keep the tables valid: unique keys and every generation within its ceiling. */
  lemma {:induction false} CreateKeepsValid(s: Stored, cmd: CreateCommand, userId: string, newId: string, now: int, f: CreateFaults)
    requires ValidTables(s.flashcards, s.generations)
    requires forall i :: 0 <= i < |s.flashcards| ==> s.flashcards[i].id != newId
    ensures var after := CreateSpec(s, cmd, userId, newId, now, f).1;
      ValidTables(after.flashcards, after.generations)
  {
    var after := CreateSpec(s, cmd, userId, newId, now, f).1;
    var row := NewRow(cmd, userId, newId, now);
    CreateOutcomes(s, cmd, userId, newId, now, f);
    assert UniqueFlashcardIds(s.flashcards + [row]);
    if cmd.AcceptAiCommand? && CreateSpec(s, cmd, userId, newId, now, f).0.Success? {
      var i := FindGeneration(s.generations, cmd.generationId, userId).value;
      BumpKeepsValid(s.generations, i, cmd.aiMethod);
    }
  }

  lemma BumpKeepsValid(gs: seq<GenerationRow>, i: nat, m: AiMethod)
    requires UniqueGenerationIds(gs) && (forall j :: 0 <= j < |gs| ==> WithinCeiling(gs[j]))
    requires i < |gs| && Accepted(gs[i]) + 1 <= OrZero(gs[i].totalGenerated)
    ensures var hs := gs[i := Bumped(gs[i], m)];
      UniqueGenerationIds(hs) && forall j :: 0 <= j < |hs| ==> WithinCeiling(hs[j])
  {
    var hs := gs[i := Bumped(gs[i], m)];
    assert forall j :: 0 <= j < |hs| ==> hs[j].id == gs[j].id;
  }

  /** When every step succeeds, a create adds to a user's AI cards exactly what it adds to the
      user's counters, so the counters keep accounting for the cards. */
  lemma {:induction false} CreateKeepsAccounted(s: Stored, cmd: CreateCommand, userId: string, newId: string, now: int,
                                                f: CreateFaults, u: string)
    requires UniqueGenerationIds(s.generations)
    requires f.counterError.None?
    ensures var after := CreateSpec(s, cmd, userId, newId, now, f).1;
      AiCount(after.flashcards, u) + SumAccepted(s.generations, u) ==
      AiCount(s.flashcards, u) + SumAccepted(after.generations, u)
  {
    var after := CreateSpec(s, cmd, userId, newId, now, f).1;
    var row := NewRow(cmd, userId, newId, now);
    CreateOutcomes(s, cmd, userId, newId, now, f);
    AiCountAppend(s.flashcards, row, u);
    if cmd.AcceptAiCommand? && CreateSpec(s, cmd, userId, newId, now, f).0.Success? {
      var i := FindGeneration(s.generations, cmd.generationId, userId).value;
      SumAcceptedUpdate(s.generations, i, Bumped(s.generations[i], cmd.aiMethod), u);
    }
  }

  /** The two invariants CreateFlashcard keeps, in terms of the tables before and after. */
  lemma CreateKeepsInvariants(s: Stored, cmd: CreateCommand, userId: string, newId: string, now: int, f: CreateFaults)
    requires ValidTables(s.flashcards, s.generations)
    requires forall i :: 0 <= i < |s.flashcards| ==> s.flashcards[i].id != newId
    ensures var after := CreateSpec(s, cmd, userId, newId, now, f).1;
      ValidTables(after.flashcards, after.generations) &&
      (f.counterError.None? ==> forall u :: AiCount(s.flashcards, u) <= SumAccepted(s.generations, u) ==>
                                         AiCount(after.flashcards, u) <= SumAccepted(after.generations, u))
  {
    CreateKeepsValid(s, cmd, userId, newId, now, f);
    forall u | f.counterError.None?
      ensures var after := CreateSpec(s, cmd, userId, newId, now, f).1;
        AiCount(after.flashcards, u) + SumAccepted(s.generations, u) == AiCount(s.flashcards, u) + SumAccepted(after.generations, u)
    {
      CreateKeepsAccounted(s, cmd, userId, newId, now, f, u);
    }
  }

  /** Any create that fails before its insert leaves both tables as they were. */
  lemma CreateFailsCleanly(s: Stored, cmd: CreateCommand, userId: string, newId: string, now: int, f: CreateFaults)
    requires CreateSpec(s, cmd, userId, newId, now, f).0.Failure?
    requires f.counterError.None?
    ensures CreateSpec(s, cmd, userId, newId, now, f).1 == s
  {
  }

  class Service {
    const db: Tables

    constructor(db: Tables)
      ensures this.db == db
    {
      this.db := db;
    }

    /** listFlashcards: the caller's cards, newest first. */
    function ListFlashcards(userId: string, fault: Option<string>): (r: Result<seq<FlashcardDTO>, string>)
      reads db
      ensures fault.Some? ==> r == Failure("Failed to fetch flashcards: " + fault.value)
      ensures fault.None? ==> r.Success? && Sorted(r.value, Newest) &&
                              multiset(r.value) == multiset(OwnedDTOs(db.flashcards, userId))
    {
      if fault.Some? then Failure("Failed to fetch flashcards: " + fault.value)
      else Success(SortByCreated(OwnedDTOs(db.flashcards, userId), Newest))
    }

    /** getFlashcard: the row with that id and owner, or "Flashcard not found". */
    function GetFlashcard(id: string, userId: string, fault: Option<string>): (r: Result<FlashcardDTO, string>)
      reads db
      ensures fault.Some? ==> r == Failure("Failed to fetch flashcard: " + fault.value)
      ensures fault.None? && (forall i :: 0 <= i < |db.flashcards| ==> !(db.flashcards[i].id == id && db.flashcards[i].userId == userId))
              ==> r == Failure(NotFound)
      ensures r.Success? ==> exists i :: 0 <= i < |db.flashcards| && db.flashcards[i].id == id &&
                                         db.flashcards[i].userId == userId && ToDTO(db.flashcards[i]) == r.value
      ensures fault.None? && (exists i :: 0 <= i < |db.flashcards| && db.flashcards[i].id == id && db.flashcards[i].userId == userId)
              ==> r.Success?
      ensures fault.None? && UniqueFlashcardIds(db.flashcards) ==>
                forall i :: 0 <= i < |db.flashcards| && db.flashcards[i].id == id && db.flashcards[i].userId == userId
                  ==> r == Success(ToDTO(db.flashcards[i]))
    {
      if fault.Some? then Failure("Failed to fetch flashcard: " + fault.value)
      else
        var i := FindFlashcard(db.flashcards, id, userId);
        if i.None? then Failure(NotFound) else Success(ToDTO(db.flashcards[i.value]))
    }

    /** createFlashcard, in the source's steps: read the counters into locals, check the ceiling,
        insert, then write one counter back. */
    method CreateFlashcard(cmd: CreateCommand, userId: string, newId: string, now: int, f: CreateFaults)
      returns (r: Result<FlashcardDTO, string>)
      requires db.Valid() && db.FreshFlashcardId(newId)
      modifies db
      ensures (r, Stored(db.flashcards, db.generations)) ==
              CreateSpec(Stored(old(db.flashcards), old(db.generations)), cmd, userId, newId, now, f)
      ensures db.Valid()
      ensures f.counterError.None? ==> forall u :: old(db.Accounted(u)) ==> db.Accounted(u)
    {
      CreateKeepsInvariants(Stored(db.flashcards, db.generations), cmd, userId, newId, now, f);
      var acceptedFull := 0;
      var acceptedEdited := 0;
      if cmd.AcceptAiCommand? {
        var gi := FindGeneration(db.generations, cmd.generationId, userId);
        if f.lookupFails || gi.None? {
          return Failure(InvalidGeneration);
        }
        var gen := db.generations[gi.value];
        acceptedFull := OrZero(gen.acceptedFull);
        acceptedEdited := OrZero(gen.acceptedEdited);
        var total := OrZero(gen.totalGenerated);
        if acceptedFull + acceptedEdited + 1 > total {
          return Failure(CeilingExceeded);
        }
      }
      if f.insertError.Some? {
        return Failure("Failed to create flashcard: " + f.insertError.value);
      }
      var row := NewRow(cmd, userId, newId, now);
      db.flashcards := db.flashcards + [row];
      if cmd.AcceptAiCommand? {
        if cmd.aiMethod == AiFull {
          if f.counterError.Some? {
            return Failure("Failed to update generation accepted_full: " + f.counterError.value);
          }
          db.generations := SetAcceptedFull(db.generations, cmd.generationId, acceptedFull + 1);
        } else {
          if f.counterError.Some? {
            return Failure("Failed to update generation accepted_edited: " + f.counterError.value);
          }
          db.generations := SetAcceptedEdited(db.generations, cmd.generationId, acceptedEdited + 1);
        }
      }
      return Success(ToDTO(row));
    }

    /** updateFlashcard: replaces the content of the row with that id and owner. */
    method UpdateFlashcard(id: string, cmd: UpdateCommand, userId: string, fault: Option<string>)
      returns (r: Result<FlashcardDTO, string>)
      requires db.Valid()
      modifies db
      ensures db.generations == old(db.generations)
      ensures fault.Some? ==> r == Failure("Failed to update flashcard: " + fault.value) && db.flashcards == old(db.flashcards)
      ensures fault.None? ==> match FindFlashcard(old(db.flashcards), id, userId)
        case None => r == Failure(NotFound) && db.flashcards == old(db.flashcards)
        case Some(i) =>
          var row := old(db.flashcards)[i].(frontContent := cmd.frontContent, backContent := cmd.backContent);
          db.flashcards == old(db.flashcards)[i := row] && r == Success(ToDTO(row))
      ensures db.Valid()
      ensures forall u :: old(db.Accounted(u)) ==> db.Accounted(u)
    {
      if fault.Some? {
        return Failure("Failed to update flashcard: " + fault.value);
      }
      var i := FindFlashcard(db.flashcards, id, userId);
      if i.None? {
        return Failure(NotFound);
      }
      var row := db.flashcards[i.value].(frontContent := cmd.frontContent, backContent := cmd.backContent);
      forall u ensures AiCount(db.flashcards[i.value := row], u) == AiCount(db.flashcards, u) {
        AiCountUpdate(db.flashcards, i.value, row, u);
      }
      db.flashcards := db.flashcards[i.value := row];
      return Success(ToDTO(row));
    }

    /** deleteFlashcard: removes the row with that id and owner; a missing row is not an error. */
    method DeleteFlashcard(id: string, userId: string, fault: Option<string>) returns (r: Result<(), string>)
      requires db.Valid()
      modifies db
      ensures db.generations == old(db.generations)
      ensures fault.Some? ==> r == Failure("Failed to delete flashcard: " + fault.value) && db.flashcards == old(db.flashcards)
      ensures fault.None? ==> r == Success(()) && db.flashcards == Without(old(db.flashcards), id, userId)
      ensures db.Valid()
      ensures forall u :: old(db.Accounted(u)) ==> db.Accounted(u)
    {
      if fault.Some? {
        return Failure("Failed to delete flashcard: " + fault.value);
      }
      forall u ensures AiCount(Without(db.flashcards, id, userId), u) <= AiCount(db.flashcards, u) {
        AiCountWithout(db.flashcards, id, userId, u);
      }
      WithoutKeepsUnique(db.flashcards, id, userId);
      db.flashcards := Without(db.flashcards, id, userId);
      return Success(());
    }
  }

  lemma {:induction false} WithoutKeepsUnique(fs: seq<FlashcardRow>, id: string, user: string)
    requires UniqueFlashcardIds(fs)
    ensures UniqueFlashcardIds(Without(fs, id, user))
  {
    if fs != [] {
      assert UniqueFlashcardIds(fs[1..]) by {
        forall a, b | 0 <= a < b < |fs[1..]| ensures fs[1..][a].id != fs[1..][b].id {
          assert fs[1..][a] == fs[a + 1] && fs[1..][b] == fs[b + 1];
        }
      }
      WithoutKeepsUnique(fs[1..], id, user);
      var rest := Without(fs[1..], id, user);
      if !(fs[0].id == id && fs[0].userId == user) {
        forall k | 0 <= k < |rest| ensures rest[k].id != fs[0].id {
          assert rest[k] in fs[1..];
        }
      }
    }
  }
}
