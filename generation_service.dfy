/** GenerationService (src/lib/services/generation.service.ts). The AI call is still a stand-in:
    the service makes five fixed proposals from the input text and records the generation. The
    elapsed time and the outcome of the insert are parameters. */
module GenerationService {
  import opened Wrappers
  import opened Strings
  import opened Types
  import opened Http
  import opened Database
  import GenerationSchema
  import FlashcardSchema

  const DefaultAiModel := "o3-mini"
  const DefaultNumberOfCards := 5
  const NoRecord := "Failed to create generation record"

  /** `substring(0, 10)`: at most the first ten characters. */
  function Take10(s: string): (r: string)
    ensures r <= s
    ensures |r| == if |s| < 10 then |s| else 10
  {
    if |s| < 10 then s else s[..10]
  }

  /** The i-th stand-in proposal, counting from 0. */
  function Proposal(i: nat, text: string): ProposalDTO {
    ProposalDTO("What is concept " + NatToString(i + 1) + "?",
                "This is the explanation for concept " + NatToString(i + 1) + " - " + Take10(text) + ".")
  }

  function MockProposals(text: string): (r: seq<ProposalDTO>)
    ensures |r| == DefaultNumberOfCards
  {
    seq(DefaultNumberOfCards, i requires 0 <= i < DefaultNumberOfCards => Proposal(i, text))
  }

  lemma OneDigit(n: nat)
    requires n < 10
    ensures |NatToString(n)| == 1
  {
  }

  /** The five fronts all differ. */
  lemma MockFrontsDistinct(text: string)
    ensures forall i, j :: 0 <= i < j < |MockProposals(text)| ==>
              MockProposals(text)[i].frontContent != MockProposals(text)[j].frontContent
  {
    var ps := MockProposals(text);
    forall i, j | 0 <= i < j < |ps| ensures ps[i].frontContent != ps[j].frontContent {
      assert ps[i].frontContent[16] == DigitChar(i + 1) && ps[j].frontContent[16] == DigitChar(j + 1);
    }
  }

  /** Every proposal passes the server's content rules, so accepting one unedited is never
      refused for its length. */
  lemma MockContentValid(text: string)
    ensures forall i :: 0 <= i < |MockProposals(text)| ==>
              FlashcardSchema.ContentMessages(MockProposals(text)[i].frontContent) == [] &&
              FlashcardSchema.ContentMessages(MockProposals(text)[i].backContent) == []
  {
    var ps := MockProposals(text);
    forall i | 0 <= i < |ps|
      ensures 2 <= |ps[i].frontContent| <= 200 && 2 <= |ps[i].backContent| <= 200
    {
      OneDigit(i + 1);
    }
  }

  /** Each back quotes the first ten characters of the input. */
  lemma MockQuotesInput(text: string)
    ensures forall i :: 0 <= i < |MockProposals(text)| ==> Contains(MockProposals(text)[i].backContent, Take10(text))
  {
    var ps := MockProposals(text);
    forall i | 0 <= i < |ps| ensures Contains(ps[i].backContent, Take10(text)) {
      var head := "This is the explanation for concept " + NatToString(i + 1) + " - ";
      assert ps[i].backContent == head + Take10(text) + ".";
      assert ps[i].backContent[|head|..|head| + |Take10(text)|] == Take10(text);
      ContainsAt(ps[i].backContent, Take10(text), |head|);
    }
  }

  /** Only the first ten characters of the input matter; the requested card count is ignored. */
  lemma MockDependsOnPrefix(a: GenerationSchema.GenerateInput, b: GenerationSchema.GenerateInput)
    requires Take10(a.inputText) == Take10(b.inputText)
    ensures MockProposals(a.inputText) == MockProposals(b.inputText)
  {
  }

  /** The row written for a generation: five proposals, no error, counters left unset. */
  function GenerationRecord(id: string, userId: string, elapsedMs: nat): (g: GenerationRow)
    ensures WithinCeiling(g) && Accepted(g) == 0
    ensures g.userId == userId && g.totalGenerated == Some(DefaultNumberOfCards)
  {
    GenerationRow(id, userId, Some(DefaultNumberOfCards), elapsedMs, DefaultAiModel, None, None, None)
  }

  /** What the insert returns: the new row's id, a driver error, or no data. */
  datatype InsertOutcome = Inserted | InsertFailed(message: string) | NothingReturned

  class Service {
    const db: Tables

    constructor(db: Tables)
      ensures this.db == db
    {
      this.db := db;
    }

    /** generateFlashcards: the proposals, then the record; a failed insert is thrown as an Error
        and nothing is stored. */
    method GenerateFlashcards(userId: string, input: GenerationSchema.GenerateInput, newId: string,
                              elapsedMs: nat, outcome: InsertOutcome)
      returns (r: Result<GenerationResponseDTO, Thrown>)
      requires db.Valid() && db.FreshGenerationId(newId)
      modifies db
      ensures db.flashcards == old(db.flashcards)
      ensures outcome.Inserted? ==>
                db.generations == old(db.generations) + [GenerationRecord(newId, userId, elapsedMs)] &&
                r == Success(GenerationResponseDTO(newId, MockProposals(input.inputText), DefaultAiModel,
                                                   elapsedMs, DefaultNumberOfCards))
      ensures outcome.InsertFailed? ==>
                r == Failure(ErrorThrown("Database error: " + outcome.message)) && db.generations == old(db.generations)
      ensures outcome.NothingReturned? ==>
                r == Failure(ErrorThrown(NoRecord)) && db.generations == old(db.generations)
      ensures r.Success? ==> r.value.totalGenerated == |r.value.proposals|
      ensures r.Failure? ==> r.error.ErrorThrown?
      ensures db.Valid()
      ensures forall u :: old(db.Accounted(u)) ==> db.Accounted(u)
      ensures SumTotal(db.generations, userId) ==
                SumTotal(old(db.generations), userId) + (if r.Success? then DefaultNumberOfCards else 0)
    {
      var proposals := MockProposals(input.inputText);
      if outcome.InsertFailed? {
        return Failure(ErrorThrown("Database error: " + outcome.message));
      }
      if outcome.NothingReturned? {
        return Failure(ErrorThrown(NoRecord));
      }
      var row := GenerationRecord(newId, userId, elapsedMs);
      forall u ensures SumAccepted(db.generations + [row], u) == SumAccepted(db.generations, u) {
        SumAcceptedAppend(db.generations, row, u);
      }
      SumTotalAppend(db.generations, row, userId);
      db.generations := db.generations + [row];
      r := Success(GenerationResponseDTO(newId, proposals, DefaultAiModel, elapsedMs, |proposals|));
    }
  }
}
