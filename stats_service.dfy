/** StatsService (src/lib/services/stats.service.ts): three filtered counts over the caller's
    flashcards and a sum over the caller's generations. What each query reports is a parameter. */
module StatsService {
  import opened Wrappers
  import opened Types
  import opened Database
  import FlashcardService

  const CountsFailed := "Failed to fetch flashcard stats"

  /** One `count: "exact"` query: its count, a null count, or an error. */
  datatype CountQuery = Counted | CountNull | CountFailed

  datatype StatsFaults = StatsFaults(manual: CountQuery, aiFull: CountQuery, aiEdited: CountQuery,
                                     generations: Option<string>)

  const NoFaults := StatsFaults(Counted, Counted, Counted, None)

  /** The number of u's flashcards created by method m. */
  function CountWith(fs: seq<FlashcardRow>, u: string, m: CreationMethod): (n: nat)
    ensures n <= |fs|
  {
    if fs == [] then 0 else (if fs[0].userId == u && fs[0].creationMethod == m then 1 else 0) + CountWith(fs[1..], u, m)
  }

  /** `count ?? 0` on the result of one query. */
  function Reported(q: CountQuery, n: nat): nat {
    if q.Counted? then n else 0
  }

  /** getUserStats. A failing count query is reported before the generations query is looked at. */
  function GetUserStats(fs: seq<FlashcardRow>, gs: seq<GenerationRow>, u: string, f: StatsFaults): (r: Result<StatsDTO, string>)
    ensures (f.manual.CountFailed? || f.aiFull.CountFailed? || f.aiEdited.CountFailed?) ==> r == Failure(CountsFailed)
    ensures !(f.manual.CountFailed? || f.aiFull.CountFailed? || f.aiEdited.CountFailed?) && f.generations.Some? ==>
              r == Failure("Failed to fetch generation stats: " + f.generations.value)
    ensures r.Success? <==> !(f.manual.CountFailed? || f.aiFull.CountFailed? || f.aiEdited.CountFailed?) && f.generations.None?
    ensures r.Success? ==>
              r.value.manualCount == Reported(f.manual, CountWith(fs, u, Manual)) &&
              r.value.aiFullCount == Reported(f.aiFull, CountWith(fs, u, AiFull)) &&
              r.value.aiEditedCount == Reported(f.aiEdited, CountWith(fs, u, AiEdited)) &&
              r.value.totalGenerated == SumTotal(gs, u)
  {
    if f.manual.CountFailed? || f.aiFull.CountFailed? || f.aiEdited.CountFailed? then Failure(CountsFailed)
    else if f.generations.Some? then Failure("Failed to fetch generation stats: " + f.generations.value)
    else Success(StatsDTO(Reported(f.manual, CountWith(fs, u, Manual)), Reported(f.aiFull, CountWith(fs, u, AiFull)),
                          Reported(f.aiEdited, CountWith(fs, u, AiEdited)), SumTotal(gs, u)))
  }

  /** The three counts partition the caller's flashcards. */
  lemma {:induction false} CountsPartition(fs: seq<FlashcardRow>, u: string)
    ensures CountWith(fs, u, Manual) + CountWith(fs, u, AiFull) + CountWith(fs, u, AiEdited) ==
            |FlashcardService.OwnedDTOs(fs, u)|
  {
    if fs != [] {
      CountsPartition(fs[1..], u);
    }
  }

  /** The two AI counts together are the number of AI flashcards the acceptance counters track. */
  lemma {:induction false} AiCountsSplit(fs: seq<FlashcardRow>, u: string)
    ensures CountWith(fs, u, AiFull) + CountWith(fs, u, AiEdited) == AiCount(fs, u)
  {
    if fs != [] {
      AiCountsSplit(fs[1..], u);
    }
  }

  lemma {:induction false} CountWithAppend(fs: seq<FlashcardRow>, r: FlashcardRow, u: string, m: CreationMethod)
    ensures CountWith(fs + [r], u, m) == CountWith(fs, u, m) + (if r.userId == u && r.creationMethod == m then 1 else 0)
  {
    if fs != [] {
      assert (fs + [r])[1..] == fs[1..] + [r];
      CountWithAppend(fs[1..], r, u, m);
    }
  }

  /** Rows of other users do not change the caller's statistics. */
  lemma OtherUsersIgnored(fs: seq<FlashcardRow>, gs: seq<GenerationRow>, r: FlashcardRow, g: GenerationRow,
                          u: string, f: StatsFaults)
    requires r.userId != u && g.userId != u
    ensures GetUserStats(fs + [r], gs + [g], u, f) == GetUserStats(fs, gs, u, f)
  {
    CountWithAppend(fs, r, u, Manual);
    CountWithAppend(fs, r, u, AiFull);
    CountWithAppend(fs, r, u, AiEdited);
    SumTotalAppend(gs, g, u);
  }

  /** With no rows every statistic is 0. */
  lemma NoRowsNoStats(u: string)
    ensures GetUserStats([], [], u, NoFaults) == Success(StatsDTO(0, 0, 0, 0))
  {
  }

  /** On tables that keep every ceiling and account for every AI flashcard, the generated total
      is at least the number of AI flashcards, so the panel's rejected count is never negative. */
  lemma RejectedNotNegative(fs: seq<FlashcardRow>, gs: seq<GenerationRow>, u: string)
    requires ValidTables(fs, gs) && AiCount(fs, u) <= SumAccepted(gs, u)
    ensures var s := GetUserStats(fs, gs, u, NoFaults).value;
            s.totalGenerated - (s.aiFullCount + s.aiEditedCount) >= 0
  {
    AiCountsSplit(fs, u);
    CeilingSums(gs, u);
  }
}
