/** StatsPanel (src/components/browse/StatsPanel.tsx): the derived statistics, and the three
    state cells (stats, loading, error) that fetchStats sets. Math.round over a float ratio is
    replaced by exact rounding of the rational percentage, halves rounding up. */
module StatsPanel {
  import opened Wrappers
  import opened Json
  import opened Types
  import opened Http

  const DefaultError := "Failed to fetch statistics"
  const UnknownError := "An error occurred"

  /** Math.round(100 * c / t) for t > 0: the integer nearest to the percentage, halves up. */
  function RoundPercent(c: int, t: int): (p: int)
    requires t > 0
    ensures 2 * t * p <= 200 * c + t < 2 * t * (p + 1)
  {
    var p := (200 * c + t) / (2 * t);
    DivBracket(200 * c + t, 2 * t);
    p
  }

  /** Floor division brackets its dividend. */
  lemma DivBracket(a: int, b: int)
    requires b > 0
    ensures b * (a / b) <= a < b * (a / b + 1)
  {
  }

  /** The percentage shown: 0 when the denominator is not positive. */
  function Percent(c: int, t: int): (p: int)
    ensures t <= 0 ==> p == 0
    ensures t > 0 ==> 2 * t * p <= 200 * c + t < 2 * t * (p + 1)
  {
    if t > 0 then RoundPercent(c, t) else 0
  }

  /** A positive factor keeps the sign of a product. */
  lemma SignOfProduct(t: int, k: int)
    requires t > 0
    ensures t * k <= 0 ==> k <= 0
    ensures t * k > 0 ==> k > 0
  {
    if k > 0 {
      assert t * k == t * (k - 1) + t;
      if k > 1 {
        SignOfProduct(t, k - 1);
      }
    }
  }

  /** A fraction of a whole shows between 0 and 100 percent. */
  lemma PercentInRange(c: int, t: int)
    requires 0 <= c <= t
    ensures 0 <= Percent(c, t) <= 100
  {
    if t > 0 {
      var p := Percent(c, t);
      assert t * (2 * p - 201) == 2 * t * p - 201 * t;
      SignOfProduct(t, 2 * p - 201);
      assert t * (2 * p + 1) == 2 * t * (p + 1) - t;
      SignOfProduct(t, 2 * p + 1);
    }
  }

  datatype StatsView = StatsView(
    data: StatsDTO,
    rejectedCount: int,
    manualPercent: int,
    aiFullPercent: int,
    aiEditedPercent: int,
    rejectedPercent: int)

  function Total(d: StatsDTO): int {
    d.manualCount + d.aiFullCount + d.aiEditedCount
  }

  /** The view model: the data, the proposals not accepted, and the four percentages. */
  function Derive(d: StatsDTO): (v: StatsView)
    ensures v.data == d
    ensures v.rejectedCount + d.aiFullCount + d.aiEditedCount == d.totalGenerated
  {
    var rejected := d.totalGenerated - (d.aiFullCount + d.aiEditedCount);
    StatsView(d, rejected, Percent(d.manualCount, Total(d)), Percent(d.aiFullCount, Total(d)),
              Percent(d.aiEditedCount, Total(d)), Percent(rejected, d.totalGenerated))
  }

  /** Three percentages rounded from parts of one whole add up to 99, 100 or 101. */
  lemma SumOfRounded(a: int, b: int, c: int, pa: int, pb: int, pc: int)
    requires a + b + c > 0
    requires 2 * (a + b + c) * pa <= 200 * a + (a + b + c) < 2 * (a + b + c) * (pa + 1)
    requires 2 * (a + b + c) * pb <= 200 * b + (a + b + c) < 2 * (a + b + c) * (pb + 1)
    requires 2 * (a + b + c) * pc <= 200 * c + (a + b + c) < 2 * (a + b + c) * (pc + 1)
    ensures 99 <= pa + pb + pc <= 101
  {
    var t, s := a + b + c, pa + pb + pc;
    assert 2 * t * s == 2 * t * pa + 2 * t * pb + 2 * t * pc;
    assert 2 * t * (s + 3) == 2 * t * (pa + 1) + 2 * t * (pb + 1) + 2 * t * (pc + 1);
    assert t * (2 * s - 203) == 2 * t * s - 203 * t;
    SignOfProduct(t, 2 * s - 203);
    assert t * (2 * s - 197) == 2 * t * (s + 3) - 203 * t;
    SignOfProduct(t, 2 * s - 197);
  }

  /** With a positive total the three category percentages add up to 99, 100 or 101. */
  lemma CategoriesNearHundred(d: StatsDTO)
    requires Total(d) > 0
    ensures var v := Derive(d); 99 <= v.manualPercent + v.aiFullPercent + v.aiEditedPercent <= 101
  {
    var v := Derive(d);
    SumOfRounded(d.manualCount, d.aiFullCount, d.aiEditedCount, v.manualPercent, v.aiFullPercent, v.aiEditedPercent);
  }

  /** Rounding need not add up: three equal categories show 33% each. */
  lemma ThirdsShowNinetyNine()
    ensures var v := Derive(StatsDTO(1, 1, 1, 3)); v.manualPercent + v.aiFullPercent + v.aiEditedPercent == 99
  {
    assert RoundPercent(1, 3) == 33;
  }

  /** 10 manual, 20 unedited, 10 edited of 50 generated: 25%, 50%, 25%, and 20 rejected (40%). */
  lemma DefaultFixture()
    ensures Derive(StatsDTO(10, 20, 10, 50)) == StatsView(StatsDTO(10, 20, 10, 50), 20, 25, 50, 25, 40)
  {
    assert RoundPercent(10, 40) == 25;
    assert RoundPercent(20, 40) == 50;
    assert RoundPercent(20, 50) == 40;
  }

  /** All-zero statistics show four 0% values. */
  lemma ZeroFixture()
    ensures Derive(StatsDTO(0, 0, 0, 0)) == StatsView(StatsDTO(0, 0, 0, 0), 0, 0, 0, 0, 0)
  {
  }

  /** Five generated, two accepted unedited and one edited: two rejected. */
  lemma GenerateFlowFixture(manual: int)
    ensures Derive(StatsDTO(manual, 2, 1, 5)).rejectedCount == 2
  {
  }

  /** What `await fetch("/api/stats")` gives the panel. An ok body is taken to be the statistics
      object the server sends. */
  type PanelReply = Fetch<StatsDTO>

  datatype PanelState = PanelState(stats: Option<StatsView>, loading: bool, error: Option<string>)

  const Initial := PanelState(None, true, None)

  /** One fetchStats as written: a success replaces the statistics and leaves the error cell as
      it was; a failure sets the error and keeps the old statistics; loading ends either way. */
  function Fetched(s: PanelState, reply: PanelReply): (t: PanelState)
    ensures !t.loading
    ensures reply.Received? ==> t.stats == Some(Derive(reply.data)) && t.error == s.error
    ensures !reply.Received? ==> t.stats == s.stats && t.error == FetchError(reply, DefaultError, UnknownError)
  {
    match FetchError(reply, DefaultError, UnknownError)
    case None => PanelState(Some(Derive(reply.data)), false, s.error)
    case Some(m) => PanelState(s.stats, false, Some(m))
  }

  /** The same step with the error cleared once statistics arrive. */
  function FetchedClearingError(s: PanelState, reply: PanelReply): (t: PanelState)
    ensures !t.loading
    ensures reply.Received? ==> t.stats == Some(Derive(reply.data)) && t.error.None?
    ensures !reply.Received? ==> t == Fetched(s, reply)
  {
    match FetchError(reply, DefaultError, UnknownError)
    case None => PanelState(Some(Derive(reply.data)), false, None)
    case Some(m) => PanelState(s.stats, false, Some(m))
  }

  datatype StatItem = StatItem(caption: string, count: int, percent: int)

  /** What the panel shows: the spinner, the error with its retry button, nothing, or the cards. */
  datatype Screen = Spinner | ErrorScreen(message: string) | Blank | Cards(items: seq<StatItem>)

  function Items(v: StatsView): (items: seq<StatItem>)
    ensures |items| == 4
  {
    [StatItem("AI unedited", v.data.aiFullCount, v.aiFullPercent),
     StatItem("AI edited", v.data.aiEditedCount, v.aiEditedPercent),
     StatItem("Manual", v.data.manualCount, v.manualPercent),
     StatItem("AI rejected", v.rejectedCount, v.rejectedPercent)]
  }

  /** The render order: loading first, then a non-empty error, then the statistics. */
  function Render(s: PanelState): (r: Screen)
    ensures r.Spinner? <==> s.loading
    ensures r.ErrorScreen? <==> !s.loading && s.error.Some? && s.error.value != ""
    ensures r.Cards? ==> s.stats.Some? && r.items == Items(s.stats.value)
  {
    if s.loading then Spinner
    else if s.error.Some? && s.error.value != "" then ErrorScreen(s.error.value)
    else if s.stats.None? then Blank
    else Cards(Items(s.stats.value))
  }

  /** A network error, then a successful retry: the error screen stays up. */
  lemma RetryKeepsErrorScreen(d: StatsDTO)
    ensures Render(Fetched(Fetched(Initial, Threw(ErrorThrown("Network error"))), Received(d))) ==
            ErrorScreen("Network error")
  {
  }

  /** With the error cleared, any successful fetch shows the statistics, whatever came before. */
  lemma RetryShowsCards(s: PanelState, d: StatsDTO)
    ensures Render(FetchedClearingError(s, Received(d))) == Cards(Items(Derive(d)))
  {
  }

  /** The first fetch after mounting shows either the statistics or the error. */
  lemma FirstFetchDecides(reply: PanelReply)
    requires reply.Received? || FetchError(reply, DefaultError, UnknownError).value != ""
    ensures Render(Fetched(Initial, reply)).Cards? <==> reply.Received?
  {
  }

  class Panel {
    var stats: Option<StatsView>
    var loading: bool
    var error: Option<string>

    function State(): PanelState
      reads this
    {
      PanelState(stats, loading, error)
    }

    constructor()
      ensures State() == Initial
    {
      stats, loading, error := None, true, None;
    }

    /** fetchStats as written. */
    method FetchStats(reply: PanelReply)
      modifies this
      ensures State() == Fetched(old(State()), reply)
    {
      loading := true;
      var failure := FetchError(reply, DefaultError, UnknownError);
      if failure.Some? {
        error := failure;
      } else {
        stats := Some(Derive(reply.data));
      }
      loading := false;
    }

    /** fetchStats with the error cell cleared when the statistics arrive. */
    method FetchStatsClearingError(reply: PanelReply)
      modifies this
      ensures State() == FetchedClearingError(old(State()), reply)
    {
      loading := true;
      var failure := FetchError(reply, DefaultError, UnknownError);
      if failure.Some? {
        error := failure;
      } else {
        stats := Some(Derive(reply.data));
        error := None;
      }
      loading := false;
    }
  }
}
