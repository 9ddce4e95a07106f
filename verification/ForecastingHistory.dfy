/** How long a history the forecasting preset gives: the span between its first and its last dated
    flow, for every length and every day it ends on. */
module ForecastingHistory {
  import opened Calendar
  import opened Models
  import opened Fabrication
  import opened Random
  import opened Params
  import opened Forecasting
  import opened ForecastingTruth

  /** Two flows of the batch are dated at least so many days apart. */
  ghost predicate Spans(rs: seq<Record>, span: int) {
    exists first: Day, last: Day :: HasFlowOn(rs, first) && HasFlowOn(rs, last) && last - first >= span
  }

  /** With collections the first and the last flow are at least `days - 5` apart, whatever day the
      history ends on: 85 days at the least. */
  lemma HistoryIsLong(p: ForecastParams, x: Inputs, season: SeasonFactor)
    requires ValidParams(p) && ValidInputs(x) && HasVariable(p)
    ensures Spans(Records(p, x, season), p.days - 5)
  {
    hide Records, HasFlowOn, DayOfMonth;
    var first, last := Start(p, x), x.today;
    if !BusinessDay(first) { first := first + 1; }
    if !BusinessDay(first) { first := first + 1; }
    if !BusinessDay(last) { last := last - 1; }
    if !BusinessDay(last) { last := last - 1; }
    DatesAreTrue(p, x, season, first);
    DatesAreTrue(p, x, season, last);
  }

  // ---------------------------------------------------------------------------
  // Without collections
  // ---------------------------------------------------------------------------

  /** A day on which a monthly series falls due. */
  predicate SeriesDue(n: Day) {
    DayOfMonth(n) == 3 || DayOfMonth(n) == 5 || DayOfMonth(n) == 12 || DayOfMonth(n) == 28
  }

  /** The days from `n` to the next day a series falls due. */
  function Wait(n: Day): nat {
    var d := DayOfMonth(n);
    if d <= 3 then 3 - d
    else if d <= 5 then 5 - d
    else if d <= 12 then 12 - d
    else if d <= 28 then 28 - d
    else DaysLeft(n) + 3
  }

  lemma DaysLeftOf(n: Day)
    ensures 1 <= DayOfMonth(n) && 28 <= DaysLeft(n) + DayOfMonth(n) <= 31
  {
  }

  lemma WaitExactly(n: Day)
    ensures SeriesDue(n + Wait(n)) && Wait(n) <= 15
    ensures forall m: Day :: n <= m < n + Wait(n) ==> !SeriesDue(m)
  {
    hide DayOfMonth;
    DaysLeftOf(n);
    DayAfter(n, Wait(n));
    forall m: Day | n <= m < n + Wait(n) ensures !SeriesDue(m) {
      DayAfter(n, m - n);
    }
  }

  lemma NextBack(d: Date)
    requires ValidDate(d)
    ensures Next(d).day > 1 ==> d == Next(d).(day := Next(d).day - 1)
    ensures Next(d).day == 1 ==> d.day == MonthLength(d.year, d.month)
  {
  }

  /** Going back from day `n` the day of the month counts down to the first. */
  lemma {:induction false} WithinMonthBack(n: Day, k: nat)
    requires k < DayOfMonth(n) && k < n
    ensures DateOf(n - k) == DateOf(n).(day := DayOfMonth(n) - k)
  {
    if k > 0 {
      WithinMonthBack(n, k - 1);
      NextBack(DateOf(n - k));
    }
  }

  /** The day before the first of the month ends a month of at least 28 days. */
  lemma MonthBefore(n: Day)
    requires n > 31
    ensures 1 <= DayOfMonth(n) <= 31 && DayOfMonth(n - DayOfMonth(n)) >= 28
  {
    WithinMonthBack(n, DayOfMonth(n) - 1);
    NextBack(DateOf(n - DayOfMonth(n)));
  }

  /** The days back from `n` to the last day a series fell due: on the first two days of a month, back
      to the 28th of the month before. */
  function Since(n: Day): nat
    requires n > 31
  {
    MonthBefore(n);
    var d := DayOfMonth(n);
    if d >= 28 then d - 28
    else if d >= 12 then d - 12
    else if d >= 5 then d - 5
    else if d >= 3 then d - 3
    else d + (DayOfMonth(n - d) - 28)
  }

  /** Where the calendar stood `k` days before day `n`, back to the 28th of the month before. */
  lemma DayBefore(n: Day, k: nat)
    requires n > 62 && k < DayOfMonth(n) + 28
    ensures 1 <= DayOfMonth(n) <= 31
    ensures DayOfMonth(n - k) == if k < DayOfMonth(n) then DayOfMonth(n) - k else DayOfMonth(n - DayOfMonth(n)) - (k - DayOfMonth(n))
  {
    var d := DayOfMonth(n);
    MonthBefore(n);
    if k < d {
      WithinMonthBack(n, k);
    } else {
      WithinMonthBack(n - d, k - d);
    }
  }

  lemma MonthEnd(n: Day)
    requires n > 31 && 1 <= DayOfMonth(n) <= 31
    ensures DayOfMonth(n - DayOfMonth(n)) <= 31
  {
  }

  lemma SinceExactly(n: Day)
    requires n > 62
    ensures SeriesDue(n - Since(n)) && Since(n) <= 15
    ensures forall m: Day :: n - Since(n) < m <= n ==> !SeriesDue(m)
  {
    hide DayOfMonth;
    MonthBefore(n);
    MonthEnd(n);
    DayBefore(n, Since(n));
    forall m: Day | n - Since(n) < m <= n ensures !SeriesDue(m) {
      DayBefore(n, n - m);
    }
  }

  lemma DueWithoutCollections(p: ForecastParams, x: Inputs, season: SeasonFactor, day: Day)
    requires ValidParams(p) && ValidInputs(x) && !HasVariable(p)
    ensures HasFlowOn(Records(p, x, season), day) <==> Start(p, x) <= day <= x.today && SeriesDue(day)
  {
    hide Records, HasFlowOn, DayOfMonth;
    DatesAreTrue(p, x, season, day);
  }

  /** Without collections the history spans exactly the window less the wait for the first due day
      and the days since the last one. */
  lemma SpanWithoutCollections(p: ForecastParams, x: Inputs, season: SeasonFactor, span: int)
    requires ValidParams(p) && ValidInputs(x) && !HasVariable(p)
    ensures Spans(Records(p, x, season), span) <==> p.days - 1 - Wait(Start(p, x)) - Since(x.today) >= span
  {
    hide Records, HasFlowOn, SeriesDue, Wait, Since;
    var rs, from, to := Records(p, x, season), Start(p, x), x.today;
    WaitExactly(from);
    SinceExactly(to);
    DueWithoutCollections(p, x, season, from + Wait(from));
    DueWithoutCollections(p, x, season, to - Since(to));
    forall first: Day, last: Day | HasFlowOn(rs, first) && HasFlowOn(rs, last)
      ensures from + Wait(from) <= first && last <= to - Since(to)
    {
      DueWithoutCollections(p, x, season, first);
      DueWithoutCollections(p, x, season, last);
    }
  }

  /** When the history is `days - 5` days long: with collections always, without them exactly when the
      wait at the start and the days since the last due day come to no more than four. */
  lemma HistoryIsLongExactly(p: ForecastParams, x: Inputs, season: SeasonFactor)
    requires ValidParams(p) && ValidInputs(x)
    ensures Spans(Records(p, x, season), p.days - 5) <==> HasVariable(p) || Wait(Start(p, x)) + Since(x.today) <= 4
  {
    hide Records, Spans, Wait, Since;
    if HasVariable(p) {
      HistoryIsLong(p, x, season);
    } else {
      SpanWithoutCollections(p, x, season, p.days - 5);
    }
  }

  /** Without collections a window that opens on a 13th has nothing before the 28th. */
  lemma HistoryCanBeShort(p: ForecastParams, x: Inputs, season: SeasonFactor)
    requires ValidParams(p) && ValidInputs(x) && !HasVariable(p) && DayOfMonth(Start(p, x)) == 13
    ensures !Spans(Records(p, x, season), p.days - 15)
  {
    hide Records, Spans, DayOfMonth, Since;
    SpanWithoutCollections(p, x, season, p.days - 15);
  }

  /** At ratio 1 the shortest history ending on 11 April 2024 spans less than 85 days. */
  lemma ShortHistoryExample(stream: Stream, season: SeasonFactor)
    ensures var p := ForecastParams(90, 1, NoSeason, Fin(1.0), Fin(0.0));
            var x := Inputs(stream, "Demo", Ordinal(Date(2024, 4, 11)));
            ValidParams(p) && ValidInputs(x) && !Spans(Records(p, x, season), 85)
  {
    var p := ForecastParams(90, 1, NoSeason, Fin(1.0), Fin(0.0));
    var x := Inputs(stream, "Demo", Ordinal(Date(2024, 4, 11)));
    assert Start(p, x) == Ordinal(Date(2024, 1, 13));
    DateOfOrdinal(Date(2024, 1, 13));
    assert DayOfMonth(Start(p, x)) == 13;
    hide Records, Spans, DayOfMonth, Since;
    SpanWithoutCollections(p, x, season, 85);
  }
}
