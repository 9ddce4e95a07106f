/** The forecasting history read back from the emitted records: how often each series occurs, how
    the collections rotate over the accounts, and how long a history there is. */
module ForecastingTruth {
  import opened Options
  import opened Text
  import opened Decimals
  import opened Random
  import opened Calendar
  import opened Models
  import opened Fabrication
  import opened Sequences
  import opened GroundTruth
  import opened Forecasting
  import Emitter

  // ---------------------------------------------------------------------------
  // What an observer of the records can tell apart
  // ---------------------------------------------------------------------------

  const COLLECTION := "Encaissement variable"

  function SeriesLabel(k: nat): string
    requires k < 4
  {
    "Récurrent " + Recurring()[k].name
  }

  /** The cash flows with a given label. */
  function Labelled(text: string): Record -> bool {
    (r: Record) => IsFlow(r) && TextField(r.payload, "label") == Some(text)
  }

  /** The collections received on a given account. */
  function CollectedOn(iban: string): Record -> bool {
    (r: Record) => Labelled(COLLECTION)(r) && TextField(r.payload, "account_iban") == Some(iban)
  }

  function FlowRecord(f: CashFlow): Record {
    Record(CashFlowKind, DumpFlow(f))
  }

  lemma FlowRecordSeen(f: CashFlow, text: string)
    ensures IsFlow(FlowRecord(f))
    ensures Labelled(text)(FlowRecord(f)) <==> f.caption == text
    ensures TextField(FlowRecord(f).payload, "value_date") == Some(Iso(f.valueDate))
  {
    hide DumpFlow;
    FlowOtherFields(f);
    FlowKeyFields(f);
  }

  lemma CollectionSeen(f: CashFlow, iban: string)
    ensures CollectedOn(iban)(FlowRecord(f)) <==> f.caption == COLLECTION && f.accountIban == iban
  {
    hide DumpFlow, Labelled;
    var r := FlowRecord(f);
    FlowRecordSeen(f, COLLECTION);
    FlowOtherFields(f);
    assert TextField(r.payload, "account_iban") == Some(f.accountIban);
  }

  lemma LabelsDiffer(j: nat, k: nat)
    requires j < 4 && k < 4
    ensures SeriesLabel(j) == SeriesLabel(k) <==> j == k
    ensures SeriesLabel(j) != COLLECTION
  {
    var rs := Recurring();
    assert |rs[0].name| == 8 && |rs[1].name| == 4 && |rs[2].name| == 12 && |rs[3].name| == 17;
    assert |"Récurrent "| == 10;
    assert |SeriesLabel(j)| == 10 + |rs[j].name| && |SeriesLabel(k)| == 10 + |rs[k].name|;
    assert SeriesLabel(j)[0] == 'R' && COLLECTION[0] == 'E';
  }

  // ---------------------------------------------------------------------------
  // One day
  // ---------------------------------------------------------------------------

  function SeriesFlow(p: ForecastParams, x: Inputs, k: nat, day: Day): CashFlow
    requires k < 4
  {
    RecurringFlow(p, Iban(x, 0), Recurring()[k], day)
  }

  lemma RecurringStep(p: ForecastParams, x: Inputs, day: Day, k: nat)
    requires k < 4
    ensures RecurringOn(p, x, day, k + 1) == RecurringOn(p, x, day, k)
              + if DayOfMonth(day) == Recurring()[k].dom then [FlowRecord(SeriesFlow(p, x, k, day))] else []
    ensures SeriesFlow(p, x, k, day).caption == SeriesLabel(k) && SeriesFlow(p, x, k, day).valueDate == day
  {
    hide DumpFlow, RecurringAmount, Iban, DayOfMonth, Iso;
  }

  lemma NoneDueYet(p: ForecastParams, x: Inputs, day: Day)
    ensures RecurringOn(p, x, day, 0) == []
  {
  }

  lemma {:induction false} RecurringTally(p: ForecastParams, x: Inputs, day: Day, n: nat, k: nat)
    requires n <= 4 && k < 4
    ensures Tally(RecurringOn(p, x, day, n), Labelled(SeriesLabel(k)))
              == if k < n && DayOfMonth(day) == Recurring()[k].dom then 1 else 0
  {
    hide RecurringOn, SeriesLabel, Labelled, FlowRecord, DayOfMonth, Recurring, SeriesFlow;
    if n == 0 {
      NoneDueYet(p, x, day);
    } else {
      var f, due := SeriesFlow(p, x, n - 1, day), DayOfMonth(day) == Recurring()[n - 1].dom;
      RecurringTally(p, x, day, n - 1, k);
      RecurringStep(p, x, day, n - 1);
      TallyAppend(RecurringOn(p, x, day, n - 1), due, FlowRecord(f), Labelled(SeriesLabel(k)));
      FlowRecordSeen(f, SeriesLabel(k));
      LabelsDiffer(n - 1, k);
    }
  }

  /** What no recurring flow satisfies is satisfied by none of a day's. */
  lemma {:induction false} RecurringRejected(p: ForecastParams, x: Inputs, day: Day, n: nat, seen: Record -> bool)
    requires n <= 4 && forall k: nat :: k < 4 ==> !seen(FlowRecord(SeriesFlow(p, x, k, day)))
    ensures Tally(RecurringOn(p, x, day, n), seen) == 0
  {
    hide RecurringOn, FlowRecord, DayOfMonth, Recurring, SeriesFlow;
    if n == 0 {
      NoneDueYet(p, x, day);
    } else {
      var f, due := SeriesFlow(p, x, n - 1, day), DayOfMonth(day) == Recurring()[n - 1].dom;
      RecurringRejected(p, x, day, n - 1, seen);
      RecurringStep(p, x, day, n - 1);
      TallyAppend(RecurringOn(p, x, day, n - 1), due, FlowRecord(f), seen);
    }
  }

  function CollectionFlow(p: ForecastParams, x: Inputs, season: SeasonFactor, offset: nat): CashFlow
    requires ValidParams(p) && ValidInputs(x)
  {
    var u := x.stream(19 * p.accounts + CollectionsBefore(p, x, offset));
    VariableFlow(p, season, Iban(x, offset % p.accounts), Start(p, x) + offset, offset, u)
  }

  lemma VariableStep(p: ForecastParams, x: Inputs, season: SeasonFactor, offset: nat)
    requires ValidParams(p) && ValidInputs(x)
    ensures VariableOn(p, x, season, offset)
              == if Collects(p, Start(p, x) + offset) then [FlowRecord(CollectionFlow(p, x, season, offset))] else []
    ensures CollectionFlow(p, x, season, offset).caption == COLLECTION
    ensures CollectionFlow(p, x, season, offset).accountIban == Iban(x, offset % p.accounts)
    ensures CollectionFlow(p, x, season, offset).valueDate == Start(p, x) + offset
  {
    hide DumpFlow, VariableAmount, Iban, Iso, Collects, CollectionsBefore, Start;
  }

  lemma VariableTally(p: ForecastParams, x: Inputs, season: SeasonFactor, offset: nat, seen: Record -> bool)
    requires ValidParams(p) && ValidInputs(x)
    ensures Tally(VariableOn(p, x, season, offset), seen)
              == if Collects(p, Start(p, x) + offset) && seen(FlowRecord(CollectionFlow(p, x, season, offset))) then 1 else 0
  {
    hide VariableOn, CollectionFlow, FlowRecord, Collects, Start;
    VariableStep(p, x, season, offset);
    TallyAppend([], Collects(p, Start(p, x) + offset), FlowRecord(CollectionFlow(p, x, season, offset)), seen);
    assert [] + VariableOn(p, x, season, offset) == VariableOn(p, x, season, offset);
  }

  // ---------------------------------------------------------------------------
  // The window
  // ---------------------------------------------------------------------------

  lemma FlowsStep(p: ForecastParams, x: Inputs, season: SeasonFactor, n: nat, seen: Record -> bool)
    requires ValidParams(p) && ValidInputs(x)
    ensures Tally(Flows(p, x, season, n + 1), seen) == Tally(Flows(p, x, season, n), seen)
              + Tally(RecurringOn(p, x, Start(p, x) + n, 4), seen) + Tally(VariableOn(p, x, season, n), seen)
  {
    hide RecurringOn, VariableOn, Start;
    var recurring, variable := RecurringOn(p, x, Start(p, x) + n, 4), VariableOn(p, x, season, n);
    assert Flows(p, x, season, n + 1) == Flows(p, x, season, n) + (recurring + variable);
    TallyConcat(Flows(p, x, season, n), recurring + variable, seen);
    TallyConcat(recurring, variable, seen);
  }

  lemma NoFlowsYet(p: ForecastParams, x: Inputs, season: SeasonFactor, seen: Record -> bool)
    requires ValidParams(p) && ValidInputs(x)
    ensures Tally(Flows(p, x, season, 0), seen) == 0
  {
  }

  lemma SeriesOnDay(p: ForecastParams, x: Inputs, season: SeasonFactor, offset: nat, k: nat)
    requires ValidParams(p) && ValidInputs(x) && k < 4
    ensures Tally(Flows(p, x, season, offset + 1), Labelled(SeriesLabel(k)))
              == Tally(Flows(p, x, season, offset), Labelled(SeriesLabel(k)))
                 + if DayOfMonth(Start(p, x) + offset) == Recurring()[k].dom then 1 else 0
  {
    hide Flows, RecurringOn, VariableOn, Start, SeriesLabel, Labelled, FlowRecord, Recurring, CollectionFlow,
         Collects, DayOfMonth, Tally;
    FlowsStep(p, x, season, offset, Labelled(SeriesLabel(k)));
    RecurringTally(p, x, Start(p, x) + offset, 4, k);
    VariableTally(p, x, season, offset, Labelled(SeriesLabel(k)));
    VariableStep(p, x, season, offset);
    FlowRecordSeen(CollectionFlow(p, x, season, offset), SeriesLabel(k));
    LabelsDiffer(k, k);
  }

  lemma {:induction false} SeriesTally(p: ForecastParams, x: Inputs, season: SeasonFactor, n: nat, k: nat)
    requires ValidParams(p) && ValidInputs(x) && k < 4
    ensures Tally(Flows(p, x, season, n), Labelled(SeriesLabel(k))) == Count(Start(p, x), n, OnDay(Recurring()[k].dom))
  {
    hide Flows, Start, SeriesLabel, Labelled, Recurring, DayOfMonth, Tally;
    if n == 0 {
      NoFlowsYet(p, x, season, Labelled(SeriesLabel(k)));
    } else {
      SeriesTally(p, x, season, n - 1, k);
      SeriesOnDay(p, x, season, n - 1, k);
      assert Start(p, x) + n - 1 == Start(p, x) + (n - 1);
    }
  }

  lemma NoRecurringCollection(p: ForecastParams, x: Inputs, day: Day, iban: string)
    ensures Tally(RecurringOn(p, x, day, 4), Labelled(COLLECTION)) == 0
    ensures Tally(RecurringOn(p, x, day, 4), CollectedOn(iban)) == 0
  {
    hide RecurringOn, FlowRecord, SeriesFlow, Labelled, CollectedOn, SeriesLabel;
    forall k: nat | k < 4
      ensures !Labelled(COLLECTION)(FlowRecord(SeriesFlow(p, x, k, day)))
      ensures !CollectedOn(iban)(FlowRecord(SeriesFlow(p, x, k, day)))
    {
      RecurringStep(p, x, day, k);
      FlowRecordSeen(SeriesFlow(p, x, k, day), COLLECTION);
      CollectionSeen(SeriesFlow(p, x, k, day), iban);
      LabelsDiffer(k, k);
    }
    RecurringRejected(p, x, day, 4, Labelled(COLLECTION));
    RecurringRejected(p, x, day, 4, CollectedOn(iban));
  }

  lemma CollectionOnDay(p: ForecastParams, x: Inputs, season: SeasonFactor, offset: nat)
    requires ValidParams(p) && ValidInputs(x)
    ensures Tally(Flows(p, x, season, offset + 1), Labelled(COLLECTION))
              == Tally(Flows(p, x, season, offset), Labelled(COLLECTION)) + if Collects(p, Start(p, x) + offset) then 1 else 0
  {
    hide Flows, RecurringOn, VariableOn, Start, Labelled, FlowRecord, CollectionFlow, Collects, Tally;
    FlowsStep(p, x, season, offset, Labelled(COLLECTION));
    NoRecurringCollection(p, x, Start(p, x) + offset, "");
    VariableTally(p, x, season, offset, Labelled(COLLECTION));
    VariableStep(p, x, season, offset);
    FlowRecordSeen(CollectionFlow(p, x, season, offset), COLLECTION);
  }

  lemma {:induction false} CollectionTally(p: ForecastParams, x: Inputs, season: SeasonFactor, n: nat)
    requires ValidParams(p) && ValidInputs(x)
    ensures Tally(Flows(p, x, season, n), Labelled(COLLECTION)) == CollectionsBefore(p, x, n)
  {
    hide Flows, Start, Labelled, BusinessDay, Tally;
    if n == 0 {
      NoFlowsYet(p, x, season, Labelled(COLLECTION));
    } else {
      CollectionTally(p, x, season, n - 1);
      CollectionOnDay(p, x, season, n - 1);
      assert Start(p, x) + n - 1 == Start(p, x) + (n - 1);
    }
  }

  /** A collection falls on day `offset` and goes to an account with this IBAN. */
  function Turn(p: ForecastParams, x: Inputs, iban: string): nat -> bool
    requires ValidParams(p) && ValidInputs(x)
  {
    (offset: nat) => Collects(p, Start(p, x) + offset) && Iban(x, offset % p.accounts) == iban
  }

  lemma TurnOnDay(p: ForecastParams, x: Inputs, season: SeasonFactor, offset: nat, iban: string)
    requires ValidParams(p) && ValidInputs(x)
    ensures Tally(Flows(p, x, season, offset + 1), CollectedOn(iban))
            == Tally(Flows(p, x, season, offset), CollectedOn(iban)) + if Turn(p, x, iban)(offset) then 1 else 0
  {
    hide Flows, RecurringOn, VariableOn, Start, CollectedOn, FlowRecord, CollectionFlow, Collects, Tally, Iban;
    FlowsStep(p, x, season, offset, CollectedOn(iban));
    NoRecurringCollection(p, x, Start(p, x) + offset, iban);
    VariableTally(p, x, season, offset, CollectedOn(iban));
    VariableStep(p, x, season, offset);
    CollectionSeen(CollectionFlow(p, x, season, offset), iban);
  }

  lemma {:induction false} TurnTally(p: ForecastParams, x: Inputs, season: SeasonFactor, n: nat, iban: string)
    requires ValidParams(p) && ValidInputs(x)
    ensures Tally(Flows(p, x, season, n), CollectedOn(iban)) == CountBelow(n, Turn(p, x, iban))
  {
    hide Flows, CollectedOn, Turn, Tally;
    if n == 0 {
      NoFlowsYet(p, x, season, CollectedOn(iban));
    } else {
      TurnTally(p, x, season, n - 1, iban);
      TurnOnDay(p, x, season, n - 1, iban);
    }
  }

  lemma AccountsUncounted(x: Inputs, n: nat, seen: Record -> bool)
    requires forall r :: seen(r) ==> IsFlow(r)
    ensures Tally(AccountRecords(x, n), seen) == 0
  {
    hide DumpAccount, AccountNumber;
    TallyAll(AccountRecords(x, n), seen, false);
  }

  lemma RecordsTally(p: ForecastParams, x: Inputs, season: SeasonFactor, seen: Record -> bool)
    requires ValidParams(p) && ValidInputs(x) && forall r :: seen(r) ==> IsFlow(r)
    ensures Tally(Records(p, x, season), seen) == Tally(Flows(p, x, season, p.days), seen)
  {
    hide AccountRecords, Flows, IsFlow;
    TallyConcat(AccountRecords(x, p.accounts), Flows(p, x, season, p.days), seen);
    AccountsUncounted(x, p.accounts, seen);
  }

  // ---------------------------------------------------------------------------
  // How often
  // ---------------------------------------------------------------------------

  /** Each monthly series occurs once per due date of the window: at least once per full 31 days
      and at most once per 28 days begun. */
  lemma SeriesIsMonthly(p: ForecastParams, x: Inputs, season: SeasonFactor, k: nat)
    requires ValidParams(p) && ValidInputs(x) && k < 4
    ensures var occurrences := Tally(Records(p, x, season), Labelled(SeriesLabel(k)));
            && occurrences == Count(Start(p, x), p.days, OnDay(Recurring()[k].dom))
            && p.days / 31 <= occurrences <= (p.days + 27) / 28
  {
    hide Records, SeriesLabel, TextField, Start;
    RecordsTally(p, x, season, Labelled(SeriesLabel(k)));
    SeriesTally(p, x, season, p.days, k);
    MonthlyLower(Start(p, x), p.days, Recurring()[k].dom);
    MonthlyUpper(Start(p, x), p.days, Recurring()[k].dom);
  }

  /** There is a collection on every business day, so five per full week and, in what is left of
      the window, all days but at most two; none at all once the recurring share is everything. */
  lemma CollectionsAreDaily(p: ForecastParams, x: Inputs, season: SeasonFactor)
    requires ValidParams(p) && ValidInputs(x)
    ensures var collections := Tally(Records(p, x, season), Labelled(COLLECTION));
            if HasVariable(p) then
              && collections == Count(Start(p, x), p.days, Business())
              && 5 * (p.days / 7) + Max(0, p.days % 7 - 2) <= collections <= 5 * (p.days / 7) + Min(p.days % 7, 5)
            else collections == 0
  {
    hide Records, TextField, Start, Count, Business;
    RecordsTally(p, x, season, Labelled(COLLECTION));
    CollectionTally(p, x, season, p.days);
    BusinessInWindow(Start(p, x), p.days);
  }

  lemma {:induction false} RecurringAreFlows(p: ForecastParams, x: Inputs, day: Day, n: nat)
    requires n <= 4
    ensures forall r :: r in RecurringOn(p, x, day, n) ==> IsFlow(r)
  {
    hide DumpFlow, RecurringFlow, Iban, DayOfMonth, Recurring;
    if n > 0 {
      RecurringAreFlows(p, x, day, n - 1);
    }
  }

  lemma DayIsFlows(p: ForecastParams, x: Inputs, season: SeasonFactor, offset: nat)
    requires ValidParams(p) && ValidInputs(x)
    ensures forall r :: r in DayRecords(p, x, season, offset) ==> IsFlow(r)
  {
    hide RecurringOn, VariableOn, Start, CollectionFlow, FlowRecord, IsFlow, Collects;
    RecurringAreFlows(p, x, Start(p, x) + offset, 4);
    VariableStep(p, x, season, offset);
    FlowRecordSeen(CollectionFlow(p, x, season, offset), "");
  }

  lemma {:induction false} FlowsAreFlows(p: ForecastParams, x: Inputs, season: SeasonFactor, n: nat)
    requires ValidParams(p) && ValidInputs(x)
    ensures forall r :: r in Flows(p, x, season, n) ==> IsFlow(r)
  {
    hide DayRecords, IsFlow;
    if n > 0 {
      FlowsAreFlows(p, x, season, n - 1);
      DayIsFlows(p, x, season, n - 1);
    }
  }

  /** The manifest's history points are the cash flows of the batch. */
  lemma PointsAreTrue(p: ForecastParams, x: Inputs, season: SeasonFactor)
    requires ValidParams(p) && ValidInputs(x)
    ensures var m := Manifest(p, |Flows(p, x, season, p.days)|);
            && m.NDict? && "expected_history_points" in m.entries
            && m.entries["expected_history_points"] == NInt(Tally(Records(p, x, season), IsFlow))
  {
    hide Flows, Records, IsFlow, SeriesNames;
    RecordsTally(p, x, season, IsFlow);
    FlowsAreFlows(p, x, season, p.days);
    TallyAll(Flows(p, x, season, p.days), IsFlow, true);
  }

  // ---------------------------------------------------------------------------
  // The rotation
  // ---------------------------------------------------------------------------

  /** Of the weekdays `v`, `v + step`, `v + 2 step`, ... how many of the first `n` are business days. */
  function Hits(v: nat, step: nat, n: nat): nat {
    if n == 0 then 0 else Hits(v, step, n - 1) + if (v + step * (n - 1)) % 7 < 5 then 1 else 0
  }

  function OnWeekday(v: nat, k: nat): nat {
    if (v + k) % 7 < 5 then 1 else 0
  }

  lemma WholeWeek(v: nat)
    requires v < 7
    ensures OnWeekday(v, 0) + OnWeekday(v, 1) + OnWeekday(v, 2) + OnWeekday(v, 3)
            + OnWeekday(v, 4) + OnWeekday(v, 5) + OnWeekday(v, 6) == 5
  {
  }

  lemma Reduced(v: nat, k: nat, r: nat, q: nat)
    requires k == 7 * q + r
    ensures OnWeekday(v, k) == OnWeekday(v, r)
  {
  }

  /** Seven steps of a size that seven does not divide meet every weekday once. */
  lemma WeekOfSteps(v: nat, c: nat)
    requires v < 7 && 1 <= c < 7
    ensures OnWeekday(v, 0) + OnWeekday(v, c * 1) + OnWeekday(v, c * 2) + OnWeekday(v, c * 3)
            + OnWeekday(v, c * 4) + OnWeekday(v, c * 5) + OnWeekday(v, c * 6) == 5
  {
    hide OnWeekday;
    WholeWeek(v);
    if c == 1 {
    } else if c == 2 {
      Reduced(v, 8, 1, 1); Reduced(v, 10, 3, 1); Reduced(v, 12, 5, 1);
    } else if c == 3 {
      Reduced(v, 9, 2, 1); Reduced(v, 12, 5, 1); Reduced(v, 15, 1, 2); Reduced(v, 18, 4, 2);
    } else if c == 4 {
      Reduced(v, 8, 1, 1); Reduced(v, 12, 5, 1); Reduced(v, 16, 2, 2); Reduced(v, 20, 6, 2); Reduced(v, 24, 3, 3);
    } else if c == 5 {
      Reduced(v, 10, 3, 1); Reduced(v, 15, 1, 2); Reduced(v, 20, 6, 2); Reduced(v, 25, 4, 3); Reduced(v, 30, 2, 4);
    } else {
      Reduced(v, 12, 5, 1); Reduced(v, 18, 4, 2); Reduced(v, 24, 3, 3); Reduced(v, 30, 2, 4); Reduced(v, 36, 1, 5);
    }
  }

  lemma SameWeekday(v: nat, step: nat, j: nat)
    ensures (v + step * j) % 7 == (v % 7 + (step % 7) * j) % 7
  {
    var q, r := v / 7, step / 7;
    assert step * j == (7 * r + step % 7) * j == 7 * (r * j) + (step % 7) * j;
    assert v + step * j == 7 * (q + r * j) + (v % 7 + (step % 7) * j);
  }

  lemma HitsStep(v: nat, step: nat, n: nat)
    ensures Hits(v, step, n + 1) == Hits(v, step, n) + OnWeekday(v % 7, (step % 7) * n)
  {
    SameWeekday(v, step, n);
  }

  lemma SevenHits(v: nat, step: nat)
    requires step % 7 != 0
    ensures Hits(v, step, 7) == 5
  {
    assert Hits(v, step, 0) == 0;
    hide OnWeekday, Hits;
    HitsStep(v, step, 0);
    HitsStep(v, step, 1);
    HitsStep(v, step, 2);
    HitsStep(v, step, 3);
    HitsStep(v, step, 4);
    HitsStep(v, step, 5);
    HitsStep(v, step, 6);
    WeekOfSteps(v % 7, step % 7);
  }

  lemma {:induction false} NoHits(v: nat, step: nat, n: nat)
    requires step % 7 == 0 && v % 7 >= 5
    ensures Hits(v, step, n) == 0
  {
    if n > 0 {
      NoHits(v, step, n - 1);
      SameWeekday(v, step, n - 1);
    }
  }

  /** The turns of the account in place `i` of the rotation. */
  function Place(p: ForecastParams, x: Inputs, i: nat): nat -> bool
    requires ValidParams(p) && ValidInputs(x)
  {
    (offset: nat) => Collects(p, Start(p, x) + offset) && offset % p.accounts == i
  }

  lemma {:induction false} TimesMore(a: nat, q: int, s: int)
    requires q < s
    ensures a * q + a <= a * s
    decreases s - q
  {
    if q + 1 < s {
      TimesMore(a, q, s - 1);
    }
  }

  lemma QuotientUnique(a: nat, q: int, r: nat, s: int, t: nat)
    requires r < a && t < a && a * q + r == a * s + t
    ensures q == s && r == t
  {
    if q < s {
      TimesMore(a, q, s);
    } else if s < q {
      TimesMore(a, s, q);
    }
  }

  lemma Remainder(a: nat, m: nat, r: nat)
    requires r < a
    ensures (a * m + r) % a == r
  {
    var n := a * m + r;
    QuotientUnique(a, m, r, n / a, n % a);
  }

  /** One lap of the rotation comes by each account once. */
  lemma {:induction false} PartLap(p: ForecastParams, x: Inputs, i: nat, m: nat, r: nat)
    requires ValidParams(p) && ValidInputs(x) && i < p.accounts && r <= p.accounts
    ensures CountBelow(p.accounts * m + r, Place(p, x, i))
              == CountBelow(p.accounts * m, Place(p, x, i))
                 + if i < r && Collects(p, Start(p, x) + (p.accounts * m + i)) then 1 else 0
  {
    hide Collects, Start;
    if r > 0 {
      PartLap(p, x, i, m, r - 1);
      Remainder(p.accounts, m, r - 1);
    }
  }

  lemma OneLap(p: ForecastParams, x: Inputs, i: nat, m: nat)
    requires ValidParams(p) && ValidInputs(x) && i < p.accounts && HasVariable(p)
    ensures CountBelow(p.accounts * (m + 1), Place(p, x, i))
              == CountBelow(p.accounts * m, Place(p, x, i))
                 + if (Weekday(Start(p, x) + i) + p.accounts * m) % 7 < 5 then 1 else 0
  {
    hide Start, Weekday, CountBelow;
    PartLap(p, x, i, m, p.accounts);
    assert p.accounts * m + p.accounts == p.accounts * (m + 1);
    WeekdayAfter(Start(p, x) + i, p.accounts * m);
  }

  lemma {:induction false} Laps(p: ForecastParams, x: Inputs, i: nat, m: nat)
    requires ValidParams(p) && ValidInputs(x) && i < p.accounts && HasVariable(p)
    ensures CountBelow(p.accounts * m, Place(p, x, i)) == Hits(Weekday(Start(p, x) + i), p.accounts, m)
  {
    assert CountBelow(0, Place(p, x, i)) == 0;
    hide Start, Weekday, CountBelow;
    if m == 0 {
      assert p.accounts * m == 0;
    } else {
      Laps(p, x, i, m - 1);
      OneLap(p, x, i, m - 1);
    }
  }

  lemma CollectedAreFlows(iban: string)
    ensures forall r :: CollectedOn(iban)(r) ==> IsFlow(r)
  {
    forall r | CollectedOn(iban)(r) ensures IsFlow(r) {
      assert Labelled(COLLECTION)(r);
    }
  }

  /** No two accounts drew the same IBAN. */
  ghost predicate IbansDiffer(p: ForecastParams, x: Inputs) {
    forall i: nat, j: nat :: i < p.accounts && j < p.accounts && Iban(x, i) == Iban(x, j) ==> i == j
  }

  lemma PlaceIsTurn(p: ForecastParams, x: Inputs, season: SeasonFactor, i: nat)
    requires ValidParams(p) && ValidInputs(x) && i < p.accounts
    ensures Tally(Records(p, x, season), CollectedOn(Iban(x, i))) >= CountBelow(p.days, Place(p, x, i))
    ensures IbansDiffer(p, x) ==> Tally(Records(p, x, season), CollectedOn(Iban(x, i))) == CountBelow(p.days, Place(p, x, i))
  {
    hide Records, Iban, TextField, Collects, Start;
    CollectedAreFlows(Iban(x, i));
    RecordsTally(p, x, season, CollectedOn(Iban(x, i)));
    TurnTally(p, x, season, p.days, Iban(x, i));
    CountBelowFewer(p.days, Place(p, x, i), Turn(p, x, Iban(x, i)));
    if IbansDiffer(p, x) {
      CountBelowFewer(p.days, Turn(p, x, Iban(x, i)), Place(p, x, i));
    }
  }

  /** Unless there are seven accounts, each receives at least five collections. */
  lemma EveryAccountCollects(p: ForecastParams, x: Inputs, season: SeasonFactor, i: nat)
    requires ValidParams(p) && ValidInputs(x) && i < p.accounts && HasVariable(p)
    requires p.accounts != 7
    ensures Tally(Records(p, x, season), CollectedOn(Iban(x, i))) >= 5
  {
    hide Records, Iban, CollectedOn, Start, Weekday, CountBelow, Hits;
    PlaceIsTurn(p, x, season, i);
    Laps(p, x, i, 7);
    SevenHits(Weekday(Start(p, x) + i), p.accounts);
    CountBelowGrows(p.accounts * 7, p.days, Place(p, x, i));
  }

  lemma LapsOfSeven(p: ForecastParams, x: Inputs, i: nat)
    requires ValidParams(p) && ValidInputs(x) && p.accounts == 7 && i < 7 && HasVariable(p)
    ensures CountBelow(p.days, Place(p, x, i)) == 0 <==> Weekday(Start(p, x) + i) >= 5
  {
    hide Start, Weekday, CountBelow;
    var v := Weekday(Start(p, x) + i);
    if v >= 5 {
      Laps(p, x, i, p.days);
      NoHits(v, 7, p.days);
      CountBelowGrows(p.days, p.accounts * p.days, Place(p, x, i));
    } else {
      Laps(p, x, i, 1);
      assert Hits(v, 7, 1) == 1 + Hits(v, 7, 0);
      CountBelowGrows(7, p.days, Place(p, x, i));
    }
  }

  lemma TwoIdle(start: Day, idle: set<nat>)
    requires forall i: nat :: i in idle <==> i < 7 && Weekday(start + i) >= 5
    ensures |idle| == 2
  {
    var w := Weekday(start);
    var a, b := (12 - w) % 7, (13 - w) % 7;
    forall i: nat | i < 7 ensures i in idle <==> i == a || i == b {
      WeekdayAfter(start, i);
    }
    assert idle == {a, b};
  }

  /** The accounts no collection is ever received on. */
  ghost function Idle(p: ForecastParams, x: Inputs, season: SeasonFactor): set<nat>
    requires ValidParams(p) && ValidInputs(x)
  {
    set i: nat | i < p.accounts && Tally(Records(p, x, season), CollectedOn(Iban(x, i))) == 0
  }

  /** With seven accounts the rotation keeps step with the week, and exactly two accounts never
      receive a collection. */
  lemma SevenAccountsLeaveTwoIdle(p: ForecastParams, x: Inputs, season: SeasonFactor)
    requires ValidParams(p) && ValidInputs(x) && HasVariable(p)
    requires p.accounts == 7 && IbansDiffer(p, x)
    ensures |Idle(p, x, season)| == 2
  {
    hide Records, Iban, CollectedOn, Start, Weekday, CountBelow, Tally, IbansDiffer;
    forall i: nat | i < 7
      ensures Tally(Records(p, x, season), CollectedOn(Iban(x, i))) == 0 <==> Weekday(Start(p, x) + i) >= 5
    {
      PlaceIsTurn(p, x, season, i);
      LapsOfSeven(p, x, i);
    }
    TwoIdle(Start(p, x), Idle(p, x, season));
  }

  // ---------------------------------------------------------------------------
  // The dates
  // ---------------------------------------------------------------------------

  /** A cash flow of that day which the record models accept as it stands. */
  predicate FlowDated(r: Record, day: Day) {
    IsFlow(r) && ReadDay(r.payload, "value_date") == Some(day) && Validate(r) == Some(r)
  }

  ghost predicate HasFlowOn(rs: seq<Record>, day: Day) {
    exists r :: r in rs && FlowDated(r, day)
  }

  /** A day on which something falls due. */
  predicate Due(p: ForecastParams, day: Day) {
    DayOfMonth(day) == 28 || DayOfMonth(day) == 3 || DayOfMonth(day) == 5 || DayOfMonth(day) == 12 || Collects(p, day)
  }

  lemma ValidFlowDated(f: CashFlow)
    requires ValidFlow(f)
    ensures FlowDated(FlowRecord(f), f.valueDate)
    ensures forall d :: FlowDated(FlowRecord(f), d) ==> d == f.valueDate
  {
    hide DumpFlow, ReadFlow;
    FlowRoundTrip(f);
    FlowReads(f, DumpFlow(f));
  }

  lemma PlainFlowValid(stream: Stream, cur: nat, f: CashFlow)
    requires f.accountIban == IbanAt(stream, cur) && IsDecimal(f.amount) && f.currency == "EUR"
    requires f.valueDate <= MAX_DAY && f.bookedAt == None
    ensures ValidFlow(f)
  {
    hide IbanAt, IsDecimal;
    IbanAtValid(stream, cur);
  }

  lemma NaNIsDecimal()
    ensures IsDecimal("nan")
  {
    var s := "nan";
    assert !IsSpace(s[0]) && !IsSpace(s[2]) && '_' !in s;
    assert Trimmed(s) == s && Lower(s) == s && AllDigits(s[3..]);
  }

  lemma RecurringAmountValid(p: ForecastParams, s: Series)
    ensures IsDecimal(RecurringAmount(p, s))
  {
    hide Money, IsDecimal;
    NaNIsDecimal();
    if p.recurringRatio.Fin? { MoneyIsDecimal(Part(s.base, 2.0 * p.recurringRatio.r)); }
  }

  lemma VariableAmountValid(p: ForecastParams, season: SeasonFactor, day: Day, u: Unit)
    ensures IsDecimal(VariableAmount(p, season, day, u))
  {
    hide Money, IsDecimal, Part, UniformOf;
    NaNIsDecimal();
    if p.recurringRatio.Fin? && p.noise.Fin? {
      var collect := Part(3000.0 * (2.0 * (1.0 - p.recurringRatio.r)), season(day, p.seasonality));
      MoneyIsDecimal(Part(collect, 1.0 + UniformOf(u, -p.noise.r, p.noise.r)));
    }
  }

  lemma SeriesFlowValid(p: ForecastParams, x: Inputs, k: nat, day: Day)
    requires k < 4 && day <= MAX_DAY
    ensures ValidFlow(SeriesFlow(p, x, k, day)) && SeriesFlow(p, x, k, day).valueDate == day
  {
    hide IbanAt, Iso, ValidFlow, IsDecimal, RecurringAmount;
    RecurringAmountValid(p, Recurring()[k]);
    PlainFlowValid(x.stream, 0, SeriesFlow(p, x, k, day));
  }

  lemma CollectionFlowValid(p: ForecastParams, x: Inputs, season: SeasonFactor, offset: nat)
    requires ValidParams(p) && ValidInputs(x) && offset < p.days
    ensures ValidFlow(CollectionFlow(p, x, season, offset))
    ensures CollectionFlow(p, x, season, offset).valueDate == Start(p, x) + offset
  {
    hide IbanAt, Iso, ValidFlow, IsDecimal, VariableAmount, CollectionsBefore;
    var day, u := Start(p, x) + offset, x.stream(19 * p.accounts + CollectionsBefore(p, x, offset));
    VariableAmountValid(p, season, day, u);
    PlainFlowValid(x.stream, 19 * (offset % p.accounts), CollectionFlow(p, x, season, offset));
  }

  /** One of the first `n` series falls due. */
  predicate DueAmong(day: Day, n: nat)
    requires n <= 4
  {
    n > 0 && (DueAmong(day, n - 1) || DayOfMonth(day) == Recurring()[n - 1].dom)
  }

  lemma {:induction false} RecurringDates(p: ForecastParams, x: Inputs, day: Day, n: nat)
    requires n <= 4 && day <= MAX_DAY
    ensures forall r :: r in RecurringOn(p, x, day, n) ==> FlowDated(r, day)
    ensures RecurringOn(p, x, day, n) != [] <==> DueAmong(day, n)
  {
    hide RecurringOn, FlowDated, FlowRecord, SeriesFlow, SeriesLabel, DayOfMonth, Recurring, ValidFlow;
    if n == 0 {
      NoneDueYet(p, x, day);
    } else {
      RecurringDates(p, x, day, n - 1);
      RecurringStep(p, x, day, n - 1);
      SeriesFlowValid(p, x, n - 1, day);
      ValidFlowDated(SeriesFlow(p, x, n - 1, day));
    }
  }

  lemma DueAmongFour(day: Day)
    ensures DueAmong(day, 4)
      <==> DayOfMonth(day) == 28 || DayOfMonth(day) == 3 || DayOfMonth(day) == 5 || DayOfMonth(day) == 12
  {
    hide Recurring, DayOfMonth;
    assert DueAmong(day, 1) <==> DayOfMonth(day) == 28;
    assert DueAmong(day, 2) <==> DueAmong(day, 1) || DayOfMonth(day) == 3;
    assert DueAmong(day, 3) <==> DueAmong(day, 2) || DayOfMonth(day) == 5;
    assert DueAmong(day, 4) <==> DueAmong(day, 3) || DayOfMonth(day) == 12;
  }

  lemma VariableDates(p: ForecastParams, x: Inputs, season: SeasonFactor, offset: nat)
    requires ValidParams(p) && ValidInputs(x) && offset < p.days
    ensures forall r :: r in VariableOn(p, x, season, offset) ==> FlowDated(r, Start(p, x) + offset)
    ensures VariableOn(p, x, season, offset) != [] <==> Collects(p, Start(p, x) + offset)
  {
    hide VariableOn, FlowDated, FlowRecord, CollectionFlow, Collects, Start, ValidFlow;
    VariableStep(p, x, season, offset);
    CollectionFlowValid(p, x, season, offset);
    ValidFlowDated(CollectionFlow(p, x, season, offset));
  }

  lemma DayDates(p: ForecastParams, x: Inputs, season: SeasonFactor, offset: nat)
    requires ValidParams(p) && ValidInputs(x) && offset < p.days
    ensures forall r :: r in DayRecords(p, x, season, offset) ==> FlowDated(r, Start(p, x) + offset)
    ensures DayRecords(p, x, season, offset) != [] <==> Due(p, Start(p, x) + offset)
  {
    hide RecurringOn, VariableOn, FlowDated, DayOfMonth, Collects, DueAmong;
    RecurringDates(p, x, Start(p, x) + offset, 4);
    VariableDates(p, x, season, offset);
    DueAmongFour(Start(p, x) + offset);
  }

  lemma OneDay(r: Record, a: Day, b: Day)
    requires FlowDated(r, a) && FlowDated(r, b)
    ensures a == b
  {
  }

  lemma {:induction false} WindowDates(p: ForecastParams, x: Inputs, season: SeasonFactor, n: nat, day: Day)
    requires ValidParams(p) && ValidInputs(x) && n <= p.days
    ensures HasFlowOn(Flows(p, x, season, n), day) <==> Start(p, x) <= day < Start(p, x) + n && Due(p, day)
  {
    hide DayRecords, FlowDated, Start, Due;
    if n > 0 {
      WindowDates(p, x, season, n - 1, day);
      DayDates(p, x, season, n - 1);
      var before, today := Flows(p, x, season, n - 1), DayRecords(p, x, season, n - 1);
      if HasFlowOn(before + today, day) && !HasFlowOn(before, day) {
        var r :| r in before + today && FlowDated(r, day);
        assert r in today;
        OneDay(r, day, Start(p, x) + (n - 1));
      }
      if today != [] && day == Start(p, x) + (n - 1) {
        assert today[0] in before + today;
      }
      if HasFlowOn(before, day) {
        var r :| r in before && FlowDated(r, day);
        assert r in before + today;
      }
    }
  }

  lemma AccountIsNoFlow(p: ForecastParams, x: Inputs, r: Record, day: Day)
    requires FlowDated(r, day)
    ensures r !in AccountRecords(x, p.accounts)
  {
    hide DumpAccount, AccountNumber, Validate, ReadDay;
  }

  /** The batch has a flow, valid and dated that day, on exactly the days of the window on which a
      series falls due or a collection is made. */
  lemma DatesAreTrue(p: ForecastParams, x: Inputs, season: SeasonFactor, day: Day)
    requires ValidParams(p) && ValidInputs(x)
    ensures HasFlowOn(Records(p, x, season), day) <==> x.today - p.days < day <= x.today && Due(p, day)
  {
    hide FlowDated, Due, Flows, AccountRecords;
    WindowDates(p, x, season, p.days, day);
    var accounts, flows := AccountRecords(x, p.accounts), Flows(p, x, season, p.days);
    if HasFlowOn(Records(p, x, season), day) {
      var r :| r in accounts + flows && FlowDated(r, day);
      AccountIsNoFlow(p, x, r, day);
      assert r in flows;
    }
    if HasFlowOn(flows, day) {
      var r :| r in flows && FlowDated(r, day);
      assert r in accounts + flows;
    }
  }

  lemma DueBefore(day: Day, n: nat)
    requires n < 4 && DueAmong(day, n)
    ensures DayOfMonth(day) != Recurring()[n].dom
  {
    hide Recurring, DayOfMonth;
    assert DueAmong(day, 1) <==> DayOfMonth(day) == 28;
    assert DueAmong(day, 2) <==> DueAmong(day, 1) || DayOfMonth(day) == 3;
    assert DueAmong(day, 3) <==> DueAmong(day, 2) || DayOfMonth(day) == 5;
  }

  /** The four due days are different, so at most one series falls due on a day. */
  lemma {:induction false} AtMostOneDue(p: ForecastParams, x: Inputs, day: Day, n: nat)
    requires n <= 4
    ensures |RecurringOn(p, x, day, n)| == if DueAmong(day, n) then 1 else 0
  {
    hide RecurringOn, FlowRecord, SeriesFlow, SeriesLabel, DayOfMonth;
    if n == 0 {
      NoneDueYet(p, x, day);
    } else {
      AtMostOneDue(p, x, day, n - 1);
      RecurringStep(p, x, day, n - 1);
      if DueAmong(day, n - 1) { DueBefore(day, n - 1); }
    }
  }

  lemma DaySize(p: ForecastParams, x: Inputs, season: SeasonFactor, offset: nat)
    requires ValidParams(p) && ValidInputs(x)
    ensures |DayRecords(p, x, season, offset)| <= 2
  {
    hide RecurringOn, VariableOn, Start, DueAmong, Collects, FlowRecord, CollectionFlow;
    AtMostOneDue(p, x, Start(p, x) + offset, 4);
    VariableStep(p, x, season, offset);
  }

  lemma {:induction false} FlowsSize(p: ForecastParams, x: Inputs, season: SeasonFactor, n: nat)
    requires ValidParams(p) && ValidInputs(x)
    ensures |Flows(p, x, season, n)| <= 2 * n
  {
    hide DayRecords;
    if n > 0 {
      FlowsSize(p, x, season, n - 1);
      DaySize(p, x, season, n - 1);
    }
  }

  lemma RecordsSize(p: ForecastParams, x: Inputs, season: SeasonFactor)
    requires ValidParams(p) && ValidInputs(x)
    ensures |Records(p, x, season)| <= p.accounts + 2 * p.days <= 1470
  {
    hide Flows, AccountRecords;
    FlowsSize(p, x, season, p.days);
  }

  lemma {:induction false} FlowsValid(p: ForecastParams, x: Inputs, season: SeasonFactor, n: nat)
    requires ValidParams(p) && ValidInputs(x) && n <= p.days
    ensures forall r :: r in Flows(p, x, season, n) ==> Validate(r) == Some(r)
  {
    hide DayRecords, Start, Validate, ReadDay;
    if n > 0 {
      FlowsValid(p, x, season, n - 1);
      DayDates(p, x, season, n - 1);
    }
  }

  lemma AccountValid(x: Inputs, i: nat)
    ensures ValidAccount(AccountNumber(x, i))
  {
    hide IbanAt, Money, UniformOf, EntityLabel;
    IbanAtValid(x.stream, 19 * i);
    MoneyIsDecimal(UniformOf(x.stream(19 * i + 18), 100000.0, 400000.0));
  }

  lemma AccountsValid(x: Inputs, n: nat)
    ensures forall r :: r in AccountRecords(x, n) ==> Validate(r) == Some(r)
  {
    hide DumpAccount, ReadAccount, AccountNumber, ValidAccount;
    forall i | 0 <= i < n ensures Validate(AccountRecords(x, n)[i]) == Some(AccountRecords(x, n)[i]) {
      AccountValid(x, i);
      AccountRoundTrip(AccountNumber(x, i));
    }
  }

  /** Every record of the batch passes the record models unchanged. */
  lemma EveryRecordValid(p: ForecastParams, x: Inputs, season: SeasonFactor)
    requires ValidParams(p) && ValidInputs(x)
    ensures forall r :: r in Records(p, x, season) ==> Validate(r) == Some(r)
  {
    hide AccountRecords, Flows, Validate;
    AccountsValid(x, p.accounts);
    FlowsValid(p, x, season, p.days);
  }

  // ---------------------------------------------------------------------------
  // No accidental repeats
  // ---------------------------------------------------------------------------

  lemma VariableAreCollections(p: ForecastParams, x: Inputs, season: SeasonFactor, offset: nat)
    requires ValidParams(p) && ValidInputs(x)
    ensures |VariableOn(p, x, season, offset)| <= 1
    ensures forall r :: r in VariableOn(p, x, season, offset) ==> Labelled(COLLECTION)(r)
  {
    hide VariableOn, CollectionFlow, FlowRecord, Collects, Labelled, Start;
    VariableStep(p, x, season, offset);
    FlowRecordSeen(CollectionFlow(p, x, season, offset), COLLECTION);
  }

  lemma DayRepeatsNothing(p: ForecastParams, x: Inputs, season: SeasonFactor, offset: nat)
    requires ValidParams(p) && ValidInputs(x)
    ensures Repeats(DayRecords(p, x, season, offset)) == 0
  {
    hide RecurringOn, VariableOn, Labelled, CollectedOn, DueAmong, Start;
    var day := Start(p, x) + offset;
    var recurring, variable := RecurringOn(p, x, day, 4), VariableOn(p, x, season, offset);
    AtMostOneDue(p, x, day, 4);
    NoRecurringCollection(p, x, day, "");
    TallyZero(recurring, Labelled(COLLECTION));
    VariableAreCollections(p, x, season, offset);
    RepeatsDisjoint(recurring, variable);
    FewRepeatNot(recurring);
    FewRepeatNot(variable);
  }

  lemma {:induction false} FlowsDatedBefore(p: ForecastParams, x: Inputs, season: SeasonFactor, n: nat, r: Record, day: Day)
    requires ValidParams(p) && ValidInputs(x) && n <= p.days
    requires r in Flows(p, x, season, n) && FlowDated(r, day)
    ensures day < Start(p, x) + n
  {
    hide DayRecords, FlowDated, Start;
    if n > 0 {
      DayDates(p, x, season, n - 1);
      if r in Flows(p, x, season, n - 1) {
        FlowsDatedBefore(p, x, season, n - 1, r, day);
      } else {
        OneDay(r, day, Start(p, x) + (n - 1));
      }
    }
  }

  lemma {:induction false} FlowsRepeatNothing(p: ForecastParams, x: Inputs, season: SeasonFactor, n: nat)
    requires ValidParams(p) && ValidInputs(x) && n <= p.days
    ensures Repeats(Flows(p, x, season, n)) == 0
  {
    hide DayRecords, FlowDated, Start;
    if n > 0 {
      var before, today := Flows(p, x, season, n - 1), DayRecords(p, x, season, n - 1);
      FlowsRepeatNothing(p, x, season, n - 1);
      DayRepeatsNothing(p, x, season, n - 1);
      DayDates(p, x, season, n - 1);
      forall r | r in today ensures r !in before {
        if r in before { FlowsDatedBefore(p, x, season, n - 1, r, Start(p, x) + (n - 1)); }
      }
      RepeatsDisjoint(before, today);
    }
  }

  lemma AccountsDiffer(x: Inputs, i: nat, j: nat)
    ensures DumpAccount(AccountNumber(x, i)) == DumpAccount(AccountNumber(x, j)) ==> i == j
  {
    hide DumpAccount, Money, Iban, EntityLabel;
    AccountFields(AccountNumber(x, i));
    AccountFields(AccountNumber(x, j));
    var a, b := AccountNumber(x, i).caption, AccountNumber(x, j).caption;
    assert |"Compte courant "| == 15;
    assert a[15..] == Dec(i + 1) && b[15..] == Dec(j + 1);
  }

  lemma AccountsRepeatNothing(x: Inputs, n: nat)
    ensures Repeats(AccountRecords(x, n)) == 0
  {
    hide DumpAccount, AccountNumber;
    forall i: nat, j: nat | i < j < n ensures AccountRecords(x, n)[i] != AccountRecords(x, n)[j] {
      AccountsDiffer(x, i, j);
    }
    RepeatsZero(AccountRecords(x, n));
  }

  lemma AccountsAreAccounts(x: Inputs, n: nat)
    ensures forall r :: r in AccountRecords(x, n) ==> !IsFlow(r)
  {
    hide DumpAccount, AccountNumber;
  }

  /** No record is given an earlier one's message id and, with an injective hash, none an earlier
      one's source hash. */
  lemma NothingRepeats(p: ForecastParams, x: Inputs, season: SeasonFactor, format: string, prov: Emitter.Provenance,
                       sha: Emitter.Hasher)
    requires ValidParams(p) && ValidInputs(x)
    ensures var out := Emitter.Stamped(Records(p, x, season), format, prov, sha);
            && Repeats(Emitter.MessageIds(out)) == 0
            && (Emitter.Injective(sha) ==> Repeats(Emitter.SourceHashes(out)) == 0)
  {
    hide Flows, AccountRecords, Emitter.Stamped, Emitter.Injective, Validate;
    var accounts, flows := AccountRecords(x, p.accounts), Flows(p, x, season, p.days);
    AccountsRepeatNothing(x, p.accounts);
    FlowsRepeatNothing(p, x, season, p.days);
    FlowsAreFlows(p, x, season, p.days);
    AccountsAreAccounts(x, p.accounts);
    RepeatsDisjoint(accounts, flows);
    Emitter.RepeatedIds(Records(p, x, season), format, prov, sha);
    if Emitter.Injective(sha) {
      EveryRecordValid(p, x, season);
      Emitter.RepeatedHashesOfValid(Records(p, x, season), format, prov, sha);
    }
  }

  // ---------------------------------------------------------------------------
  // Seven accounts that differ
  // ---------------------------------------------------------------------------

  /** A stream in which the first digit of account `i`'s IBAN is `i`. */
  function SevenIbans(): Stream {
    (n: nat) => if n % 19 == 0 && n < 190 then (n / 19) as real / 10.0 else 0.0
  }

  lemma {:induction false} FirstDigit(stream: Stream, cur: nat, n: nat)
    requires n >= 1
    ensures DrawnDigits(stream, cur, n)[0] == Digit(IntOf(stream(cur), 0, 9))
  {
    if n > 1 {
      FirstDigit(stream, cur, n - 1);
    }
  }

  lemma TenthsDigit(i: nat)
    requires i < 10
    ensures 0.0 <= i as real / 10.0 < 1.0 && IntOf(i as real / 10.0, 0, 9) == i
  {
  }

  lemma IbanShowsAccount(x: Inputs, i: nat)
    requires x.stream == SevenIbans() && i < 10
    ensures Iban(x, i)[9] == Digit(i)
  {
    assert (19 * i) % 19 == 0 && (19 * i) / 19 == i;
    TenthsDigit(i);
    FirstDigit(x.stream, 19 * i, 18);
    assert |IBAN_PREFIX| == 9;
    assert Iban(x, i)[9] == DrawnDigits(x.stream, 19 * i, 18)[0];
  }

  /** There are streams for which the seven IBANs differ. */
  lemma SevenIbansExample(p: ForecastParams, target: string, today: Day)
    requires p.accounts == 7
    ensures IbansDiffer(p, Inputs(SevenIbans(), target, today))
  {
    hide Iban, SevenIbans;
    var x := Inputs(SevenIbans(), target, today);
    forall i: nat, j: nat | i < 7 && j < 7 && Iban(x, i) == Iban(x, j) ensures i == j {
      IbanShowsAccount(x, i);
      IbanShowsAccount(x, j);
      assert DigitValue(Digit(i)) == i && DigitValue(Digit(j)) == j;
    }
  }
}
