/** The proleptic Gregorian calendar behind Python's `date`: a day is its ordinal
    (`toordinal()`: 1 January of year 1 is day 1, a Monday). */
module Calendar {
  import opened Text
  import opened Options

  /** A day's ordinal. */
  type Day = n: int | 1 <= n witness 1

  datatype Date = Date(year: nat, month: nat, day: nat)

  predicate Leap(y: nat) {
    y % 4 == 0 && (y % 100 != 0 || y % 400 == 0)
  }

  function MonthLength(y: nat, m: nat): (n: nat)
    ensures 28 <= n <= 31
  {
    if m == 2 then (if Leap(y) then 29 else 28)
    else if m == 4 || m == 6 || m == 9 || m == 11 then 30
    else 31
  }

  predicate ValidDate(d: Date) {
    1 <= d.year && 1 <= d.month <= 12 && 1 <= d.day <= MonthLength(d.year, d.month)
  }

  function Next(d: Date): (r: Date)
    requires ValidDate(d)
    ensures ValidDate(r)
  {
    if d.day < MonthLength(d.year, d.month) then d.(day := d.day + 1)
    else if d.month < 12 then Date(d.year, d.month + 1, 1)
    else Date(d.year + 1, 1, 1)
  }

  /** `date.fromordinal`: the date so many days after the start of the calendar. */
  function DateOf(n: Day): (d: Date)
    ensures ValidDate(d)
  {
    if n == 1 then Date(1, 1, 1) else Next(DateOf(n - 1))
  }

  function DaysBeforeYear(y: nat): int
    requires y >= 1
  {
    var p := y - 1;
    p * 365 + p / 4 - p / 100 + p / 400
  }

  function DaysBeforeMonth(y: nat, m: nat): int
    requires 1 <= m <= 12
  {
    [0, 31, 59, 90, 120, 151, 181, 212, 243, 273, 304, 334][m - 1] + if m > 2 && Leap(y) then 1 else 0
  }

  /** `date.toordinal` in closed form. */
  function Ordinal(d: Date): int
    requires ValidDate(d)
  {
    DaysBeforeYear(d.year) + DaysBeforeMonth(d.year, d.month) + d.day
  }

  lemma Quotients(y: nat)
    requires y >= 1
    ensures (y - 1) / 4 == y / 4 - if y % 4 == 0 then 1 else 0
    ensures (y - 1) / 100 == y / 100 - if y % 100 == 0 then 1 else 0
  {
  }

  lemma Quotient400(y: nat)
    requires y >= 1
    ensures (y - 1) / 400 == y / 400 - if y % 400 == 0 then 1 else 0
  {
    var q, r := y / 400, y % 400;
    assert y == 400 * q + r;
  }

  lemma Multiples(y: nat)
    ensures y % 400 == 0 ==> y % 100 == 0
    ensures y % 100 == 0 ==> y % 4 == 0
  {
    if y % 400 == 0 { assert y == 100 * (4 * (y / 400)); }
    if y % 100 == 0 { assert y == 4 * (25 * (y / 100)); }
  }

  lemma YearLength(y: nat)
    requires y >= 1
    ensures DaysBeforeYear(y + 1) == DaysBeforeYear(y) + 365 + if Leap(y) then 1 else 0
  {
    Quotients(y);
    Quotient400(y);
    Multiples(y);
  }

  lemma OrdinalNext(d: Date)
    requires ValidDate(d)
    ensures Ordinal(Next(d)) == Ordinal(d) + 1
  {
    YearLength(d.year);
  }

  /** Counting days and the closed formula agree. */
  lemma {:induction false} OrdinalOfDate(n: Day)
    ensures Ordinal(DateOf(n)) == n
  {
    if n > 1 {
      OrdinalOfDate(n - 1);
      OrdinalNext(DateOf(n - 1));
    }
  }

  lemma DatesDiffer(a: Day, b: Day)
    ensures DateOf(a) == DateOf(b) <==> a == b
  {
    OrdinalOfDate(a);
    OrdinalOfDate(b);
  }

  lemma {:induction false} YearsGrow(y: nat, z: nat)
    requires 1 <= y <= z
    ensures DaysBeforeYear(y) + 365 * (z - y) <= DaysBeforeYear(z)
    decreases z
  {
    if y < z {
      YearsGrow(y, z - 1);
      YearLength(z - 1);
    }
  }

  lemma MonthsGrow(d: Date, e: Date)
    requires ValidDate(d) && ValidDate(e) && d.year == e.year && d.month < e.month
    ensures Ordinal(d) < Ordinal(e)
  {
    assert DaysBeforeMonth(d.year, d.month) + d.day <= DaysBeforeMonth(d.year, d.month + 1);
    assert DaysBeforeMonth(d.year, d.month + 1) <= DaysBeforeMonth(d.year, e.month);
  }

  lemma InYear(d: Date)
    requires ValidDate(d)
    ensures DaysBeforeYear(d.year) < Ordinal(d) <= DaysBeforeYear(d.year + 1)
  {
    YearLength(d.year);
  }

  lemma YearsOrder(d: Date, e: Date)
    requires ValidDate(d) && ValidDate(e) && d.year < e.year
    ensures Ordinal(d) < Ordinal(e)
  {
    YearsGrow(d.year + 1, e.year);
    InYear(d);
    InYear(e);
  }

  lemma OrdinalIdentifies(d: Date, e: Date)
    requires ValidDate(d) && ValidDate(e) && Ordinal(d) == Ordinal(e)
    ensures d == e
  {
    if d.year < e.year { YearsOrder(d, e); }
    if e.year < d.year { YearsOrder(e, d); }
    if d.month < e.month { MonthsGrow(d, e); }
    if e.month < d.month { MonthsGrow(e, d); }
  }

  /** The ordinal of a valid date leads back to that date. */
  lemma DateOfOrdinal(d: Date)
    requires ValidDate(d)
    ensures Ordinal(d) >= 1 && DateOf(Ordinal(d)) == d
  {
    YearsGrow(1, d.year);
    OrdinalOfDate(Ordinal(d));
    OrdinalIdentifies(DateOf(Ordinal(d)), d);
  }

  /** The last day Python's `date` can hold, 31 December 9999. */
  const MAX_DAY := 3652059

  lemma FourDigitYear(n: Day)
    requires n <= MAX_DAY
    ensures DateOf(n).year <= 9999
  {
    OrdinalOfDate(n);
    InYear(DateOf(n));
  }

  function DayOfMonth(n: Day): nat {
    DateOf(n).day
  }

  /** `weekday()`: Monday is 0. */
  function Weekday(n: Day): (w: nat)
    ensures w < 7
  {
    (n + 6) % 7
  }

  predicate BusinessDay(n: Day) {
    Weekday(n) < 5
  }

  // ---------------------------------------------------------------------------
  // Printed dates
  // ---------------------------------------------------------------------------

  function DateText(d: Date): string {
    Pad(d.year, 4) + ("-" + Pad(d.month, 2)) + ("-" + Pad(d.day, 2))
  }

  /** `isoformat()` of a date. */
  function Iso(n: Day): string {
    DateText(DateOf(n))
  }

  /** `isoformat()` of a date and time on a whole minute. */
  function IsoTime(n: Day, hour: nat, minute: nat): string {
    Iso(n) + ("T" + Pad(hour, 2) + (":" + Pad(minute, 2)) + ":00")
  }

  /** Reads a field of exactly `w` digits. */
  function ReadField(s: string, w: nat): (r: Option<nat>) {
    if |s| == w && AllDigits(s) && Value(s) >= 0 then Some(Value(s)) else None
  }

  lemma ReadFieldOf(n: nat)
    requires n < 100
    ensures ReadField(Pad(n, 2), 2) == Some(n)
  {
    DecWidth(n, 2);
  }

  /** Reads `YYYY-MM-DD`. */
  function ParseIso(s: string): (r: Option<Day>)
  {
    if |s| != 10 || s[4] != '-' || s[7] != '-' then None
    else
      match (ReadField(s[..4], 4), ReadField(s[5..7], 2), ReadField(s[8..], 2))
      case (Some(y), Some(m), Some(d)) =>
        if ValidDate(Date(y, m, d)) then DateOfOrdinal(Date(y, m, d)); Some(Ordinal(Date(y, m, d))) else None
      case _ => None
  }

  lemma DateTextParts(d: Date)
    requires ValidDate(d) && d.year <= 9999
    ensures var s := DateText(d);
            |s| == 10 && s[4] == '-' && s[7] == '-'
            && s[..4] == Pad(d.year, 4) && s[5..7] == Pad(d.month, 2) && s[8..] == Pad(d.day, 2)
  {
    DecWidth(d.year, 4);
    DecWidth(d.month, 2);
    DecWidth(d.day, 2);
  }

  /** Reading a printed date gives the day back. */
  lemma ParseIsoOf(n: Day)
    requires n <= MAX_DAY
    ensures ParseIso(Iso(n)) == Some(n)
  {
    FourDigitYear(n);
    DateTextParts(DateOf(n));
    DecWidth(DateOf(n).year, 4);
    DecWidth(DateOf(n).month, 2);
    DecWidth(DateOf(n).day, 2);
    OrdinalOfDate(n);
  }

  lemma LastDay(d: Date)
    requires ValidDate(d) && d.year <= 9999
    ensures Ordinal(d) <= MAX_DAY
  {
    InYear(d);
    YearsGrow(d.year + 1, 10000);
  }

  lemma ParsedFields(s: string)
    requires ParseIso(s).Some?
    ensures |s| == 10 && Value(s[..4]) >= 0 && Value(s[5..7]) >= 0 && Value(s[8..]) >= 0
    ensures var d := Date(Value(s[..4]), Value(s[5..7]), Value(s[8..]));
            ValidDate(d) && d.year <= 9999 && ParseIso(s) == Some(Ordinal(d)) && DateText(d) == s
  {
    hide Ordinal, Value, Pad, ValidDate;
    PadOfValue(s[..4]);
    PadOfValue(s[5..7]);
    PadOfValue(s[8..]);
    ValueBound(s[..4], 4);
    assert s == s[..4] + ("-" + s[5..7]) + ("-" + s[8..]);
  }

  /** Only what a day prints as is read as that day. */
  lemma ParseIsoOnly(s: string)
    requires ParseIso(s).Some?
    ensures ParseIso(s).value <= MAX_DAY && Iso(ParseIso(s).value) == s
  {
    hide ParseIso, Ordinal, Pad, Value, DateOf, ValidDate;
    ParsedFields(s);
    var d := Date(Value(s[..4]), Value(s[5..7]), Value(s[8..]));
    DateOfOrdinal(d);
    LastDay(d);
  }

  lemma PadOfTwo(a: char, b: char)
    requires IsDigit(a) && IsDigit(b)
    ensures var n := 10 * DigitValue(a) + DigitValue(b); n >= 0 && Pad(n, 2) == [a, b]
  {
    assert [a, b][..1] == [a] && [a][..0] == [];
    assert Value([a]) == DigitValue(a) && Value([a, b]) == 10 * Value([a]) + DigitValue(b);
    PadOfValue([a, b]);
  }

  lemma PadOfFour(s: string)
    requires |s| == 4 && AllDigits(s)
    ensures var n := 1000 * DigitValue(s[0]) + 100 * DigitValue(s[1]) + 10 * DigitValue(s[2]) + DigitValue(s[3]);
            n >= 0 && Pad(n, 4) == s
  {
    assert s[..3][..2] == s[..2] && s[..2][..1] == s[..1] && s[..1][..0] == [];
    assert Value(s[..1]) == DigitValue(s[0]) && Value(s[..2]) == 10 * Value(s[..1]) + DigitValue(s[1]);
    assert Value(s[..3]) == 10 * Value(s[..2]) + DigitValue(s[2]);
    assert Value(s) == 10 * Value(s[..3]) + DigitValue(s[3]);
    PadOfValue(s);
  }

  /** Two known days, their weekdays and their print. */
  lemma KnownDays()
    ensures DateOf(719163) == Date(1970, 1, 1) && Weekday(719163) == 3
    ensures DateOf(738945) == Date(2024, 2, 29) && Iso(738945) == "2024-02-29"
    ensures IsoTime(738945, 3, 0) == "2024-02-29T03:00:00"
  {
    hide DateOf, Pad;
    DateOfOrdinal(Date(1970, 1, 1));
    DateOfOrdinal(Date(2024, 2, 29));
    PadOfTwo('0', '2');
    PadOfTwo('2', '9');
    PadOfTwo('0', '3');
    PadOfTwo('0', '0');
    PadOfFour("2024");
    assert "2024"[0] == '2' && "2024"[1] == '0' && "2024"[2] == '2' && "2024"[3] == '4';
  }

  lemma SplitTail(a: string, b: string, c: string, d: string)
    requires |b| == |d| && a + b == c + d
    ensures a == c && b == d
  {
    assert |a| == |c|;
    assert a == (a + b)[..|a|] && c == (c + d)[..|a|];
    assert b == (a + b)[|a|..] && d == (c + d)[|a|..];
  }

  lemma DateTextIdentifies(d: Date, e: Date)
    requires ValidDate(d) && ValidDate(e)
    requires DateText(d) == DateText(e)
    ensures d == e
  {
    DecWidth(d.month, 2);
    DecWidth(e.month, 2);
    DecWidth(d.day, 2);
    DecWidth(e.day, 2);
    SplitTail(Pad(d.year, 4) + ("-" + Pad(d.month, 2)), "-" + Pad(d.day, 2),
              Pad(e.year, 4) + ("-" + Pad(e.month, 2)), "-" + Pad(e.day, 2));
    SplitTail(Pad(d.year, 4), "-" + Pad(d.month, 2), Pad(e.year, 4), "-" + Pad(e.month, 2));
    SplitTail("-", Pad(d.month, 2), "-", Pad(e.month, 2));
    SplitTail("-", Pad(d.day, 2), "-", Pad(e.day, 2));
  }

  /** Two days print alike only when they are the same day. */
  lemma IsoIdentifies(a: Day, b: Day)
    ensures Iso(a) == Iso(b) <==> a == b
  {
    if Iso(a) == Iso(b) {
      DateTextIdentifies(DateOf(a), DateOf(b));
      DatesDiffer(a, b);
    }
  }

  // ---------------------------------------------------------------------------
  // How often a day of the month, or a business day, falls in a window
  // ---------------------------------------------------------------------------

  /** The days of `[start, start + days)` on which `p` holds. */
  function Count(start: Day, days: nat, p: Day -> bool): (c: nat)
    ensures c <= days
  {
    if days == 0 then 0 else Count(start, days - 1, p) + if p(start + days - 1) then 1 else 0
  }

  lemma {:induction false} CountSplit(start: Day, a: nat, b: nat, p: Day -> bool)
    ensures Count(start, a + b, p) == Count(start, a, p) + Count(start + a, b, p)
  {
    if b > 0 {
      CountSplit(start, a, b - 1, p);
      assert start + (a + b) - 1 == start + a + b - 1;
    }
  }

  function OnDay(dom: nat): Day -> bool {
    (n: Day) => DayOfMonth(n) == dom
  }

  lemma {:induction false} WithinMonth(n: Day, k: nat)
    requires DayOfMonth(n) + k <= MonthLength(DateOf(n).year, DateOf(n).month)
    ensures DateOf(n + k) == DateOf(n).(day := DayOfMonth(n) + k)
  {
    if k > 0 {
      WithinMonth(n, k - 1);
    }
  }

  /** Days left in the month after day `n`. */
  function DaysLeft(n: Day): nat {
    var d := DateOf(n);
    MonthLength(d.year, d.month) - d.day
  }

  lemma NextMonth(n: Day)
    ensures DayOfMonth(n + DaysLeft(n) + 1) == 1
  {
    WithinMonth(n, DaysLeft(n));
  }

  /** Where the calendar stands `k` days after day `n`, for `k` up to 28 days past the month's end. */
  lemma DayAfter(n: Day, k: nat)
    requires k <= DaysLeft(n) + 28
    ensures DayOfMonth(n + k) == if k <= DaysLeft(n) then DayOfMonth(n) + k else k - DaysLeft(n)
  {
    if k <= DaysLeft(n) {
      WithinMonth(n, k);
    } else {
      var first := n + DaysLeft(n) + 1;
      NextMonth(n);
      WithinMonth(first, k - DaysLeft(n) - 1);
    }
  }

  lemma {:induction false} CountAtLeastOne(start: Day, days: nat, p: Day -> bool, k: nat)
    requires k < days && p(start + k)
    ensures Count(start, days, p) >= 1
  {
    if k < days - 1 {
      CountAtLeastOne(start, days - 1, p, k);
    }
  }

  lemma {:induction false} CountNone(start: Day, days: nat, p: Day -> bool)
    requires forall n: Day :: start <= n < start + days ==> !p(n)
    ensures Count(start, days, p) == 0
  {
    if days > 0 {
      CountNone(start, days - 1, p);
    }
  }

  /** Any 31 days in a row contain each day of the month up to the 28th. */
  lemma EveryMonthHasIt(start: Day, dom: nat)
    requires 1 <= dom <= 28
    ensures Count(start, 31, OnDay(dom)) >= 1
  {
    var d := DayOfMonth(start);
    var k := if d <= dom then dom - d else DaysLeft(start) + dom;
    DayAfter(start, k);
    CountAtLeastOne(start, 31, OnDay(dom), k);
  }

  /** A day of the month up to the 28th does not come back within 27 days. */
  lemma NotAgain(start: Day, n: Day)
    requires DayOfMonth(start) <= 28 && start < n < start + 28
    ensures DayOfMonth(n) != DayOfMonth(start)
  {
    DayAfter(start, n - start);
  }

  lemma {:induction false} CountAtMostOne(start: Day, days: nat, p: Day -> bool)
    requires forall a: Day, b: Day :: start <= a < b < start + days && p(a) ==> !p(b)
    ensures Count(start, days, p) <= 1
  {
    if days > 0 {
      CountAtMostOne(start, days - 1, p);
      if p(start + days - 1) {
        CountNone(start, days - 1, p);
      }
    }
  }

  /** Any 28 days in a row contain it at most once. */
  lemma AtMostOnce(start: Day, days: nat, dom: nat)
    requires 1 <= dom <= 28 && days <= 28
    ensures Count(start, days, OnDay(dom)) <= 1
  {
    forall a: Day, b: Day | start <= a < b < start + days && OnDay(dom)(a) ensures !OnDay(dom)(b) {
      NotAgain(a, b);
    }
    CountAtMostOne(start, days, OnDay(dom));
  }

  /** A monthly series occurs at least once per 31 days and at most once per 28 begun. */
  lemma {:induction false} MonthlyLower(start: Day, days: nat, dom: nat)
    requires 1 <= dom <= 28
    ensures Count(start, days, OnDay(dom)) >= days / 31
    decreases days
  {
    if days >= 31 {
      EveryMonthHasIt(start, dom);
      CountSplit(start, 31, days - 31, OnDay(dom));
      MonthlyLower(start + 31, days - 31, dom);
    }
  }

  lemma {:induction false} MonthlyUpper(start: Day, days: nat, dom: nat)
    requires 1 <= dom <= 28
    ensures Count(start, days, OnDay(dom)) <= (days + 27) / 28
    decreases days
  {
    if days < 28 {
      AtMostOnce(start, days, dom);
    } else {
      AtMostOnce(start, 28, dom);
      CountSplit(start, 28, days - 28, OnDay(dom));
      MonthlyUpper(start + 28, days - 28, dom);
    }
  }

  function Business(): Day -> bool {
    (n: Day) => BusinessDay(n)
  }

  function Max(a: int, b: int): int { if a < b then b else a }
  function Min(a: int, b: int): int { if a < b then a else b }

  /** Business days among the first `x` days of a calendar that starts on a Monday. */
  function BusinessFromMonday(x: nat): nat {
    if x == 0 then 0 else BusinessFromMonday(x - 1) + if (x - 1) % 7 < 5 then 1 else 0
  }

  lemma Mod7(q: int, r: nat)
    requires r < 7
    ensures (7 * q + r) % 7 == r
  {
  }

  lemma {:induction false} Week(q: nat, r: nat)
    requires r < 7
    ensures BusinessFromMonday(7 * q + r) == 5 * q + Min(r, 5)
    decreases q, r
  {
    if r > 0 {
      Week(q, r - 1);
      Mod7(q, r - 1);
    } else if q > 0 {
      Week(q - 1, 6);
      Mod7(q - 1, 6);
    }
  }

  lemma WeekdayAfter(n: Day, k: nat)
    ensures Weekday(n + k) == (Weekday(n) + k) % 7
  {
  }

  lemma OneMore(start: Day, days: nat)
    ensures Count(start, days + 1, Business())
            == Count(start, days, Business()) + if (Weekday(start) + days) % 7 < 5 then 1 else 0
  {
    WeekdayAfter(start, days);
  }

  lemma {:induction false} BusinessExact(start: Day, days: nat)
    ensures Count(start, days, Business()) == BusinessFromMonday(Weekday(start) + days) - BusinessFromMonday(Weekday(start))
    decreases days
  {
    if days > 0 {
      BusinessExact(start, days - 1);
      OneMore(start, days - 1);
    }
  }

  lemma BusinessBounds(w: nat, q: nat, r: nat)
    requires w < 7 && r < 7
    ensures 5 * q + Max(0, r - 2) <= BusinessFromMonday(w + (7 * q + r)) - BusinessFromMonday(w) <= 5 * q + Min(r, 5)
  {
    Week(0, w);
    if w + r < 7 {
      Week(q, w + r);
      assert 7 * q + (w + r) == w + (7 * q + r);
    } else {
      Week(q + 1, w + r - 7);
      assert 7 * (q + 1) + (w + r - 7) == w + (7 * q + r);
    }
  }

  /** Five business days per full week, and the rest of the window within two of its length. */
  lemma BusinessInWindow(start: Day, days: nat)
    ensures 5 * (days / 7) + Max(0, days % 7 - 2) <= Count(start, days, Business()) <= 5 * (days / 7) + Min(days % 7, 5)
  {
    BusinessExact(start, days);
    BusinessBounds(Weekday(start), days / 7, days % 7);
  }
}
