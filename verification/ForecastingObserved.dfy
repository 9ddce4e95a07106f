/** The forecasting batch as an observer sees it: which parameters it was made for, what the manifest
    says, and what is in each record. */
module ForecastingObserved {
  import opened Options
  import opened Text
  import opened Decimals
  import opened Random
  import opened Calendar
  import opened Models
  import opened Fabrication
  import opened GroundTruth
  import opened Params
  import opened CoercionTruth
  import opened Forecasting
  import opened ForecastingTruth

  // ---------------------------------------------------------------------------
  // Parameters
  // ---------------------------------------------------------------------------

  /** The seasonality asked for, `monthly` unless one of the three is named. */
  function SeasonSent(params: map<string, Param>): string {
    OptionSent(params, "seasonality", "monthly", ["none", "weekly", "monthly"])
  }

  /** Which text asks for which seasonality. */
  predicate Names(name: string, s: Seasonality) {
    match s
    case NoSeason => name == "none"
    case Weekly => name == "weekly"
    case Monthly => name == "monthly"
  }

  lemma ReadSeasonNames(name: string)
    requires name in SeasonNames()
    ensures Names(name, ReadSeason(name))
  {
    assert |"none"| == 4 && |"weekly"| == 6 && |"monthly"| == 7;
  }

  lemma SeasonSentIsName(params: map<string, Param>)
    ensures SeasonSent(params) in SeasonNames()
    ensures SeasonSent(params) == OptionSent(params, "seasonality", "monthly", SeasonNames())
  {
    assert SeasonNames()[2] == "monthly";
  }

  /** What a run is made for: the numbers sent, or 120 days, three accounts and the default shares. */
  lemma ParamsAreSent(params: map<string, Param>, p: ForecastParams)
    requires CoercedFrom(params, p)
    ensures p.days == WholeSent(params, "days", 120, 90, 730)
    ensures p.accounts == WholeSent(params, "accounts", 3, 1, 10)
    ensures Names(SeasonSent(params), p.seasonality)
    ensures p.recurringRatio == RatioSent(params, "recurring_ratio", 0.6)
    ensures p.noise == RatioSent(params, "noise", 0.1)
  {
    hide IntSpec, FloatSpec, EnumSpec, CoercesTo, IntOr, FloatOr, TextOf, WholeSent, RatioSent, OptionSent;
    hide SeasonNames, SeasonSent;
    hide Names, ReadSeason, WellFormed;
    var out :| CoercesTo(Schema(), params, out) && ReadParams(out) == p;
    WholeIsSent(Schema(), params, out, 0, "days", 120, 90, 730, 0);
    WholeIsSent(Schema(), params, out, 1, "accounts", 3, 1, 10, 0);
    OptionIsSent(Schema(), params, out, 2, "seasonality", "monthly", SeasonNames());
    RatioIsSent(Schema(), params, out, 3, "recurring_ratio", 0.6, NaN);
    RatioIsSent(Schema(), params, out, 4, "noise", 0.1, NaN);
    SeasonSentIsName(params);
    ReadSeasonNames(SeasonSent(params));
    CoercedInt(Schema(), params, out, 0, "days", 120, 90, 730, 0);
    CoercedInt(Schema(), params, out, 1, "accounts", 3, 1, 10, 0);
  }

  /** A request without parameters. */
  lemma DefaultParams(p: ForecastParams)
    requires CoercedFrom(map[], p)
    ensures p == ForecastParams(120, 3, Monthly, Fin(0.6), Fin(0.1))
  {
    hide CoercedFrom, ToInt;
    ParamsAreSent(map[], p);
    assert SeasonSent(map[]) == "monthly";
    assert |"none"| == 4 && |"weekly"| == 6 && |"monthly"| == 7;
  }

  // ---------------------------------------------------------------------------
  // The manifest
  // ---------------------------------------------------------------------------

  /** The manifest names the days asked for and the four series. */
  lemma ManifestSays(p: ForecastParams, points: nat)
    ensures var m := Manifest(p, points);
            && m.NDict? && "days" in m.entries && "recurring_series" in m.entries
            && m.entries["days"] == NInt(p.days)
            && m.entries["recurring_series"]
               == NList([NText("salaries"), NText("rent"), NText("subscription"), NText("customer_invoices")])
  {
    var names := SeriesNames(4);
    assert names == [NText("salaries"), NText("rent"), NText("subscription"), NText("customer_invoices")];
    hide SeriesNames;
    assert |"days"| == 4 && |"recurring_series"| == 16 && |"expected_history_points"| == 23;
  }

  // ---------------------------------------------------------------------------
  // The records
  // ---------------------------------------------------------------------------

  lemma {:induction false} SeriesOf(p: ForecastParams, x: Inputs, day: Day, n: nat, r: Record) returns (k: nat)
    requires n <= 4 && r in RecurringOn(p, x, day, n)
    ensures k < n && r == FlowRecord(SeriesFlow(p, x, k, day)) && DayOfMonth(day) == Recurring()[k].dom
  {
    hide RecurringOn, FlowRecord, SeriesFlow, DayOfMonth, Recurring, SeriesLabel;
    if n == 0 {
      NoneDueYet(p, x, day);
    } else {
      RecurringStep(p, x, day, n - 1);
      if r in RecurringOn(p, x, day, n - 1) {
        k := SeriesOf(p, x, day, n - 1, r);
      } else {
        k := n - 1;
      }
    }
  }

  /** Every flow of the batch is a series' on a day that is its own, or a collection. */
  lemma {:induction false} FlowsAreThese(p: ForecastParams, x: Inputs, season: SeasonFactor, n: nat, r: Record)
      returns (offset: nat, k: nat)
    requires ValidParams(p) && ValidInputs(x) && r in Flows(p, x, season, n)
    ensures offset < n
    ensures (k < 4 && r == FlowRecord(SeriesFlow(p, x, k, Start(p, x) + offset))
             && DayOfMonth(Start(p, x) + offset) == Recurring()[k].dom)
            || (Collects(p, Start(p, x) + offset) && r == FlowRecord(CollectionFlow(p, x, season, offset)))
  {
    hide RecurringOn, VariableOn, Start, FlowRecord, SeriesFlow, CollectionFlow, Collects;
    if r in Flows(p, x, season, n - 1) {
      offset, k := FlowsAreThese(p, x, season, n - 1, r);
    } else {
      offset := n - 1;
      VariableStep(p, x, season, offset);
      if r in RecurringOn(p, x, Start(p, x) + offset, 4) {
        k := SeriesOf(p, x, Start(p, x) + offset, 4, r);
      } else {
        k := 4;
      }
    }
  }

  /** A flow in euros on an account, with the given texts and no time of day. */
  predicate Plain(f: CashFlow, iban: string, direction: Direction, name: string, caption: string, ref: string,
                  category: string) {
    && f.accountIban == iban && f.currency == "EUR" && f.bookedAt == None && f.direction == direction
    && f.counterparty == name && f.caption == caption && f.ref == Some(ref) && f.categoryHint == Some(category)
  }

  /** The printed amount is within half a cent of twice the ratio times the base, or `nan`. */
  predicate Scaled(amount: string, base: real, ratio: Float) {
    match ratio
    case Fin(r) => ParseDecimal(amount).Finite? && Abs(ParseDecimal(amount).value - Part(base, 2.0 * r)) <= 0.005
    case _ => amount == "nan"
  }

  lemma ScaledAmount(p: ForecastParams, s: Series)
    ensures Scaled(RecurringAmount(p, s), s.base, if p.recurringRatio.Fin? then p.recurringRatio else NaN)
    ensures p.recurringRatio.Fin? || Scaled(RecurringAmount(p, s), s.base, p.recurringRatio)
  {
    hide Money, ParseDecimal, Part;
    if p.recurringRatio.Fin? { MoneyReads(Part(s.base, 2.0 * p.recurringRatio.r)); }
  }

  /** The four series, with what they are called, when they fall due, their base amounts and texts. */
  lemma SeriesTable()
    ensures var rs := Recurring();
            && rs[0] == Series("salaries", 28, -42000.0, Debit, "Paie Groupe Simulée", "payroll")
            && rs[1] == Series("rent", 3, -8500.0, Debit, "Foncière Simulée", "rent")
            && rs[2] == Series("subscription", 5, -1200.0, Debit, "Logiciels Simulés SAS", "saas")
            && rs[3] == Series("customer_invoices", 12, 55000.0, Credit, "Client Orion SAS", "sales")
  {
  }

  /** What an observer reads in the flow of a series: who is paid or pays, from the first account, and
      how much. */
  lemma SeriesReads(p: ForecastParams, x: Inputs, k: nat, day: Day)
    requires k < 4 && day <= MAX_DAY
    ensures var f, s := SeriesFlow(p, x, k, day), Recurring()[k];
            && ReadFlow(FlowRecord(f).payload) == Some(f) && f.valueDate == day
            && Plain(f, Iban(x, 0), s.direction, s.counterparty, "Récurrent " + s.name, "REC-" + s.name + ("-" + Iso(day)), s.category)
            && (p.recurringRatio.Fin? || p.recurringRatio == NaN ==> Scaled(f.amount, s.base, p.recurringRatio))
  {
    hide Iso, DumpFlow, ReadFlow, ValidFlow, IbanAt, Scaled, Recurring, RecurringAmount;
    SeriesFlowValid(p, x, k, day);
    FlowRoundTrip(SeriesFlow(p, x, k, day));
    ScaledAmount(p, Recurring()[k]);
  }

  /** The printed amount is within half a cent of the collected mass, give or take a share `off`. */
  predicate Collected(amount: string, mass: real, off: real) {
    ParseDecimal(amount).Finite? && Abs(ParseDecimal(amount).value - Part(mass, 1.0 + off)) <= 0.005
  }

  ghost predicate CollectedWithin(amount: string, mass: real, noise: real) {
    exists off: real :: -noise <= off <= noise && Collected(amount, mass, off)
  }

  /** What an observer reads in a collection: on the account whose turn it is, twice the rest of the mass
      times 3000 and the season, give or take the noise. */
  lemma CollectionReads(p: ForecastParams, x: Inputs, season: SeasonFactor, offset: nat)
    requires ValidParams(p) && ValidInputs(x) && offset < p.days
    ensures var f, day := CollectionFlow(p, x, season, offset), Start(p, x) + offset;
            && ReadFlow(FlowRecord(f).payload) == Some(f) && f.valueDate == day
            && Plain(f, Iban(x, offset % p.accounts), Credit, "Encaissements Clients Divers", "Encaissement variable",
                     "VAR-" + Iso(day) + ("-" + Dec(offset)), "sales")
            && (p.recurringRatio.Fin? && p.noise.Fin? ==>
                  CollectedWithin(f.amount, Part(6000.0 * (1.0 - p.recurringRatio.r), season(day, p.seasonality)), p.noise.r))
            && (!p.recurringRatio.Fin? || !p.noise.Fin? ==> f.amount == "nan")
  {
    hide Iso, DumpFlow, ReadFlow, ValidFlow, IbanAt, Money, ParseDecimal, Part, Dec, CollectionsBefore, UniformOf;
    CollectionFlowValid(p, x, season, offset);
    FlowRoundTrip(CollectionFlow(p, x, season, offset));
    if p.recurringRatio.Fin? && p.noise.Fin? {
      var u := x.stream(19 * p.accounts + CollectionsBefore(p, x, offset));
      var off := UniformOf(u, -p.noise.r, p.noise.r);
      UniformRange(u, -p.noise.r, p.noise.r);
      assert 3000.0 * (2.0 * (1.0 - p.recurringRatio.r)) == 6000.0 * (1.0 - p.recurringRatio.r);
      var mass := Part(6000.0 * (1.0 - p.recurringRatio.r), season(Start(p, x) + offset, p.seasonality));
      MoneyReads(Part(mass, 1.0 + off));
      assert Collected(CollectionFlow(p, x, season, offset).amount, mass, off);
    }
  }

  /** The season of the code: one, or one plus a quarter of the sine of the day's place in its week or
      its month, counted in turns. */
  function Seasonal(sine: real -> real): SeasonFactor {
    (day: Day, mode: Seasonality) =>
      match mode
      case NoSeason => 1.0
      case Weekly => 1.0 + 0.25 * sine(Weekday(day) as real / 7.0)
      case Monthly => 1.0 + 0.25 * sine((DayOfMonth(day) - 1) as real / 30.0)
  }

  lemma SeasonBounds(sine: real -> real, day: Day, mode: Seasonality)
    requires forall turn :: -1.0 <= sine(turn) <= 1.0
    ensures 0.75 <= Seasonal(sine)(day, mode) <= 1.25
    ensures Seasonal(sine)(day, NoSeason) == 1.0
  {
  }

  lemma Flipped(a: real, b: real, u: real)
    requires a <= b && 0.0 <= u
    ensures Part(a, u) <= Part(b, u)
  {
    PartMonotone(u, a, b);
    assert Part(a, u) == Part(u, a) && Part(b, u) == Part(u, b);
  }

  lemma PartBetween(base: real, s: real, noise: real, off: real)
    requires 0.0 <= base && 0.75 <= s <= 1.25 && 0.0 <= noise <= 1.0 && -noise <= off <= noise
    ensures 0.0 <= Part(0.75 * base, 1.0 - noise) <= Part(Part(base, s), 1.0 + off) <= Part(1.25 * base, 1.0 + noise)
  {
    PartMonotone(base, 0.75, s);
    PartMonotone(base, s, 1.25);
    assert Part(base, 0.75) == 0.75 * base && Part(base, 1.25) == 1.25 * base;
    PartMonotone(Part(base, s), 1.0 - noise, 1.0 + off);
    PartMonotone(Part(base, s), 1.0 + off, 1.0 + noise);
    PartRange(0.75 * base, 1.0 - noise);
    Flipped(0.75 * base, Part(base, s), 1.0 - noise);
    Flipped(Part(base, s), 1.25 * base, 1.0 + noise);
  }

  lemma CollectionAmount(p: ForecastParams, x: Inputs, season: SeasonFactor, offset: nat)
    requires ValidParams(p) && ValidInputs(x) && offset < p.days && p.recurringRatio.Fin? && p.noise.Fin?
    ensures var mass := Part(6000.0 * (1.0 - p.recurringRatio.r), season(Start(p, x) + offset, p.seasonality));
            CollectedWithin(CollectionFlow(p, x, season, offset).amount, mass, p.noise.r)
  {
    hide *;
    CollectionReads(p, x, season, offset);
  }

  lemma CollectedBetween(amount: string, base: real, s: real, noise: real)
    requires 0.0 <= base && 0.75 <= s <= 1.25 && 0.0 <= noise <= 1.0 && CollectedWithin(amount, Part(base, s), noise)
    ensures ParseDecimal(amount).Finite? && 0.0 <= Part(0.75 * base, 1.0 - noise)
    ensures Part(0.75 * base, 1.0 - noise) - 0.005 <= ParseDecimal(amount).value <= Part(1.25 * base, 1.0 + noise) + 0.005
  {
    hide ParseDecimal, Part;
    var off :| -noise <= off <= noise && Collected(amount, Part(base, s), off);
    PartBetween(base, s, noise, off);
  }

  /** However the sine runs, a collection is never negative: it lies between three quarters and five
      quarters of 6000 times what the ratio leaves, give or take the noise. */
  lemma CollectionIsIncome(p: ForecastParams, x: Inputs, sine: real -> real, offset: nat)
    requires ValidParams(p) && ValidInputs(x) && offset < p.days && p.recurringRatio.Fin? && p.noise.Fin?
    requires forall turn :: -1.0 <= sine(turn) <= 1.0
    ensures var f := CollectionFlow(p, x, Seasonal(sine), offset);
            var left, noise := 6000.0 * (1.0 - p.recurringRatio.r), p.noise.r;
            && ParseDecimal(f.amount).Finite?
            && Part(0.75 * left, 1.0 - noise) - 0.005 <= ParseDecimal(f.amount).value <= Part(1.25 * left, 1.0 + noise) + 0.005
            && Part(0.75 * left, 1.0 - noise) >= 0.0
  {
    hide ParseDecimal, Part, CollectionFlow, Seasonal, CollectedWithin, Start;
    var season := Seasonal(sine);
    var left, s := 6000.0 * (1.0 - p.recurringRatio.r), season(Start(p, x) + offset, p.seasonality);
    CollectionAmount(p, x, season, offset);
    SeasonBounds(sine, Start(p, x) + offset, p.seasonality);
    CollectedBetween(CollectionFlow(p, x, season, offset).amount, left, s, p.noise.r);
  }

  /** What an observer reads in account `i`: two entities in turn. */
  lemma AccountReads(p: ForecastParams, x: Inputs, season: SeasonFactor, i: nat)
    requires ValidParams(p) && ValidInputs(x) && i < p.accounts
    ensures i < |Records(p, x, season)|
    ensures var r := Records(p, x, season)[i];
            && r.kind == BankAccountKind && ReadAccount(r.payload).Some?
            && var a := ReadAccount(r.payload).value;
               && a.iban == Iban(x, i) && a.currency == "EUR" && a.caption == "Compte courant " + Dec(i + 1)
               && a.entity == x.target + (if i % 2 == 0 then " Holding" else " Filiale Nord")
               && 99999.995 <= Amount(a.balance) <= 400000.005
  {
    hide Flows, Iban, Money, DumpAccount, ReadAccount, ParseDecimal, UniformOf, ValidAccount, Dec, EntityLabel;
    var v := UniformOf(x.stream(19 * i + 18), 100000.0, 400000.0);
    AccountValid(x, i);
    AccountRoundTrip(AccountNumber(x, i));
    UniformRange(x.stream(19 * i + 18), 100000.0, 400000.0);
    MoneyReads(v);
    EntityLabelText(x.target, i % 2);
    assert Records(p, x, season)[i] == AccountRecords(x, p.accounts)[i];
  }
}
