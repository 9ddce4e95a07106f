/** `finhub.forecasting.v1`: at least ninety days of history, monthly series on their day of the
    month and a variable collection on every business day, rotating over the accounts. */
module Forecasting {
  import opened Options
  import opened Text
  import opened Random
  import opened Calendar
  import opened Models
  import opened Fabrication
  import opened GroundTruth
  import opened Params

  datatype Seasonality = NoSeason | Weekly | Monthly

  /** Either float may be a NaN, which the clamp lets through. */
  datatype ForecastParams = ForecastParams(
    days: nat, accounts: nat, seasonality: Seasonality, recurringRatio: Float, noise: Float)

  predicate ShareOrNaN(f: Float) {
    f == NaN || (f.Fin? && 0.0 <= f.r <= 1.0)
  }

  predicate ValidParams(p: ForecastParams) {
    90 <= p.days <= 730 && 1 <= p.accounts <= 10 && ShareOrNaN(p.recurringRatio) && ShareOrNaN(p.noise)
  }

  /** The seasonal factor of a day: any function of the day and the mode (in the code, one plus a
      quarter of a sine). */
  type SeasonFactor = (Day, Seasonality) -> real

  /** A monthly series. */
  datatype Series = Series(name: string, dom: nat, base: real, direction: Direction, counterparty: string, category: string)

  function Recurring(): (rs: seq<Series>)
    ensures |rs| == 4
    ensures rs[0].dom == 28 && rs[1].dom == 3 && rs[2].dom == 5 && rs[3].dom == 12
  {
    [Series("salaries", 28, -42000.0, Debit, "Paie Groupe Simulée", "payroll"),
     Series("rent", 3, -8500.0, Debit, "Foncière Simulée", "rent"),
     Series("subscription", 5, -1200.0, Debit, "Logiciels Simulés SAS", "saas"),
     Series("customer_invoices", 12, 55000.0, Credit, "Client Orion SAS", "sales")]
  }

  // ---------------------------------------------------------------------------
  // The batch as a function of its inputs
  // ---------------------------------------------------------------------------

  function Iban(x: Inputs, i: nat): string {
    IbanAt(x.stream, 19 * i)
  }

  function AccountNumber(x: Inputs, i: nat): BankAccount {
    BankAccount(Iban(x, i), "Compte courant " + Dec(i + 1), "EUR", EntityLabel(x.target, i % 2),
                Money(UniformOf(x.stream(19 * i + 18), 100000.0, 400000.0)))
  }

  function Start(p: ForecastParams, x: Inputs): Day
    requires ValidParams(p) && ValidInputs(x)
  {
    x.today - (p.days - 1)
  }

  /** Whether any mass is left to the collections: not at ratio 1, and not at a NaN, which exceeds
      nothing. */
  predicate HasVariable(p: ForecastParams) {
    p.recurringRatio.Fin? && p.recurringRatio.r < 1.0
  }

  /** Whether a collection falls on a day. */
  predicate Collects(p: ForecastParams, day: Day) {
    BusinessDay(day) && HasVariable(p)
  }

  /** The printed amount of a series; a NaN is printed as such. */
  function RecurringAmount(p: ForecastParams, s: Series): string {
    match p.recurringRatio
    case Fin(ratio) => Money(Part(s.base, 2.0 * ratio))
    case _ => "nan"
  }

  /** The printed amount of a collection. */
  function VariableAmount(p: ForecastParams, season: SeasonFactor, day: Day, u: Unit): string {
    match (p.recurringRatio, p.noise)
    case (Fin(ratio), Fin(noise)) =>
      var collect := Part(3000.0 * (2.0 * (1.0 - ratio)), season(day, p.seasonality));
      Money(Part(collect, 1.0 + UniformOf(u, -noise, noise)))
    case _ => "nan"
  }

  function RecurringFlow(p: ForecastParams, iban: string, s: Series, day: Day): CashFlow {
    CashFlow(iban, RecurringAmount(p, s), "EUR", day, None, s.direction, s.counterparty,
             "Récurrent " + s.name, Some("REC-" + s.name + ("-" + Iso(day))), Some(s.category))
  }

  function VariableFlow(p: ForecastParams, season: SeasonFactor, iban: string, day: Day, offset: nat, u: Unit): CashFlow {
    CashFlow(iban, VariableAmount(p, season, day, u), "EUR", day, None, Credit,
             "Encaissements Clients Divers", "Encaissement variable",
             Some("VAR-" + Iso(day) + ("-" + Dec(offset))), Some("sales"))
  }

  /** A day's monthly flows among the first `n` series. */
  function RecurringOn(p: ForecastParams, x: Inputs, day: Day, n: nat): seq<Record>
    requires n <= 4
  {
    if n == 0 then []
    else
      var s := Recurring()[n - 1];
      RecurringOn(p, x, day, n - 1)
      + if DayOfMonth(day) == s.dom then [Record(CashFlowKind, DumpFlow(RecurringFlow(p, Iban(x, 0), s, day)))] else []
  }

  /** The collections before an offset, which is how many draws they took. */
  function CollectionsBefore(p: ForecastParams, x: Inputs, offset: nat): nat
    requires ValidParams(p) && ValidInputs(x)
  {
    if HasVariable(p) then Count(Start(p, x), offset, Business()) else 0
  }

  function VariableOn(p: ForecastParams, x: Inputs, season: SeasonFactor, offset: nat): seq<Record>
    requires ValidParams(p) && ValidInputs(x)
  {
    var day := Start(p, x) + offset;
    if Collects(p, day) then
      var u := x.stream(19 * p.accounts + CollectionsBefore(p, x, offset));
      [Record(CashFlowKind, DumpFlow(VariableFlow(p, season, Iban(x, offset % p.accounts), day, offset, u)))]
    else []
  }

  function DayRecords(p: ForecastParams, x: Inputs, season: SeasonFactor, offset: nat): seq<Record>
    requires ValidParams(p) && ValidInputs(x)
  {
    RecurringOn(p, x, Start(p, x) + offset, 4) + VariableOn(p, x, season, offset)
  }

  function AccountRecords(x: Inputs, n: nat): (rs: seq<Record>)
    ensures |rs| == n
  {
    seq(n, i requires 0 <= i < n => Record(BankAccountKind, DumpAccount(AccountNumber(x, i))))
  }

  /** The flows of the first `n` days of the window. */
  function Flows(p: ForecastParams, x: Inputs, season: SeasonFactor, n: nat): seq<Record>
    requires ValidParams(p) && ValidInputs(x)
  {
    if n == 0 then [] else Flows(p, x, season, n - 1) + DayRecords(p, x, season, n - 1)
  }

  function Records(p: ForecastParams, x: Inputs, season: SeasonFactor): seq<Record>
    requires ValidParams(p) && ValidInputs(x)
  {
    AccountRecords(x, p.accounts) + Flows(p, x, season, p.days)
  }

  function SeriesNames(n: nat): (names: seq<Node>)
    requires n <= 4
    ensures |names| == n
  {
    seq(n, i requires 0 <= i < n => NText(Recurring()[i].name))
  }

  function Manifest(p: ForecastParams, points: nat): Node {
    NDict(map["days" := NInt(p.days), "recurring_series" := NList(SeriesNames(4)), "expected_history_points" := NInt(points)])
  }

  // ---------------------------------------------------------------------------
  // The generator
  // ---------------------------------------------------------------------------

  method FillAccounts(batch: GeneratedBatch, rng: Rng, p: ForecastParams, x: Inputs) returns (ibans: seq<string>)
    requires rng.stream == x.stream && rng.cursor == 0 && batch.records == []
    modifies batch, rng
    ensures rng.cursor == 19 * p.accounts && batch.records == AccountRecords(x, p.accounts)
    ensures |ibans| == p.accounts && forall i :: 0 <= i < p.accounts ==> ibans[i] == Iban(x, i)
  {
    hide IbanAt, DumpAccount, Money, UniformOf;
    ibans := [];
    for i := 0 to p.accounts
      invariant rng.cursor == 19 * i && batch.records == AccountRecords(x, i)
      invariant |ibans| == i && forall j :: 0 <= j < i ==> ibans[j] == Iban(x, j)
    {
      var iban := TestIban(rng);
      var balance := rng.Uniform(100000.0, 400000.0);
      var account := BankAccount(iban, "Compte courant " + Dec(i + 1), "EUR", EntityLabel(x.target, i % 2), Money(balance));
      assert account == AccountNumber(x, i);
      ibans := ibans + [iban];
      batch.Append(Record(BankAccountKind, DumpAccount(account)));
    }
  }

  /** The day's monthly flows, on their fixed day of the month. */
  method AppendRecurring(batch: GeneratedBatch, p: ForecastParams, x: Inputs, main: string, day: Day) returns (points: nat)
    requires main == Iban(x, 0)
    modifies batch
    ensures batch.records == old(batch.records) + RecurringOn(p, x, day, 4)
    ensures points == |RecurringOn(p, x, day, 4)|
  {
    hide DumpFlow, RecurringFlow, Iban, DayOfMonth;
    points := 0;
    for n := 0 to 4
      invariant batch.records == old(batch.records) + RecurringOn(p, x, day, n)
      invariant points == |RecurringOn(p, x, day, n)|
    {
      var s := Recurring()[n];
      if DayOfMonth(day) == s.dom {
        batch.Append(Record(CashFlowKind, DumpFlow(RecurringFlow(p, main, s, day))));
        points := points + 1;
      }
    }
  }

  /** The day's collection, if it is a business day and the variable mass is not zero. */
  method AppendVariable(batch: GeneratedBatch, rng: Rng, p: ForecastParams, x: Inputs, season: SeasonFactor,
                        ibans: seq<string>, offset: nat) returns (points: nat)
    requires ValidParams(p) && ValidInputs(x) && rng.stream == x.stream
    requires rng.cursor == 19 * p.accounts + CollectionsBefore(p, x, offset)
    requires |ibans| == p.accounts && forall i :: 0 <= i < p.accounts ==> ibans[i] == Iban(x, i)
    modifies batch, rng
    ensures rng.cursor == 19 * p.accounts + CollectionsBefore(p, x, offset + 1)
    ensures batch.records == old(batch.records) + VariableOn(p, x, season, offset)
    ensures points == |VariableOn(p, x, season, offset)|
  {
    hide DumpFlow, VariableFlow, Iban, BusinessDay;
    var day := Start(p, x) + offset;
    points := 0;
    if Collects(p, day) {
      var iban := ibans[offset % |ibans|];
      var u := rng.Random();
      batch.Append(Record(CashFlowKind, DumpFlow(VariableFlow(p, season, iban, day, offset, u))));
      points := 1;
    }
  }

  lemma NoCollectionsYet(p: ForecastParams, x: Inputs)
    requires ValidParams(p) && ValidInputs(x)
    ensures CollectionsBefore(p, x, 0) == 0
  {
  }

  /** `generate`, after coercion: exactly the specified records; the manifest counts the flows. */
  method Run(p: ForecastParams, x: Inputs, season: SeasonFactor) returns (batch: GeneratedBatch)
    requires ValidParams(p) && ValidInputs(x)
    ensures fresh(batch) && batch.records == Records(p, x, season)
    ensures batch.groundTruth == Manifest(p, |Flows(p, x, season, p.days)|)
  {
    hide AccountRecords, RecurringOn, VariableOn, Iban, CollectionsBefore, SeriesNames;
    var rng := new Rng(x.stream);
    batch := new GeneratedBatch();
    var ibans := FillAccounts(batch, rng, p, x);
    ghost var accounts := batch.records;
    NoCollectionsYet(p, x);
    var points := 0;
    for offset := 0 to p.days
      invariant fresh(batch) && fresh(rng) && rng.stream == x.stream
      invariant rng.cursor == 19 * p.accounts + CollectionsBefore(p, x, offset)
      invariant batch.records == accounts + Flows(p, x, season, offset)
      invariant points == |Flows(p, x, season, offset)|
    {
      var recurring := AppendRecurring(batch, p, x, ibans[0], Start(p, x) + offset);
      var variable := AppendVariable(batch, rng, p, x, season, ibans, offset);
      points := points + recurring + variable;
    }
    batch.groundTruth := NDict(map["days" := NInt(p.days), "recurring_series" := NList(SeriesNames(4)),
                                   "expected_history_points" := NInt(points)]);
  }

  // ---------------------------------------------------------------------------
  // From raw parameters
  // ---------------------------------------------------------------------------

  function SeasonNames(): seq<string> {
    ["none", "weekly", "monthly"]
  }

  function ReadSeason(s: string): Seasonality {
    if s == "none" then NoSeason else if s == "weekly" then Weekly else Monthly
  }

  function Schema(): (schema: seq<ParamSpec>)
    ensures |schema| == 5
  {
    [IntSpec("days", 120, 90, 730),
     IntSpec("accounts", 3, 1, 10),
     EnumSpec("seasonality", "monthly", SeasonNames()),
     FloatSpec("recurring_ratio", 0.6, 0.0, 1.0),
     FloatSpec("noise", 0.1, 0.0, 1.0)]
  }

  lemma SchemaWellFormed()
    ensures WellFormed(Schema())
  {
    IntSpecWellFormed("days", 120, 90, 730);
    IntSpecWellFormed("accounts", 3, 1, 10);
    EnumSpecWellFormed("seasonality", "monthly", SeasonNames());
    assert |"days"| == 4 && |"accounts"| == 8 && |"seasonality"| == 11 && |"recurring_ratio"| == 15 && |"noise"| == 5;
  }

  function ReadParams(out: map<string, Param>): ForecastParams {
    var days, accounts := IntOr(out, "days", 0), IntOr(out, "accounts", 0);
    ForecastParams(if days < 0 then 0 else days, if accounts < 0 then 0 else accounts,
                   ReadSeason(TextOf(out, "seasonality")), FloatOr(out, "recurring_ratio", NaN), FloatOr(out, "noise", NaN))
  }

  lemma ReadParamsValid(params: map<string, Param>, out: map<string, Param>)
    requires WellFormed(Schema()) && CoercesTo(Schema(), params, out)
    ensures ValidParams(ReadParams(out))
    ensures ReadParams(out).recurringRatio == NaN <==> SendsNaN(Schema()[3], params)
    ensures ReadParams(out).noise == NaN <==> SendsNaN(Schema()[4], params)
  {
    hide IntOr, FloatOr, TextOf, CoercesTo, IntSpec, FloatSpec, EnumSpec, ReadSeason, SendsNaN, SeasonNames;
    CoercedInt(Schema(), params, out, 0, "days", 120, 90, 730, 0);
    CoercedInt(Schema(), params, out, 1, "accounts", 3, 1, 10, 0);
    CoercedFloatOrNaN(Schema(), params, out, 3, "recurring_ratio", 0.6, 0.0, 1.0);
    CoercedFloatOrNaN(Schema(), params, out, 4, "noise", 0.1, 0.0, 1.0);
  }

  /** `p` is what coercion makes of the parameters sent. */
  ghost predicate CoercedFrom(params: map<string, Param>, p: ForecastParams) {
    WellFormed(Schema()) && exists out :: CoercesTo(Schema(), params, out) && ReadParams(out) == p
  }

  /** `generate` from raw parameters: it raises exactly when a conversion overflows, and otherwise
      returns the batch specified for the coerced values, NaN included. */
  method Generate(params: map<string, Param>, x: Inputs, season: SeasonFactor) returns (batch: GeneratedBatch?, p: ForecastParams)
    requires ValidInputs(x)
    ensures WellFormed(Schema())
    ensures batch == null <==> Overflows(Schema(), params)
    ensures batch != null ==>
              && fresh(batch) && ValidParams(p) && batch.records == Records(p, x, season)
              && batch.groundTruth == Manifest(p, |Flows(p, x, season, p.days)|)
              && CoercedFrom(params, p)
  {
    hide Records, Flows, Manifest, Overflows, CoercesTo, ReadParams, WellFormed, Schema;
    SchemaWellFormed();
    RaisesOnOverflow(Schema(), params);
    p := ForecastParams(90, 1, NoSeason, NaN, NaN);
    var r := CoerceParams(Schema(), params);
    if r.OverflowError? {
      return null, p;
    }
    ReadParamsValid(params, r.out);
    p := ReadParams(r.out);
    batch := Run(p, x, season);
  }
}
