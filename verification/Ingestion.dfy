/** `connect.ingestion.v1`: accounts, and as many flows for each, spread over a trailing window. The
    one preset whose batch can exceed the cap on records per run. */
module Ingestion {
  import opened Options
  import opened Text
  import opened Random
  import opened Calendar
  import opened Models
  import opened Fabrication
  import opened Sequences
  import opened GroundTruth
  import opened Params

  function Formats(): seq<string> {
    ["psd2", "camt053", "mt940", "odata"]
  }

  datatype IngestParams = IngestParams(accounts: nat, flows: nat, window: nat, currencies: seq<Currency>, format: string)

  predicate ValidParams(p: IngestParams) {
    1 <= p.accounts <= 20 && 1 <= p.flows <= 500 && 1 <= p.window <= 365 && p.currencies != []
    && p.format in Formats()
  }

  // ---------------------------------------------------------------------------
  // The batch as a function of its inputs
  // ---------------------------------------------------------------------------

  function CurrencyAt(p: IngestParams, i: nat): Currency
    requires p.currencies != []
  {
    p.currencies[i % |p.currencies|]
  }

  function Entities(p: IngestParams): (n: nat)
    ensures n > 0
  {
    if p.accounts == 1 then 1 else 2
  }

  function Iban(x: Inputs, i: nat): string {
    IbanAt(x.stream, 19 * i)
  }

  function AccountFor(iban: string, c: Currency, i: nat, entity: string, balance: real): BankAccount {
    BankAccount(iban, "Compte courant " + Dec(i + 1), Code(c), entity, Money(balance))
  }

  function AccountNumber(p: IngestParams, x: Inputs, i: nat): BankAccount
    requires ValidParams(p)
  {
    AccountFor(Iban(x, i), CurrencyAt(p, i), i, EntityLabel(x.target, i % Entities(p)),
               UniformOf(x.stream(19 * i + 18), 10000.0, 500000.0))
  }

  function Wordings(): (names: seq<string>)
    ensures |names| == 5
  {
    ["Virement", "Prélèvement", "Facture", "Règlement", "Encaissement"]
  }

  function IngestedFlow(iban: string, c: Currency, amount: real, day: Day, name: string, wording: string, number: nat): CashFlow {
    CashFlow(iban, Money(amount), Code(c), day, None, if amount >= 0.0 then Credit else Debit, name, wording,
             Some("ING-" + Dec(number)), None)
  }

  /** How many flows come before flow `f` of account `i`. */
  function FlowIndex(p: IngestParams, i: nat, f: nat): nat {
    i * p.flows + f
  }

  lemma FlowIndices(p: IngestParams, i: nat)
    ensures FlowIndex(p, 0, 0) == 0
    ensures FlowIndex(p, i, p.flows) == FlowIndex(p, i + 1, 0)
  {
  }

  /** The draws before flow number `n`: nineteen per account, six per flow. */
  function FlowCursor(p: IngestParams, n: nat): nat {
    19 * p.accounts + 6 * n
  }

  function FlowAmount(x: Inputs, cur: nat): real {
    var u := UniformOf(x.stream(cur), 50.0, 25000.0);
    if x.stream(cur + 1) < 0.5 then u else -u
  }

  function FlowDay(p: IngestParams, x: Inputs, n: nat): (d: Day)
    requires ValidParams(p) && ValidInputs(x)
    ensures x.today - p.window < d <= x.today
  {
    x.today - IntOf(x.stream(FlowCursor(p, n) + 2), 0, p.window - 1)
  }

  /** Flow number `n`, on account `i`. */
  function FlowNumber(p: IngestParams, x: Inputs, i: nat, n: nat): CashFlow
    requires ValidParams(p) && ValidInputs(x)
  {
    var cur := FlowCursor(p, n);
    IngestedFlow(Iban(x, i), CurrencyAt(p, i), FlowAmount(x, cur), FlowDay(p, x, n),
                 ChoiceOf(x.stream(cur + 3), Counterparties()),
                 ChoiceOf(x.stream(cur + 4), Wordings()), IntOf(x.stream(cur + 5), 100000, 999999))
  }

  function FlowRecord(p: IngestParams, x: Inputs, i: nat, n: nat): Record
    requires ValidParams(p) && ValidInputs(x)
  {
    Record(CashFlowKind, DumpFlow(FlowNumber(p, x, i, n)))
  }

  function AccountRecord(p: IngestParams, x: Inputs, i: nat): Record
    requires ValidParams(p)
  {
    Record(BankAccountKind, DumpAccount(AccountNumber(p, x, i)))
  }

  function AccountRecords(p: IngestParams, x: Inputs, n: nat): (rs: seq<Record>)
    requires ValidParams(p)
    ensures |rs| == n
  {
    seq(n, i requires 0 <= i < n => AccountRecord(p, x, i))
  }

  /** The flows of the first `i` accounts and `f` flows of the next. */
  function FlowsUpTo(p: IngestParams, x: Inputs, i: nat, f: nat): seq<Record>
    requires ValidParams(p) && ValidInputs(x) && f <= p.flows
    decreases i, f
  {
    if f > 0 then FlowsUpTo(p, x, i, f - 1) + [FlowRecord(p, x, i, FlowIndex(p, i, f - 1))]
    else if i > 0 then FlowsUpTo(p, x, i - 1, p.flows)
    else []
  }

  function Records(p: IngestParams, x: Inputs): seq<Record>
    requires ValidParams(p) && ValidInputs(x)
  {
    AccountRecords(p, x, p.accounts) + FlowsUpTo(p, x, p.accounts, 0)
  }

  function Manifest(p: IngestParams): Node {
    NDict(map["expected_accounts" := NInt(p.accounts), "expected_flows" := NInt(p.accounts * p.flows)])
  }

  // ---------------------------------------------------------------------------
  // The generator
  // ---------------------------------------------------------------------------

  method FillAccounts(batch: GeneratedBatch, rng: Rng, p: IngestParams, x: Inputs) returns (ibans: seq<string>)
    requires ValidParams(p) && rng.stream == x.stream && rng.cursor == 0 && batch.records == []
    modifies batch, rng
    ensures rng.cursor == 19 * p.accounts && batch.records == AccountRecords(p, x, p.accounts)
    ensures |ibans| == p.accounts && forall i :: 0 <= i < p.accounts ==> ibans[i] == Iban(x, i)
  {
    hide IbanAt, DumpAccount, AccountFor, UniformOf, EntityLabel, CurrencyAt;
    ibans := [];
    for i := 0 to p.accounts
      invariant rng.cursor == 19 * i && batch.records == AccountRecords(p, x, i)
      invariant |ibans| == i && forall j :: 0 <= j < i ==> ibans[j] == Iban(x, j)
    {
      var iban := TestIban(rng);
      var balance := rng.Uniform(10000.0, 500000.0);
      var account := AccountFor(iban, CurrencyAt(p, i), i, EntityLabel(x.target, i % Entities(p)), balance);
      assert account == AccountNumber(p, x, i);
      ibans := ibans + [iban];
      batch.Append(Record(BankAccountKind, DumpAccount(account)));
    }
  }

  lemma NextFlow(p: IngestParams, n: nat)
    ensures FlowCursor(p, n + 1) == FlowCursor(p, n) + 6
  {
  }

  /** An amount, then its sign. */
  method DrawAmount(rng: Rng, x: Inputs) returns (amount: real)
    requires rng.stream == x.stream
    modifies rng
    ensures rng.cursor == old(rng.cursor) + 2 && amount == FlowAmount(x, old(rng.cursor))
  {
    amount := rng.Uniform(50.0, 25000.0);
    var sign := rng.Random();
    amount := if sign < 0.5 then amount else -amount;
  }

  method DrawFlow(rng: Rng, p: IngestParams, x: Inputs, iban: string, i: nat, n: nat) returns (flow: CashFlow)
    requires ValidParams(p) && ValidInputs(x) && iban == Iban(x, i)
    requires rng.stream == x.stream && rng.cursor == FlowCursor(p, n)
    modifies rng
    ensures rng.cursor == FlowCursor(p, n + 1) && flow == FlowNumber(p, x, i, n)
  {
    hide Counterparties, Wordings, ChoiceOf, FlowAmount, IngestedFlow, Iban, CurrencyAt, FlowCursor, IntOf;
    NextFlow(p, n);
    var amount := DrawAmount(rng, x);
    var age := rng.RandInt(0, p.window - 1);
    var name := rng.Choice(Counterparties());
    var wording := rng.Choice(Wordings());
    var number := rng.RandInt(100000, 999999);
    flow := IngestedFlow(iban, CurrencyAt(p, i), amount, x.today - age, name, wording, number);
  }

  /** One account's flows. */
  method AppendFlows(batch: GeneratedBatch, rng: Rng, p: IngestParams, x: Inputs, iban: string, i: nat,
                     ghost accounts: seq<Record>)
    requires ValidParams(p) && ValidInputs(x) && iban == Iban(x, i)
    requires rng.stream == x.stream && rng.cursor == FlowCursor(p, FlowIndex(p, i, 0))
    requires batch.records == accounts + FlowsUpTo(p, x, i, 0)
    modifies batch, rng
    ensures rng.cursor == FlowCursor(p, FlowIndex(p, i + 1, 0))
    ensures batch.records == accounts + FlowsUpTo(p, x, i + 1, 0)
  {
    hide Iban, DumpFlow, FlowNumber;
    for f := 0 to p.flows
      invariant rng.cursor == FlowCursor(p, FlowIndex(p, i, f))
      invariant batch.records == accounts + FlowsUpTo(p, x, i, f)
    {
      var flow := DrawFlow(rng, p, x, iban, i, FlowIndex(p, i, f));
      batch.Append(Record(CashFlowKind, DumpFlow(flow)));
    }
    FlowIndices(p, i);
  }

  /** `generate`, after coercion: exactly the specified records and manifest. */
  method Run(p: IngestParams, x: Inputs) returns (batch: GeneratedBatch)
    requires ValidParams(p) && ValidInputs(x)
    ensures fresh(batch) && batch.records == Records(p, x) && batch.groundTruth == Manifest(p)
  {
    hide AccountRecord, FlowRecord, Iban, FlowIndex;
    var rng := new Rng(x.stream);
    batch := new GeneratedBatch();
    var ibans := FillAccounts(batch, rng, p, x);
    FlowIndices(p, 0);
    for i := 0 to p.accounts
      invariant fresh(batch) && fresh(rng) && rng.stream == x.stream
      invariant rng.cursor == FlowCursor(p, FlowIndex(p, i, 0))
      invariant batch.records == AccountRecords(p, x, p.accounts) + FlowsUpTo(p, x, i, 0)
    {
      AppendFlows(batch, rng, p, x, ibans[i], i, AccountRecords(p, x, p.accounts));
    }
    batch.groundTruth := Manifest(p);
  }

  // ---------------------------------------------------------------------------
  // From raw parameters
  // ---------------------------------------------------------------------------

  function Schema(): (schema: seq<ParamSpec>)
    ensures |schema| == 5
  {
    [IntSpec("accounts", 3, 1, 20),
     IntSpec("flows_per_account", 30, 1, 500),
     WindowSpec("date_range", 90, 1, 365),
     MultiSpec("currencies", [Code(Eur)], Codes()),
     EnumSpec("source_format", "psd2", Formats())]
  }

  lemma SchemaWellFormed()
    ensures WellFormed(Schema())
  {
    hide WellFormedSpec, Code, Codes;
    EveryCode(Eur);
    IntSpecWellFormed("accounts", 3, 1, 20);
    IntSpecWellFormed("flows_per_account", 30, 1, 500);
    WindowSpecWellFormed("date_range", 90, 1, 365);
    MultiSpecWellFormed("currencies", [Code(Eur)], Codes());
    EnumSpecWellFormed("source_format", "psd2", Formats());
    assert |"accounts"| == 8 && |"flows_per_account"| == 17 && |"date_range"| == 10;
    assert |"currencies"| == 10 && |"source_format"| == 13;
    assert "date_range"[0] != "currencies"[0];
  }

  function ReadParams(out: map<string, Param>): IngestParams {
    var accounts, flows, window := IntOr(out, "accounts", 1), IntOr(out, "flows_per_account", 1), IntOr(out, "date_range", 1);
    IngestParams(if accounts < 0 then 0 else accounts, if flows < 0 then 0 else flows, if window < 0 then 0 else window,
                 ReadCurrencies(ListOf(out, "currencies")), TextOf(out, "source_format"))
  }

  lemma ReadParamsValid(params: map<string, Param>, out: map<string, Param>)
    requires WellFormed(Schema()) && CoercesTo(Schema(), params, out)
    ensures ValidParams(ReadParams(out))
    ensures ("date_range" in params ==> DaysOf(params["date_range"]).Refused?) ==> ReadParams(out).window == 90
  {
    hide IntOr, ListOf, TextOf, CoercesTo, IntSpec, MultiSpec, WindowSpec, EnumSpec, Codes, Code, DaysOf, Formats;
    CoercedInt(Schema(), params, out, 0, "accounts", 3, 1, 20, 1);
    CoercedInt(Schema(), params, out, 1, "flows_per_account", 30, 1, 500, 1);
    CoercedWindow(Schema(), params, out, 2, "date_range", 90, 1, 365, 1);
    CoercedMulti(Schema(), params, out, 3, "currencies", [Code(Eur)], Codes());
    CoercedEnum(Schema(), params, out, 4, "source_format", "psd2", Formats());
  }

  /** `p` is what coercion makes of the parameters sent. */
  ghost predicate CoercedFrom(params: map<string, Param>, p: IngestParams) {
    WellFormed(Schema()) && exists out :: CoercesTo(Schema(), params, out) && ReadParams(out) == p
  }

  /** `generate` from raw parameters: it raises exactly when a conversion overflows, and otherwise
      returns the batch specified for the coerced values. */
  method Generate(params: map<string, Param>, x: Inputs) returns (batch: GeneratedBatch?, p: IngestParams)
    requires ValidInputs(x)
    ensures WellFormed(Schema())
    ensures batch == null <==> Overflows(Schema(), params)
    ensures batch != null ==>
              && fresh(batch) && ValidParams(p) && batch.records == Records(p, x) && batch.groundTruth == Manifest(p)
              && CoercedFrom(params, p)
  {
    hide Records, Manifest, Overflows, CoercesTo, ReadParams, WellFormed, Schema, DaysOf;
    SchemaWellFormed();
    RaisesOnOverflow(Schema(), params);
    p := IngestParams(1, 1, 1, [Eur], "psd2");
    var r := CoerceParams(Schema(), params);
    if r.OverflowError? {
      return null, p;
    }
    ReadParamsValid(params, r.out);
    p := ReadParams(r.out);
    batch := Run(p, x);
  }

  // ---------------------------------------------------------------------------
  // What the batch holds
  // ---------------------------------------------------------------------------

  lemma {:induction false} FlowsSize(p: IngestParams, x: Inputs, i: nat, f: nat)
    requires ValidParams(p) && ValidInputs(x) && f <= p.flows
    ensures |FlowsUpTo(p, x, i, f)| == FlowIndex(p, i, f)
    decreases i, f
  {
    hide FlowRecord;
    if f > 0 {
      FlowsSize(p, x, i, f - 1);
    } else if i > 0 {
      FlowsSize(p, x, i - 1, p.flows);
      FlowIndices(p, i - 1);
    } else {
      FlowIndices(p, 0);
    }
  }

  lemma RecordsSize(p: IngestParams, x: Inputs)
    requires ValidParams(p) && ValidInputs(x)
    ensures |Records(p, x)| == p.accounts * (1 + p.flows)
  {
    hide FlowsUpTo, AccountRecords;
    FlowsSize(p, x, p.accounts, 0);
    assert p.accounts * (1 + p.flows) == p.accounts + p.accounts * p.flows;
  }

  /** A valid flow on one of the accounts, dated within the window. */
  ghost predicate Ingested(p: IngestParams, x: Inputs, r: Record) {
    exists f: CashFlow, i: nat ::
      && r == Record(CashFlowKind, DumpFlow(f)) && Validate(r) == Some(r)
      && i < p.accounts && f.accountIban == Iban(x, i)
      && x.today - p.window < f.valueDate <= x.today
  }

  lemma FlowIngested(p: IngestParams, x: Inputs, i: nat, n: nat)
    requires ValidParams(p) && ValidInputs(x) && i < p.accounts
    ensures Ingested(p, x, FlowRecord(p, x, i, n))
  {
    hide DumpFlow, ReadFlow, IbanAt, Money, Code, CurrencyAt, FlowAmount, ChoiceOf, Counterparties, Wordings;
    var f := FlowNumber(p, x, i, n);
    IbanAtValid(x.stream, 19 * i);
    MoneyIsDecimal(FlowAmount(x, FlowCursor(p, n)));
    FlowRoundTrip(f);
    assert FlowRecord(p, x, i, n) == Record(CashFlowKind, DumpFlow(f)) && f.accountIban == Iban(x, i);
  }

  /** Every flow is on one of the batch's accounts, valid, and dated within the window. */
  lemma {:induction false} FlowsIngested(p: IngestParams, x: Inputs, i: nat, f: nat)
    requires ValidParams(p) && ValidInputs(x) && f <= p.flows && (i < p.accounts || (i == p.accounts && f == 0))
    ensures forall r :: r in FlowsUpTo(p, x, i, f) ==> Ingested(p, x, r)
    decreases i, f
  {
    hide FlowRecord, Ingested, FlowIndex;
    if f > 0 {
      FlowsIngested(p, x, i, f - 1);
      FlowIngested(p, x, i, FlowIndex(p, i, f - 1));
    } else if i > 0 {
      FlowsIngested(p, x, i - 1, p.flows);
    }
  }

  lemma AccountsCounted(p: IngestParams, x: Inputs, n: nat)
    requires ValidParams(p)
    ensures Tally(AccountRecords(p, x, n), IsAccount) == n && Tally(AccountRecords(p, x, n), IsFlow) == 0
  {
    hide DumpAccount, AccountNumber;
    TallyAll(AccountRecords(p, x, n), IsAccount, true);
    TallyAll(AccountRecords(p, x, n), IsFlow, false);
  }

  lemma FlowsCounted(p: IngestParams, x: Inputs)
    requires ValidParams(p) && ValidInputs(x)
    ensures Tally(FlowsUpTo(p, x, p.accounts, 0), IsAccount) == 0
    ensures Tally(FlowsUpTo(p, x, p.accounts, 0), IsFlow) == p.accounts * p.flows
  {
    hide FlowsUpTo, DumpFlow, Validate, Iban;
    var flows := FlowsUpTo(p, x, p.accounts, 0);
    FlowsIngested(p, x, p.accounts, 0);
    FlowsSize(p, x, p.accounts, 0);
    forall i | 0 <= i < |flows| ensures IsFlow(flows[i]) && !IsAccount(flows[i]) {
      assert Ingested(p, x, flows[i]);
    }
    TallyAll(flows, IsAccount, false);
    TallyAll(flows, IsFlow, true);
  }

  /** The manifest counts the batch's accounts and flows. */
  lemma ManifestIsTrue(p: IngestParams, x: Inputs)
    requires ValidParams(p) && ValidInputs(x)
    ensures var m, rs := Manifest(p), Records(p, x);
            && m.NDict? && "expected_accounts" in m.entries && "expected_flows" in m.entries
            && m.entries["expected_accounts"] == NInt(Tally(rs, IsAccount))
            && m.entries["expected_flows"] == NInt(Tally(rs, IsFlow))
  {
    hide AccountRecords, FlowsUpTo, IsAccount, IsFlow, Tally;
    var accounts, flows := AccountRecords(p, x, p.accounts), FlowsUpTo(p, x, p.accounts, 0);
    TallyConcat(accounts, flows, IsAccount);
    TallyConcat(accounts, flows, IsFlow);
    AccountsCounted(p, x, p.accounts);
    FlowsCounted(p, x);
  }
}
