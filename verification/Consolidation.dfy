/** `finhub.consolidation.v1`: accounts of several entities in several currencies, five settled
    flows each, and a total in euros at fixed rates. */
module Consolidation {
  import opened Options
  import opened Text
  import opened Decimals
  import opened Random
  import opened Calendar
  import opened Models
  import opened Fabrication
  import opened GroundTruth
  import opened Params

  datatype ConsParams = ConsParams(entities: nat, perEntity: nat, currencies: seq<Currency>)

  predicate ValidParams(p: ConsParams) {
    1 <= p.entities <= 15 && 1 <= p.perEntity <= 10 && p.currencies != []
  }

  /** The indicative rate to the euro. */
  function Rate(c: Currency): real {
    match c
    case Eur => 1.0
    case Usd => 0.92
    case Gbp => 1.17
    case Chf => 1.05
  }

  const FLOWS_PER_ACCOUNT := 5

  // ---------------------------------------------------------------------------
  // The batch as a function of its inputs
  // ---------------------------------------------------------------------------

  function CurrencyAt(p: ConsParams, j: nat): Currency
    requires p.currencies != []
  {
    p.currencies[j % |p.currencies|]
  }

  /** The draws before account `j`: its balance, its IBAN, then five per flow. */
  function CursorAt(j: nat): nat {
    44 * j
  }

  function Balance(x: Inputs, j: nat): real {
    UniformOf(x.stream(CursorAt(j)), 20000.0, 800000.0)
  }

  function Iban(x: Inputs, j: nat): string {
    IbanAt(x.stream, CursorAt(j) + 1)
  }

  function AccountFor(iban: string, c: Currency, j: nat, entity: string, balance: real): BankAccount {
    BankAccount(iban, "Compte " + (Code(c) + (" " + Dec(j + 1))), Code(c), entity, Money(balance))
  }

  /** Account `j`, the one of entity `e`. */
  function AccountNumber(p: ConsParams, x: Inputs, e: nat, j: nat): BankAccount
    requires ValidParams(p)
  {
    AccountFor(Iban(x, j), CurrencyAt(p, j), j, EntityLabel(x.target, e), Balance(x, j))
  }

  function SettledFlow(iban: string, c: Currency, amount: real, day: Day, name: string, number: nat): CashFlow {
    CashFlow(iban, Money(amount), Code(c), day, None, if amount >= 0.0 then Credit else Debit, name,
             "Règlement consolidé", Some("CONS-" + Dec(number)), None)
  }

  function FlowCursor(j: nat, f: nat): nat {
    CursorAt(j) + 19 + 5 * f
  }

  /** An amount between 100 and 20000, positive six times in ten. */
  function FlowAmount(x: Inputs, cur: nat): real {
    var u := UniformOf(x.stream(cur), 100.0, 20000.0);
    if x.stream(cur + 1) < 0.6 then u else -u
  }

  function FlowNumber(p: ConsParams, x: Inputs, j: nat, f: nat): CashFlow
    requires ValidParams(p) && ValidInputs(x)
  {
    var cur := FlowCursor(j, f);
    SettledFlow(Iban(x, j), CurrencyAt(p, j), FlowAmount(x, cur), x.today - IntOf(x.stream(cur + 2), 0, 29),
                ChoiceOf(x.stream(cur + 3), Counterparties()), IntOf(x.stream(cur + 4), 100000, 999999))
  }

  function FlowsUpTo(p: ConsParams, x: Inputs, j: nat, n: nat): (rs: seq<Record>)
    requires ValidParams(p) && ValidInputs(x)
    ensures |rs| == n
  {
    if n == 0 then [] else FlowsUpTo(p, x, j, n - 1) + [Record(CashFlowKind, DumpFlow(FlowNumber(p, x, j, n - 1)))]
  }

  function AccountRecord(p: ConsParams, x: Inputs, e: nat, j: nat): Record
    requires ValidParams(p)
  {
    Record(BankAccountKind, DumpAccount(AccountNumber(p, x, e, j)))
  }

  /** How many accounts come before account `a` of entity `e`. */
  function AccountIndex(p: ConsParams, e: nat, a: nat): nat {
    e * p.perEntity + a
  }

  lemma AccountIndices(p: ConsParams, e: nat)
    ensures AccountIndex(p, 0, 0) == 0
    ensures AccountIndex(p, e, p.perEntity) == AccountIndex(p, e + 1, 0)
  {
  }

  lemma AllAccounts(p: ConsParams)
    ensures AccountIndex(p, p.entities, 0) == p.entities * p.perEntity
  {
  }

  /** The records of the first `e` entities and of `a` accounts of the next. */
  function RecordsUpTo(p: ConsParams, x: Inputs, e: nat, a: nat): seq<Record>
    requires ValidParams(p) && ValidInputs(x) && a <= p.perEntity
    decreases e, a
  {
    if a > 0 then
      var j := AccountIndex(p, e, a - 1);
      RecordsUpTo(p, x, e, a - 1) + ([AccountRecord(p, x, e, j)] + FlowsUpTo(p, x, j, FLOWS_PER_ACCOUNT))
    else if e > 0 then RecordsUpTo(p, x, e - 1, p.perEntity)
    else []
  }

  function Records(p: ConsParams, x: Inputs): seq<Record>
    requires ValidParams(p) && ValidInputs(x)
  {
    RecordsUpTo(p, x, p.entities, 0)
  }

  /** What account `j` adds to the total: its printed balance at its currency's rate. */
  function InEuros(p: ConsParams, x: Inputs, j: nat): real
    requires ValidParams(p)
  {
    Part(Rate(CurrencyAt(p, j)), Amount(Money(Balance(x, j))))
  }

  /** The total over the first `n` accounts. */
  function Total(p: ConsParams, x: Inputs, n: nat): real
    requires ValidParams(p)
  {
    if n == 0 then 0.0 else Total(p, x, n - 1) + InEuros(p, x, n - 1)
  }

  /** `round(value, 2)`. */
  function RoundTo2(v: real): real {
    Round(v * 100.0) as real / 100.0
  }

  function Manifest(p: ConsParams, total: real): Node {
    NDict(map["expected_entities" := NInt(p.entities),
              "expected_accounts" := NInt(p.entities * p.perEntity),
              "expected_total_eur_approx" := NFloat(RoundTo2(total))])
  }

  // ---------------------------------------------------------------------------
  // The generator
  // ---------------------------------------------------------------------------

  lemma NextFlow(j: nat, f: nat)
    ensures FlowCursor(j, f + 1) == FlowCursor(j, f) + 5
  {
  }

  /** An amount, then its sign. */
  method DrawAmount(rng: Rng, x: Inputs) returns (amount: real)
    requires rng.stream == x.stream
    modifies rng
    ensures rng.cursor == old(rng.cursor) + 2 && amount == FlowAmount(x, old(rng.cursor))
  {
    amount := rng.Uniform(100.0, 20000.0);
    var sign := rng.Random();
    amount := if sign < 0.6 then amount else -amount;
  }

  method DrawFlow(rng: Rng, p: ConsParams, x: Inputs, iban: string, j: nat, f: nat) returns (flow: CashFlow)
    requires ValidParams(p) && ValidInputs(x) && iban == Iban(x, j)
    requires rng.stream == x.stream && rng.cursor == FlowCursor(j, f)
    modifies rng
    ensures rng.cursor == FlowCursor(j, f + 1) && flow == FlowNumber(p, x, j, f)
  {
    hide Counterparties, ChoiceOf, FlowAmount, SettledFlow, Iban, CurrencyAt, FlowCursor, IntOf;
    NextFlow(j, f);
    var amount := DrawAmount(rng, x);
    var age := rng.RandInt(0, 29);
    var name := rng.Choice(Counterparties());
    var number := rng.RandInt(100000, 999999);
    flow := SettledFlow(iban, CurrencyAt(p, j), amount, x.today - age, name, number);
  }

  /** Account `j` and its flows; returns what it adds to the total. */
  method AppendAccount(batch: GeneratedBatch, rng: Rng, p: ConsParams, x: Inputs, e: nat, j: nat) returns (euros: real)
    requires ValidParams(p) && ValidInputs(x) && rng.stream == x.stream && rng.cursor == CursorAt(j)
    modifies batch, rng
    ensures rng.cursor == CursorAt(j + 1) && euros == InEuros(p, x, j)
    ensures batch.records == old(batch.records) + ([AccountRecord(p, x, e, j)] + FlowsUpTo(p, x, j, FLOWS_PER_ACCOUNT))
  {
    hide IbanAt, DumpAccount, DumpFlow, Money, UniformOf, FlowNumber, EntityLabel, Amount, Code;
    var c := CurrencyAt(p, j);
    var balance := rng.Uniform(20000.0, 800000.0);
    var iban := TestIban(rng);
    var account := AccountFor(iban, c, j, EntityLabel(x.target, e), balance);
    euros := Part(Rate(c), Amount(account.balance));
    batch.Append(Record(BankAccountKind, DumpAccount(account)));
    ghost var before := batch.records;
    for f := 0 to FLOWS_PER_ACCOUNT
      invariant rng.cursor == FlowCursor(j, f)
      invariant batch.records == before + FlowsUpTo(p, x, j, f)
    {
      var flow := DrawFlow(rng, p, x, iban, j, f);
      batch.Append(Record(CashFlowKind, DumpFlow(flow)));
    }
  }

  /** One entity's accounts; returns the total and the account index they lead to. */
  method AppendEntity(batch: GeneratedBatch, rng: Rng, p: ConsParams, x: Inputs, e: nat, soFar: real, index: nat)
    returns (total: real, accountIndex: nat)
    requires ValidParams(p) && ValidInputs(x) && rng.stream == x.stream
    requires index == AccountIndex(p, e, 0) && rng.cursor == CursorAt(index)
    requires batch.records == RecordsUpTo(p, x, e, 0) && soFar == Total(p, x, index)
    modifies batch, rng
    ensures accountIndex == AccountIndex(p, e + 1, 0) && rng.cursor == CursorAt(accountIndex)
    ensures batch.records == RecordsUpTo(p, x, e + 1, 0) && total == Total(p, x, accountIndex)
  {
    hide AccountRecord, FlowsUpTo, InEuros;
    total, accountIndex := soFar, index;
    for a := 0 to p.perEntity
      invariant accountIndex == AccountIndex(p, e, a) && rng.cursor == CursorAt(accountIndex)
      invariant batch.records == RecordsUpTo(p, x, e, a) && total == Total(p, x, accountIndex)
    {
      var euros := AppendAccount(batch, rng, p, x, e, accountIndex);
      total := total + euros;
      accountIndex := accountIndex + 1;
    }
    AccountIndices(p, e);
  }

  lemma StartsEmpty(p: ConsParams, x: Inputs)
    requires ValidParams(p) && ValidInputs(x)
    ensures RecordsUpTo(p, x, 0, 0) == [] && Total(p, x, 0) == 0.0 && CursorAt(0) == 0
  {
  }

  /** `generate`, after coercion: exactly the specified records; the manifest totals the printed
      balances. */
  method Run(p: ConsParams, x: Inputs) returns (batch: GeneratedBatch)
    requires ValidParams(p) && ValidInputs(x)
    ensures fresh(batch) && batch.records == Records(p, x)
    ensures batch.groundTruth == Manifest(p, Total(p, x, p.entities * p.perEntity))
  {
    hide AccountIndex, Manifest, RecordsUpTo, Total, CursorAt;
    StartsEmpty(p, x);
    var rng := new Rng(x.stream);
    batch := new GeneratedBatch();
    var total, accountIndex := 0.0, 0;
    AccountIndices(p, 0);
    AllAccounts(p);
    for e := 0 to p.entities
      invariant fresh(batch) && fresh(rng) && rng.stream == x.stream
      invariant accountIndex == AccountIndex(p, e, 0) && rng.cursor == CursorAt(accountIndex)
      invariant batch.records == RecordsUpTo(p, x, e, 0) && total == Total(p, x, accountIndex)
    {
      total, accountIndex := AppendEntity(batch, rng, p, x, e, total, accountIndex);
    }
    batch.groundTruth := Manifest(p, total);
  }

  // ---------------------------------------------------------------------------
  // From raw parameters
  // ---------------------------------------------------------------------------

  function Schema(): (schema: seq<ParamSpec>)
    ensures |schema| == 3
  {
    [IntSpec("entities", 4, 1, 15),
     IntSpec("accounts_per_entity", 2, 1, 10),
     MultiSpec("currencies", [Code(Eur), Code(Usd)], Codes())]
  }

  lemma SchemaWellFormed()
    ensures WellFormed(Schema())
  {
    IntSpecWellFormed("entities", 4, 1, 15);
    IntSpecWellFormed("accounts_per_entity", 2, 1, 10);
    EveryCode(Eur);
    EveryCode(Usd);
    MultiSpecWellFormed("currencies", [Code(Eur), Code(Usd)], Codes());
    assert |"entities"| == 8 && |"accounts_per_entity"| == 19 && |"currencies"| == 10;
  }

  function ReadParams(out: map<string, Param>): ConsParams {
    var entities, perEntity := IntOr(out, "entities", 1), IntOr(out, "accounts_per_entity", 1);
    ConsParams(if entities < 0 then 0 else entities, if perEntity < 0 then 0 else perEntity,
               ReadCurrencies(ListOf(out, "currencies")))
  }

  lemma ReadParamsValid(params: map<string, Param>, out: map<string, Param>)
    requires WellFormed(Schema()) && CoercesTo(Schema(), params, out)
    ensures ValidParams(ReadParams(out))
  {
    hide IntOr, ListOf, CoercesTo, IntSpec, MultiSpec, Codes, Code;
    CoercedInt(Schema(), params, out, 0, "entities", 4, 1, 15, 1);
    CoercedInt(Schema(), params, out, 1, "accounts_per_entity", 2, 1, 10, 1);
    CoercedMulti(Schema(), params, out, 2, "currencies", [Code(Eur), Code(Usd)], Codes());
  }

  /** `p` is what coercion makes of the parameters sent. */
  ghost predicate CoercedFrom(params: map<string, Param>, p: ConsParams) {
    WellFormed(Schema()) && exists out :: CoercesTo(Schema(), params, out) && ReadParams(out) == p
  }

  /** `generate` from raw parameters: it raises exactly when a conversion overflows, and otherwise
      returns the batch specified for the coerced values. */
  method Generate(params: map<string, Param>, x: Inputs) returns (batch: GeneratedBatch?, p: ConsParams)
    requires ValidInputs(x)
    ensures WellFormed(Schema())
    ensures batch == null <==> Overflows(Schema(), params)
    ensures batch != null ==>
              && fresh(batch) && ValidParams(p) && batch.records == Records(p, x)
              && batch.groundTruth == Manifest(p, Total(p, x, p.entities * p.perEntity))
              && CoercedFrom(params, p)
  {
    hide Records, Manifest, Total, Overflows, CoercesTo, ReadParams, WellFormed, Schema;
    SchemaWellFormed();
    RaisesOnOverflow(Schema(), params);
    p := ConsParams(1, 1, [Eur]);
    var r := CoerceParams(Schema(), params);
    if r.OverflowError? {
      return null, p;
    }
    ReadParamsValid(params, r.out);
    p := ReadParams(r.out);
    batch := Run(p, x);
  }
}
