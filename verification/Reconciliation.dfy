/** `finhub.reconciliation.v1`: bank flows and ERP legs that share reference, amount and date,
    except for a share of pairs broken on purpose. */
module Reconciliation {
  import opened Options
  import opened Text
  import opened Random
  import opened Calendar
  import opened Models
  import opened Fabrication
  import opened GroundTruth
  import opened Params

  datatype Mismatch = WrongAmount | WrongDate | MissingLeg

  datatype ReconParams = ReconParams(pairs: nat, mismatchRatio: real, types: seq<Mismatch>)

  predicate ValidParams(p: ReconParams) {
    1 <= p.pairs <= 2000 && 0.0 <= p.mismatchRatio <= 1.0 && p.types != []
  }

  function MismatchCount(p: ReconParams): (n: nat)
    requires ValidParams(p)
    ensures n <= p.pairs
  {
    Share(p.pairs, p.mismatchRatio)
  }

  /** How pair `i` is broken, if it is. */
  function MismatchOf(p: ReconParams, i: nat): Option<Mismatch>
    requires ValidParams(p)
  {
    if i < MismatchCount(p) then Some(p.types[i % |p.types|]) else None
  }

  // ---------------------------------------------------------------------------
  // The batch as a function of its inputs
  // ---------------------------------------------------------------------------

  /** The draws a pair takes: one more when its amount is broken. */
  function Draws(p: ReconParams, i: nat): nat
    requires ValidParams(p)
  {
    if MismatchOf(p, i) == Some(WrongAmount) then 4 else 3
  }

  function CursorAt(p: ReconParams, i: nat): nat
    requires ValidParams(p)
  {
    if i == 0 then 19 else CursorAt(p, i - 1) + Draws(p, i - 1)
  }

  function Account(x: Inputs): BankAccount {
    AccountOf(IbanAt(x.stream, 0), x.target, UniformOf(x.stream(18), 50000.0, 300000.0))
  }

  function PairRef(i: nat): string { "RECON-" + Pad(i, 5) }

  function PairAmount(p: ReconParams, x: Inputs, i: nat): real
    requires ValidParams(p)
  {
    UniformOf(x.stream(CursorAt(p, i)), 100.0, 20000.0)
  }

  function PairDay(p: ReconParams, x: Inputs, i: nat): Day
    requires ValidParams(p) && ValidInputs(x)
  {
    x.today - IntOf(x.stream(CursorAt(p, i) + 1), 0, 29)
  }

  function PairName(p: ReconParams, x: Inputs, i: nat): string
    requires ValidParams(p)
  {
    ChoiceOf(x.stream(CursorAt(p, i) + 2), Counterparties())
  }

  /** What a broken amount is off by. */
  function Delta(p: ReconParams, x: Inputs, i: nat): real
    requires ValidParams(p)
  {
    UniformOf(x.stream(CursorAt(p, i) + 3), 1.0, 50.0)
  }

  function BankFlowOf(iban: string, amount: real, day: Day, name: string, ref: string): CashFlow {
    CashFlow(iban, Money(-amount), "EUR", day, None, Debit, name, "Règlement " + name, Some(ref), None)
  }

  function ErpLegOf(iban: string, amount: real, day: Day, name: string, ref: string): ErpEntry {
    ErpEntry(ref, Money(-amount), "EUR", day, "Écriture " + name, Some(iban))
  }

  function BankFlow(p: ReconParams, x: Inputs, i: nat): CashFlow
    requires ValidParams(p) && ValidInputs(x)
  {
    BankFlowOf(IbanAt(x.stream, 0), PairAmount(p, x, i), PairDay(p, x, i), PairName(p, x, i), PairRef(i))
  }

  function LegAmount(p: ReconParams, x: Inputs, i: nat): real
    requires ValidParams(p)
  {
    if MismatchOf(p, i) == Some(WrongAmount) then PairAmount(p, x, i) + Delta(p, x, i) else PairAmount(p, x, i)
  }

  function LegDay(p: ReconParams, x: Inputs, i: nat): Day
    requires ValidParams(p) && ValidInputs(x)
  {
    if MismatchOf(p, i) == Some(WrongDate) then PairDay(p, x, i) + 3 else PairDay(p, x, i)
  }

  function ErpLeg(p: ReconParams, x: Inputs, i: nat): ErpEntry
    requires ValidParams(p) && ValidInputs(x)
  {
    ErpLegOf(IbanAt(x.stream, 0), LegAmount(p, x, i), LegDay(p, x, i), PairName(p, x, i), PairRef(i))
  }

  function BankRecord(p: ReconParams, x: Inputs, i: nat): Record
    requires ValidParams(p) && ValidInputs(x)
  {
    Record(CashFlowKind, DumpFlow(BankFlow(p, x, i)))
  }

  function LegRecord(p: ReconParams, x: Inputs, i: nat): Record
    requires ValidParams(p) && ValidInputs(x)
  {
    Record(ErpEntryKind, DumpErp(ErpLeg(p, x, i)))
  }

  function AccountRecord(x: Inputs): Record {
    Record(BankAccountKind, DumpAccount(Account(x)))
  }

  /** A pair's records: the ERP leg may be missing. */
  function PairRecords(p: ReconParams, x: Inputs, i: nat): seq<Record>
    requires ValidParams(p) && ValidInputs(x)
  {
    if MismatchOf(p, i) == Some(MissingLeg) then [BankRecord(p, x, i)] else [BankRecord(p, x, i), LegRecord(p, x, i)]
  }

  /** The account and the first `n` pairs. */
  function RecordsUpTo(p: ReconParams, x: Inputs, n: nat): seq<Record>
    requires ValidParams(p) && ValidInputs(x)
  {
    if n == 0 then [AccountRecord(x)] else RecordsUpTo(p, x, n - 1) + PairRecords(p, x, n - 1)
  }

  function Records(p: ReconParams, x: Inputs): seq<Record>
    requires ValidParams(p) && ValidInputs(x)
  {
    RecordsUpTo(p, x, p.pairs)
  }

  /** The index of pair `i`'s bank flow. */
  function Offset(p: ReconParams, i: nat): (o: nat)
    requires ValidParams(p)
    ensures 1 + i <= o <= 1 + 2 * i
  {
    if i == 0 then 1 else Offset(p, i - 1) + if MismatchOf(p, i - 1) == Some(MissingLeg) then 1 else 2
  }

  function MismatchName(m: Mismatch): string {
    match m
    case WrongAmount => "amount"
    case WrongDate => "date"
    case MissingLeg => "missing_leg"
  }

  function BrokenLeg(ref: string, m: Mismatch, index: nat): Node {
    NDict(map["ref" := NText(ref), "type" := NText(MismatchName(m)), INDEX := NInt(index)])
  }

  /** The manifest's entry for broken pair `i`: the index names the ERP leg. */
  function EntryOf(p: ReconParams, i: nat): Node
    requires ValidParams(p) && i < MismatchCount(p)
  {
    var m := MismatchOf(p, i).value;
    if m == MissingLeg then NDict(map["ref" := NText(PairRef(i)), "type" := NText(MismatchName(m))])
    else BrokenLeg(PairRef(i), m, Offset(p, i) + 1)
  }

  function Entries(p: ReconParams, n: nat): (es: seq<Node>)
    requires ValidParams(p)
    ensures |es| == if n < MismatchCount(p) then n else MismatchCount(p)
  {
    seq(if n < MismatchCount(p) then n else MismatchCount(p), i requires 0 <= i < MismatchCount(p) => EntryOf(p, i))
  }

  /** `round(value, 4)`. */
  function RoundTo4(v: real): real {
    Round(v * 10000.0) as real / 10000.0
  }

  function MatchRate(p: ReconParams): real
    requires ValidParams(p)
  {
    RoundTo4((p.pairs - MismatchCount(p)) as real / p.pairs as real)
  }

  lemma {:induction false} RecordsLength(p: ReconParams, x: Inputs, n: nat)
    requires ValidParams(p) && ValidInputs(x)
    ensures |RecordsUpTo(p, x, n)| == Offset(p, n)
  {
    hide BankRecord, LegRecord, AccountRecord;
    if n > 0 {
      RecordsLength(p, x, n - 1);
    }
  }

  // ---------------------------------------------------------------------------
  // The generator
  // ---------------------------------------------------------------------------

  /** The ERP leg's amount and date: off by an extra draw, or by three days, or as the bank flow. */
  method LegOf(rng: Rng, p: ReconParams, x: Inputs, i: nat, amount: real, day: Day) returns (legAmount: real, legDay: Day)
    requires ValidParams(p) && ValidInputs(x) && i < p.pairs && MismatchOf(p, i) != Some(MissingLeg)
    requires rng.stream == x.stream && rng.cursor == CursorAt(p, i) + 3
    requires amount == PairAmount(p, x, i) && day == PairDay(p, x, i)
    modifies rng
    ensures rng.cursor == CursorAt(p, i + 1)
    ensures legAmount == LegAmount(p, x, i) && legDay == LegDay(p, x, i)
  {
    hide PairAmount, PairDay, MismatchOf;
    legAmount, legDay := amount, day;
    var mismatch := MismatchOf(p, i);
    if mismatch == Some(WrongAmount) {
      var delta := rng.Uniform(1.0, 50.0);
      legAmount := amount + delta;
    } else if mismatch == Some(WrongDate) {
      legDay := day + 3;
    }
  }

  method DrawPair(rng: Rng, p: ReconParams, x: Inputs, i: nat) returns (amount: real, day: Day, name: string)
    requires ValidParams(p) && ValidInputs(x) && rng.stream == x.stream && rng.cursor == CursorAt(p, i)
    modifies rng
    ensures rng.cursor == CursorAt(p, i) + 3
    ensures amount == PairAmount(p, x, i) && day == PairDay(p, x, i) && name == PairName(p, x, i)
  {
    hide Counterparties, ChoiceOf, UniformOf;
    amount := rng.Uniform(100.0, 20000.0);
    var age := rng.RandInt(0, 29);
    day := x.today - age;
    name := rng.Choice(Counterparties());
  }

  /** Pair `i`: its records, and its manifest entry when it is broken. */
  method AppendPair(batch: GeneratedBatch, rng: Rng, p: ReconParams, x: Inputs, iban: string, i: nat)
    returns (entry: Option<Node>)
    requires ValidParams(p) && ValidInputs(x) && i < p.pairs && iban == IbanAt(x.stream, 0)
    requires rng.stream == x.stream && rng.cursor == CursorAt(p, i)
    requires batch.records == RecordsUpTo(p, x, i)
    modifies batch, rng
    ensures rng.cursor == CursorAt(p, i + 1)
    ensures batch.records == RecordsUpTo(p, x, i + 1)
    ensures entry.Some? <==> i < MismatchCount(p)
    ensures entry.Some? ==> entry.value == EntryOf(p, i)
  {
    hide DumpFlow, DumpErp, BankFlowOf, ErpLegOf, IbanAt, PairRef, MismatchName, PairAmount, PairDay, PairName,
         LegAmount, LegDay;
    RecordsLength(p, x, i);
    var ref := PairRef(i);
    var amount, day, name := DrawPair(rng, p, x, i);
    batch.Append(Record(CashFlowKind, DumpFlow(BankFlowOf(iban, amount, day, name, ref))));
    var mismatch := MismatchOf(p, i);
    if mismatch == Some(MissingLeg) {
      return Some(NDict(map["ref" := NText(ref), "type" := NText(MismatchName(MissingLeg))]));
    }
    var legAmount, legDay := LegOf(rng, p, x, i, amount, day);
    entry := if mismatch == None then None else Some(BrokenLeg(ref, mismatch.value, |batch.records|));
    batch.Append(Record(ErpEntryKind, DumpErp(ErpLegOf(iban, legAmount, legDay, name, ref))));
  }

  function Manifest(p: ReconParams): Node
    requires ValidParams(p)
  {
    NDict(map["expected_auto_match_rate" := NFloat(MatchRate(p)), "mismatched_pairs" := NList(Entries(p, p.pairs))])
  }

  /** `generate`, after coercion: exactly the specified records and manifest. */
  method Run(p: ReconParams, x: Inputs) returns (batch: GeneratedBatch)
    requires ValidParams(p) && ValidInputs(x)
    ensures fresh(batch) && batch.records == Records(p, x) && batch.groundTruth == Manifest(p)
  {
    hide AccountOf, IbanAt, DumpAccount, EntryOf, PairRecords, MatchRate;
    var rng := new Rng(x.stream);
    batch := new GeneratedBatch();
    var iban := TestIban(rng);
    var balance := rng.Uniform(50000.0, 300000.0);
    batch.Append(Record(BankAccountKind, DumpAccount(AccountOf(iban, x.target, balance))));
    var mismatched: seq<Node> := [];
    for i := 0 to p.pairs
      invariant fresh(batch) && fresh(rng) && rng.stream == x.stream && rng.cursor == CursorAt(p, i)
      invariant batch.records == RecordsUpTo(p, x, i)
      invariant mismatched == Entries(p, i)
    {
      var entry := AppendPair(batch, rng, p, x, iban, i);
      if entry.Some? {
        mismatched := mismatched + [entry.value];
      }
    }
    batch.groundTruth := NDict(map["expected_auto_match_rate" := NFloat(MatchRate(p)), "mismatched_pairs" := NList(mismatched)]);
  }

  // ---------------------------------------------------------------------------
  // From raw parameters
  // ---------------------------------------------------------------------------

  function MismatchNames(): seq<string> {
    ["amount", "date", "missing_leg"]
  }

  function ReadMismatch(s: string): Mismatch {
    if s == "missing_leg" then MissingLeg else if s == "amount" then WrongAmount else WrongDate
  }

  function ReadMismatches(names: seq<string>): (ms: seq<Mismatch>)
    ensures |ms| == |names|
  {
    seq(|names|, i requires 0 <= i < |names| => ReadMismatch(names[i]))
  }

  function Schema(): (schema: seq<ParamSpec>)
    ensures |schema| == 3
  {
    [IntSpec("pairs", 100, 1, 2000),
     FloatSpec("mismatch_ratio", 0.15, 0.0, 1.0),
     MultiSpec("mismatch_types", MismatchNames(), MismatchNames())]
  }

  lemma SchemaWellFormed()
    ensures WellFormed(Schema())
  {
    IntSpecWellFormed("pairs", 100, 1, 2000);
    MultiSpecWellFormed("mismatch_types", MismatchNames(), MismatchNames());
    assert |"pairs"| == 5 && |"mismatch_ratio"| == 14 && |"mismatch_types"| == 14;
    assert "mismatch_ratio"[9] != "mismatch_types"[9];
  }

  /** The parameters in coerced form; none when a NaN got through, which `round` refuses. */
  function ReadParams(out: map<string, Param>): Option<ReconParams> {
    match RealOf(out, "mismatch_ratio")
    case None => None
    case Some(ratio) =>
      var n := IntOr(out, "pairs", 1);
      if n < 1 then None else Some(ReconParams(n, ratio, ReadMismatches(ListOf(out, "mismatch_types"))))
  }

  lemma ReadParamsValid(params: map<string, Param>, out: map<string, Param>)
    requires WellFormed(Schema()) && CoercesTo(Schema(), params, out)
    ensures ReadParams(out).Some? <==> !SendsNaN(Schema()[1], params)
    ensures ReadParams(out).Some? ==> ValidParams(ReadParams(out).value)
  {
    hide IntOr, RealOf, ListOf, CoercesTo, IntSpec, FloatSpec, MultiSpec, ReadMismatch, SendsNaN, MismatchNames;
    CoercedInt(Schema(), params, out, 0, "pairs", 100, 1, 2000, 1);
    CoercedFloat(Schema(), params, out, 1, "mismatch_ratio", 0.15, 0.0, 1.0);
    CoercedMulti(Schema(), params, out, 2, "mismatch_types", MismatchNames(), MismatchNames());
  }


  /** `p` is what coercion makes of the parameters sent. */
  ghost predicate CoercedFrom(params: map<string, Param>, p: ReconParams) {
    WellFormed(Schema()) && exists out :: CoercesTo(Schema(), params, out) && ReadParams(out) == Some(p)
  }

  /** `generate` from raw parameters: it raises exactly when a conversion overflows or a NaN is sent
      for `mismatch_ratio`, and otherwise returns the batch specified for the coerced values. */
  method Generate(params: map<string, Param>, x: Inputs) returns (batch: GeneratedBatch?, p: ReconParams)
    requires ValidInputs(x)
    ensures WellFormed(Schema())
    ensures batch == null <==> Overflows(Schema(), params) || SendsNaN(Schema()[1], params)
    ensures batch != null ==>
              && fresh(batch) && ValidParams(p) && batch.records == Records(p, x) && batch.groundTruth == Manifest(p)
              && CoercedFrom(params, p)
  {
    hide Records, Manifest, IntSpec, FloatSpec, MultiSpec, Overflows, SendsNaN, CoercesTo, ReadParams,
         WellFormed, Schema;
    SchemaWellFormed();
    RaisesOnOverflow(Schema(), params);
    p := ReconParams(1, 0.0, [MissingLeg]);
    var r := CoerceParams(Schema(), params);
    if r.OverflowError? {
      return null, p;
    }
    ReadParamsValid(params, r.out);
    var read := ReadParams(r.out);
    if read.None? {
      return null, p;
    }
    p := read.value;
    batch := Run(p, x);
  }
}
