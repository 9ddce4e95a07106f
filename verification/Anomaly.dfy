/** `finhub.anomaly.v1`: a stable baseline of cash flows, then labelled anomalies of four kinds. */
module Anomaly {
  import opened Options
  import opened Text
  import opened Random
  import opened Calendar
  import opened Models
  import opened Fabrication
  import opened GroundTruth
  import opened Params

  datatype AnomalyKind = AmountOutlier | OffHours | Duplicate | Structuring

  datatype AnomalyParams = AnomalyParams(baseFlows: nat, count: nat, kinds: seq<AnomalyKind>)

  predicate ValidParams(p: AnomalyParams) {
    10 <= p.baseFlows <= 2000 && 1 <= p.count <= 50 && p.kinds != []
  }

  const SLICES := 5

  function KindOf(p: AnomalyParams, k: nat): AnomalyKind
    requires p.kinds != []
  {
    p.kinds[k % |p.kinds|]
  }

  // ---------------------------------------------------------------------------
  // The flows
  // ---------------------------------------------------------------------------

  /** Where a flow of the batch comes from: baseline flow `i`, or part `s` of anomaly `k`. */
  datatype Slot = Base(i: nat) | Injected(k: nat, s: nat)

  function Account(x: Inputs): BankAccount {
    AccountOf(IbanAt(x.stream, 0), x.target, UniformOf(x.stream(18), 100000.0, 400000.0))
  }

  /** The median amount of counterparty `c`. */
  function Median(x: Inputs, c: nat): real {
    UniformOf(x.stream(19 + c), 500.0, 8000.0)
  }

  function Medians(x: Inputs, n: nat): (ms: seq<real>)
    ensures |ms| == n
  {
    seq(n, c requires 0 <= c < n => Median(x, c))
  }

  function DebitFlow(iban: string, amount: real, booked: Moment, day: Day, counterparty: string,
                     caption: string, ref: string): CashFlow {
    CashFlow(iban, Money(-amount), "EUR", day, Some(booked), Debit, counterparty, caption, Some(ref), None)
  }

  function BaseRef(i: nat): string { "ANM-" + Pad(i, 5) }
  function StructRef(k: nat, s: nat): string { "ANM-STR-" + Pad(k, 3) + ("-" + Dec(s)) }
  function OutlierRef(k: nat): string { "ANM-OUT-" + Pad(k, 3) }
  function OffHoursRef(k: nat): string { "ANM-OFH-" + Pad(k, 3) }

  function BaseMoment(x: Inputs, i: nat): Moment
    requires ValidInputs(x)
  {
    Moment(x.today - IntOf(x.stream(29 + 3 * i + 1), 0, 59), IntOf(x.stream(29 + 3 * i + 2), 9, 17), 30)
  }

  function BaseAmount(x: Inputs, i: nat): real {
    Part(Median(x, i % 10), 1.0 + UniformOf(x.stream(29 + 3 * i), -0.05, 0.05))
  }

  function BaseFlow(x: Inputs, i: nat): (f: CashFlow)
    requires ValidInputs(x)
    ensures f.bookedAt == Some(BaseMoment(x, i))
  {
    DebitFlow(IbanAt(x.stream, 0), BaseAmount(x, i), BaseMoment(x, i), BaseMoment(x, i).day,
              Counterparties()[i % 10], "Règlement fournisseur", BaseRef(i))
  }

  function AnomalyDay(p: AnomalyParams, x: Inputs, k: nat): Day
    requires ValidInputs(x)
  {
    x.today - IntOf(x.stream(29 + 3 * p.baseFlows + k), 0, 20)
  }

  /** `t + timedelta(minutes=n)`. */
  function PlusMinutes(t: Moment, n: nat): Moment {
    var m := t.minute + n;
    var h := t.hour + m / 60;
    Moment(t.day + h / 24, h % 24, m % 60)
  }

  /** A baseline flow re-emitted seven minutes later, everything else equal. */
  function Reemitted(f: CashFlow): CashFlow
    requires f.bookedAt.Some?
  {
    f.(bookedAt := Some(PlusMinutes(f.bookedAt.value, 7)))
  }

  function InjectedFlow(p: AnomalyParams, x: Inputs, k: nat, s: nat): CashFlow
    requires ValidParams(p) && ValidInputs(x)
  {
    var day := AnomalyDay(p, x, k);
    var iban, name, median := IbanAt(x.stream, 0), Counterparties()[k % 10], Median(x, k % 10);
    match KindOf(p, k)
    case Structuring => DebitFlow(iban, 9500.0, Moment(day, 10, 5 + s), day, name, "Virement fractionné", StructRef(k, s))
    case Duplicate => Reemitted(BaseFlow(x, k % p.baseFlows))
    case AmountOutlier => DebitFlow(iban, median * 12.0, Moment(day, 11, 0), day, name, "Règlement fournisseur", OutlierRef(k))
    case OffHours => DebitFlow(iban, median, Moment(day, 3, 0), day, name, "Règlement fournisseur", OffHoursRef(k))
  }

  function FlowAt(p: AnomalyParams, x: Inputs, slot: Slot): CashFlow
    requires ValidParams(p) && ValidInputs(x)
  {
    match slot
    case Base(i) => BaseFlow(x, i)
    case Injected(k, s) => InjectedFlow(p, x, k, s)
  }

  // ---------------------------------------------------------------------------
  // The batch
  // ---------------------------------------------------------------------------

  function Width(p: AnomalyParams, k: nat): nat
    requires p.kinds != []
  {
    if KindOf(p, k) == Structuring then SLICES else 1
  }

  function BaseSlots(n: nat): (slots: seq<Slot>)
    ensures |slots| == n
  {
    seq(n, i requires 0 <= i < n => Base(i))
  }

  function BlockSlots(k: nat, width: nat): (slots: seq<Slot>)
    ensures |slots| == width
  {
    seq(width, s requires 0 <= s < width => Injected(k, s))
  }

  /** The flows of the baseline and of the first `n` anomalies, in order. */
  function Slots(p: AnomalyParams, n: nat): seq<Slot>
    requires p.kinds != []
  {
    if n == 0 then BaseSlots(p.baseFlows) else Slots(p, n - 1) + BlockSlots(n - 1, Width(p, n - 1))
  }

  function RecordAt(p: AnomalyParams, x: Inputs, slot: Slot): Record
    requires ValidParams(p) && ValidInputs(x)
  {
    Record(CashFlowKind, DumpFlow(FlowAt(p, x, slot)))
  }

  function AccountRecord(x: Inputs): Record {
    Record(BankAccountKind, DumpAccount(Account(x)))
  }

  function RecordsOf(p: AnomalyParams, x: Inputs, slots: seq<Slot>): (rs: seq<Record>)
    requires ValidParams(p) && ValidInputs(x)
    ensures |rs| == 1 + |slots|
  {
    [AccountRecord(x)] + seq(|slots|, i requires 0 <= i < |slots| => RecordAt(p, x, slots[i]))
  }

  function Records(p: AnomalyParams, x: Inputs): seq<Record>
    requires ValidParams(p) && ValidInputs(x)
  {
    RecordsOf(p, x, Slots(p, p.count))
  }

  /** The index of anomaly `k`'s first record. */
  function Offset(p: AnomalyParams, k: nat): (o: nat)
    requires p.kinds != []
    ensures o >= 1 + p.baseFlows + k
  {
    if k == 0 then 1 + p.baseFlows else Offset(p, k - 1) + Width(p, k - 1)
  }

  function KindName(kind: AnomalyKind): string {
    match kind
    case AmountOutlier => "amount_outlier"
    case OffHours => "off_hours"
    case Duplicate => "duplicate"
    case Structuring => "structuring"
  }

  function Indices(from: nat, n: nat): (items: seq<Node>)
    ensures |items| == n
  {
    seq(n, i requires 0 <= i < n => NInt(from + i))
  }

  /** The manifest's entry for anomaly `k`: its kind and where its records are. */
  function EntryOf(p: AnomalyParams, k: nat): Node
    requires p.kinds != []
  {
    if KindOf(p, k) == Structuring
    then NDict(map["type" := NText(KindName(KindOf(p, k))), INDICES := NList(Indices(Offset(p, k), SLICES))])
    else NDict(map["type" := NText(KindName(KindOf(p, k))), INDEX := NInt(Offset(p, k))])
  }

  function Entries(p: AnomalyParams, n: nat): (es: seq<Node>)
    requires p.kinds != []
    ensures |es| == n
  {
    seq(n, k requires 0 <= k < n => EntryOf(p, k))
  }

  function Manifest(p: AnomalyParams): Node
    requires p.kinds != []
  {
    NDict(map["injected_anomalies" := NList(Entries(p, p.count))])
  }

  lemma {:induction false} SlotsLength(p: AnomalyParams, n: nat)
    requires p.kinds != []
    ensures 1 + |Slots(p, n)| == Offset(p, n)
  {
    if n > 0 {
      SlotsLength(p, n - 1);
    }
  }

  lemma OneMoreRecord(p: AnomalyParams, x: Inputs, slots: seq<Slot>, slot: Slot)
    requires ValidParams(p) && ValidInputs(x)
    ensures RecordsOf(p, x, slots + [slot]) == RecordsOf(p, x, slots) + [RecordAt(p, x, slot)]
  {
    hide RecordAt, AccountRecord;
    assert slots + [slot] == slots + [slot];
  }

  // ---------------------------------------------------------------------------
  // The generator
  // ---------------------------------------------------------------------------

  method DrawMedians(rng: Rng, x: Inputs) returns (medians: seq<real>)
    requires rng.stream == x.stream && rng.cursor == 19
    modifies rng
    ensures rng.cursor == 29 && medians == Medians(x, 10)
  {
    medians := [];
    for c := 0 to 10
      invariant rng.cursor == 19 + c && medians == Medians(x, c)
    {
      var m := rng.Uniform(500.0, 8000.0);
      medians := medians + [m];
    }
  }

  method MakeBaseFlow(rng: Rng, x: Inputs, iban: string, medians: seq<real>, i: nat) returns (flow: CashFlow)
    requires ValidInputs(x) && rng.stream == x.stream && rng.cursor == 29 + 3 * i
    requires iban == IbanAt(x.stream, 0) && medians == Medians(x, 10)
    modifies rng
    ensures rng.cursor == 29 + 3 * (i + 1) && flow == BaseFlow(x, i)
  {
    hide IbanAt, DebitFlow, Counterparties, Median, IntOf, UniformOf, Part;
    var swing := rng.Uniform(-0.05, 0.05);
    var amount := Part(medians[i % 10], 1.0 + swing);
    var age := rng.RandInt(0, 59);
    var day := x.today - age;
    var hour := rng.RandInt(9, 17);
    flow := DebitFlow(iban, amount, Moment(day, hour, 30), day, Counterparties()[i % 10], "Règlement fournisseur", BaseRef(i));
  }

  method FillBaseline(batch: GeneratedBatch, rng: Rng, p: AnomalyParams, x: Inputs, iban: string, medians: seq<real>)
    returns (baseline: seq<CashFlow>)
    requires ValidParams(p) && ValidInputs(x) && rng.stream == x.stream && rng.cursor == 29
    requires iban == IbanAt(x.stream, 0) && medians == Medians(x, 10)
    requires batch.records == RecordsOf(p, x, BaseSlots(0))
    modifies batch, rng
    ensures rng.cursor == 29 + 3 * p.baseFlows
    ensures batch.records == RecordsOf(p, x, BaseSlots(p.baseFlows))
    ensures |baseline| == p.baseFlows && forall i :: 0 <= i < p.baseFlows ==> baseline[i] == BaseFlow(x, i)
  {
    hide RecordsOf, DumpFlow, IbanAt, BaseFlow;
    baseline := [];
    for i := 0 to p.baseFlows
      invariant rng.cursor == 29 + 3 * i
      invariant batch.records == RecordsOf(p, x, BaseSlots(i))
      invariant |baseline| == i && forall j :: 0 <= j < i ==> baseline[j] == BaseFlow(x, j)
    {
      var flow := MakeBaseFlow(rng, x, iban, medians, i);
      baseline := baseline + [flow];
      batch.Append(Record(CashFlowKind, DumpFlow(flow)));
      OneMoreRecord(p, x, BaseSlots(i), Base(i));
      assert BaseSlots(i) + [Base(i)] == BaseSlots(i + 1);
    }
  }

  /** The five same-day slices of a structuring anomaly, and their indices. */
  method AppendSlices(batch: GeneratedBatch, p: AnomalyParams, x: Inputs, iban: string, day: Day, k: nat)
    returns (indices: seq<Node>)
    requires ValidParams(p) && ValidInputs(x) && KindOf(p, k) == Structuring
    requires iban == IbanAt(x.stream, 0) && day == AnomalyDay(p, x, k)
    requires batch.records == RecordsOf(p, x, Slots(p, k))
    modifies batch
    ensures batch.records == RecordsOf(p, x, Slots(p, k + 1))
    ensures indices == Indices(Offset(p, k), SLICES)
  {
    hide RecordsOf, DumpFlow, IbanAt, DebitFlow, Counterparties, StructRef, AnomalyDay;
    SlotsLength(p, k);
    ghost var before := Slots(p, k);
    indices := [];
    assert before + BlockSlots(k, 0) == before;
    for s := 0 to SLICES
      invariant batch.records == RecordsOf(p, x, before + BlockSlots(k, s))
      invariant indices == Indices(Offset(p, k), s)
    {
      var flow := DebitFlow(iban, 9500.0, Moment(day, 10, 5 + s), day, Counterparties()[k % 10],
                            "Virement fractionné", StructRef(k, s));
      assert flow == FlowAt(p, x, Injected(k, s));
      indices := indices + [NInt(|batch.records|)];
      OneMoreRecord(p, x, before + BlockSlots(k, s), Injected(k, s));
      batch.Append(Record(CashFlowKind, DumpFlow(flow)));
      assert before + BlockSlots(k, s) + [Injected(k, s)] == before + BlockSlots(k, s + 1);
    }
  }

  /** A one-record anomaly. */
  method AppendSingle(batch: GeneratedBatch, p: AnomalyParams, x: Inputs, flow: CashFlow, k: nat) returns (index: nat)
    requires ValidParams(p) && ValidInputs(x) && KindOf(p, k) != Structuring && flow == FlowAt(p, x, Injected(k, 0))
    requires batch.records == RecordsOf(p, x, Slots(p, k))
    modifies batch
    ensures batch.records == RecordsOf(p, x, Slots(p, k + 1)) && index == Offset(p, k)
  {
    hide RecordsOf, DumpFlow, FlowAt;
    SlotsLength(p, k);
    index := |batch.records|;
    OneMoreRecord(p, x, Slots(p, k), Injected(k, 0));
    batch.Append(Record(CashFlowKind, DumpFlow(flow)));
    assert BlockSlots(k, 1) == [Injected(k, 0)];
  }

  /** Anomaly `k`: its records and its manifest entry. */
  method AppendAnomaly(batch: GeneratedBatch, rng: Rng, p: AnomalyParams, x: Inputs, iban: string,
                       medians: seq<real>, baseline: seq<CashFlow>, k: nat) returns (entry: Node)
    requires ValidParams(p) && ValidInputs(x) && rng.stream == x.stream && rng.cursor == 29 + 3 * p.baseFlows + k
    requires iban == IbanAt(x.stream, 0) && medians == Medians(x, 10)
    requires |baseline| == p.baseFlows && forall i :: 0 <= i < p.baseFlows ==> baseline[i] == BaseFlow(x, i)
    requires batch.records == RecordsOf(p, x, Slots(p, k))
    modifies batch, rng
    ensures rng.cursor == 29 + 3 * p.baseFlows + k + 1
    ensures batch.records == RecordsOf(p, x, Slots(p, k + 1))
    ensures entry == EntryOf(p, k)
  {
    hide RecordsOf, DumpFlow, IbanAt, DebitFlow, Counterparties, OutlierRef, OffHoursRef, BaseFlow, Slots, KindName;
    var kind := KindOf(p, k);
    var name, median := Counterparties()[k % 10], medians[k % 10];
    var age := rng.RandInt(0, 20);
    var day := x.today - age;
    if kind == Structuring {
      var indices := AppendSlices(batch, p, x, iban, day, k);
      return NDict(map["type" := NText(KindName(kind)), INDICES := NList(indices)]);
    }
    var flow: CashFlow;
    if kind == Duplicate {
      flow := Reemitted(baseline[k % p.baseFlows]);
    } else if kind == AmountOutlier {
      flow := DebitFlow(iban, median * 12.0, Moment(day, 11, 0), day, name, "Règlement fournisseur", OutlierRef(k));
    } else {
      flow := DebitFlow(iban, median, Moment(day, 3, 0), day, name, "Règlement fournisseur", OffHoursRef(k));
    }
    assert flow == FlowAt(p, x, Injected(k, 0));
    var index := AppendSingle(batch, p, x, flow, k);
    entry := NDict(map["type" := NText(KindName(kind)), INDEX := NInt(index)]);
  }

  lemma NoFlows(p: AnomalyParams, x: Inputs)
    requires ValidParams(p) && ValidInputs(x)
    ensures RecordsOf(p, x, BaseSlots(0)) == [AccountRecord(x)]
  {
    hide AccountRecord, RecordAt;
  }

  /** `generate`, after coercion: exactly the specified records and manifest. */
  method Run(p: AnomalyParams, x: Inputs) returns (batch: GeneratedBatch)
    requires ValidParams(p) && ValidInputs(x)
    ensures fresh(batch) && batch.records == Records(p, x) && batch.groundTruth == Manifest(p)
  {
    hide RecordsOf, AccountOf, IbanAt, DumpAccount, EntryOf;
    var rng := new Rng(x.stream);
    batch := new GeneratedBatch();
    var iban := TestIban(rng);
    var balance := rng.Uniform(100000.0, 400000.0);
    batch.Append(Record(BankAccountKind, DumpAccount(AccountOf(iban, x.target, balance))));
    NoFlows(p, x);
    var medians := DrawMedians(rng, x);
    var baseline := FillBaseline(batch, rng, p, x, iban, medians);
    var injected: seq<Node> := [];
    for k := 0 to p.count
      invariant fresh(batch) && fresh(rng) && rng.stream == x.stream && rng.cursor == 29 + 3 * p.baseFlows + k
      invariant batch.records == RecordsOf(p, x, Slots(p, k))
      invariant injected == Entries(p, k)
    {
      var entry := AppendAnomaly(batch, rng, p, x, iban, medians, baseline, k);
      injected := injected + [entry];
    }
    batch.groundTruth := NDict(map["injected_anomalies" := NList(injected)]);
  }

  // ---------------------------------------------------------------------------
  // From raw parameters
  // ---------------------------------------------------------------------------

  function KindNames(): seq<string> {
    ["amount_outlier", "off_hours", "duplicate", "structuring"]
  }

  function ReadKind(s: string): AnomalyKind {
    if s == "structuring" then Structuring
    else if s == "duplicate" then Duplicate
    else if s == "amount_outlier" then AmountOutlier
    else OffHours
  }

  function ReadKinds(names: seq<string>): (kinds: seq<AnomalyKind>)
    ensures |kinds| == |names|
  {
    seq(|names|, i requires 0 <= i < |names| => ReadKind(names[i]))
  }

  function Schema(): (schema: seq<ParamSpec>)
    ensures |schema| == 3
  {
    [IntSpec("base_flows", 200, 10, 2000),
     IntSpec("anomaly_count", 5, 1, 50),
     MultiSpec("anomaly_types", KindNames(), KindNames())]
  }

  lemma SchemaWellFormed()
    ensures WellFormed(Schema())
  {
    IntSpecWellFormed("base_flows", 200, 10, 2000);
    IntSpecWellFormed("anomaly_count", 5, 1, 50);
    MultiSpecWellFormed("anomaly_types", KindNames(), KindNames());
    assert |"base_flows"| == 10 && |"anomaly_count"| == 13 && |"anomaly_types"| == 13;
    assert "anomaly_count"[8] != "anomaly_types"[8];
  }

  function ReadParams(out: map<string, Param>): AnomalyParams {
    var n, k := IntOr(out, "base_flows", 10), IntOr(out, "anomaly_count", 1);
    AnomalyParams(if n < 0 then 0 else n, if k < 0 then 0 else k, ReadKinds(ListOf(out, "anomaly_types")))
  }

  lemma ReadParamsValid(params: map<string, Param>, out: map<string, Param>)
    requires WellFormed(Schema()) && CoercesTo(Schema(), params, out)
    ensures ValidParams(ReadParams(out))
  {
    hide IntOr, ListOf, CoercesTo, IntSpec, MultiSpec, ReadKind, KindNames;
    CoercedInt(Schema(), params, out, 0, "base_flows", 200, 10, 2000, 10);
    CoercedInt(Schema(), params, out, 1, "anomaly_count", 5, 1, 50, 1);
    CoercedMulti(Schema(), params, out, 2, "anomaly_types", KindNames(), KindNames());
  }

  /** `p` is what coercion makes of the parameters sent. */
  ghost predicate CoercedFrom(params: map<string, Param>, p: AnomalyParams) {
    WellFormed(Schema()) && exists out :: CoercesTo(Schema(), params, out) && ReadParams(out) == p
  }

  /** `generate` from raw parameters: it raises exactly when a conversion overflows, and otherwise
      returns the batch specified for the coerced values. */
  method Generate(params: map<string, Param>, x: Inputs) returns (batch: GeneratedBatch?, p: AnomalyParams)
    requires ValidInputs(x)
    ensures WellFormed(Schema())
    ensures batch == null <==> Overflows(Schema(), params)
    ensures batch != null ==>
              && fresh(batch) && ValidParams(p) && batch.records == Records(p, x) && batch.groundTruth == Manifest(p)
              && CoercedFrom(params, p)
  {
    hide Records, Manifest, IntSpec, MultiSpec, Overflows, CoercesTo, ReadParams, WellFormed, Schema;
    SchemaWellFormed();
    RaisesOnOverflow(Schema(), params);
    p := AnomalyParams(10, 1, [Duplicate]);
    var r := CoerceParams(Schema(), params);
    if r.OverflowError? {
      return null, p;
    }
    ReadParamsValid(params, r.out);
    p := ReadParams(r.out);
    batch := Run(p, x);
  }
}
