/** `connect.firewall.v1`: good cash flows, then defective copies of them, and a manifest of what
    the data-quality firewall and the deduplication should find. */
module Firewall {
  import opened Options
  import opened Text
  import opened Random
  import opened CanonicalJson
  import opened Calendar
  import opened Models
  import opened Fabrication
  import opened Sequences
  import opened GroundTruth
  import opened Params

  datatype Defect = MissingField | IncoherentAmount | DupSourceHash

  /** The coerced parameters. */
  datatype FirewallParams = FirewallParams(baseFlows: nat, badRatio: real, defects: seq<Defect>)

  predicate ValidParams(p: FirewallParams) {
    1 <= p.baseFlows <= 2000 && 0.0 <= p.badRatio <= 1.0 && p.defects != []
  }

  // ---------------------------------------------------------------------------
  // The batch as a function of its inputs
  // ---------------------------------------------------------------------------

  function BadCount(p: FirewallParams): (n: nat)
    requires ValidParams(p)
    ensures n <= p.baseFlows
  {
    Share(p.baseFlows, p.badRatio)
  }

  function DefectAt(p: FirewallParams, k: nat): Defect
    requires p.defects != []
  {
    p.defects[k % |p.defects|]
  }

  function Account(x: Inputs): BankAccount {
    AccountOf(IbanAt(x.stream, 0), x.target, UniformOf(x.stream(18), 10000.0, 200000.0))
  }

  function SignedAmount(x: Inputs, j: nat): real {
    var c := 19 + 5 * j;
    var a := UniformOf(x.stream(c), 50.0, 15000.0);
    if x.stream(c + 1) < 0.5 then a else -a
  }

  function GoodRef(n: nat): string { "FW-" + Dec(n) }

  function BadRef(k: nat): string { "FW-BAD-" + Pad(k, 4) }

  function FlowOf(iban: string, signed: real, day: Day, counterparty: string, number: nat): CashFlow {
    CashFlow(iban, Money(signed), "EUR", day, None, if signed >= 0.0 then Credit else Debit,
             counterparty, "Règlement", Some(GoodRef(number)), None)
  }

  /** Good flow `j`. */
  function GoodFlow(x: Inputs, j: nat): CashFlow
    requires ValidInputs(x)
  {
    var c := 19 + 5 * j;
    FlowOf(IbanAt(x.stream, 0), SignedAmount(x, j), x.today - IntOf(x.stream(c + 2), 0, 29),
           ChoiceOf(x.stream(c + 3), Counterparties()), IntOf(x.stream(c + 4), 100000, 999999))
  }

  function GoodPayload(x: Inputs, j: nat): Payload
    requires ValidInputs(x)
  {
    DumpFlow(GoodFlow(x, j))
  }

  /** Which good flow bad record `k` is copied from. */
  function SourceOf(p: FirewallParams, x: Inputs, k: nat): (j: nat)
    requires ValidParams(p)
    ensures j < p.baseFlows
  {
    IntOf(x.stream(19 + 5 * p.baseFlows + k), 0, p.baseFlows - 1)
  }

  function BadAmount(k: nat): string {
    if k % 2 == 0 then "NOT_A_NUMBER" else "999999999999999"
  }

  /** The defect applied to a copy of a good payload. */
  function Spoil(base: Payload, defect: Defect, k: nat): Payload {
    match defect
    case DupSourceHash => base
    case MissingField => base["ref" := Str(BadRef(k))] - {"currency"}
    case IncoherentAmount => base["ref" := Str(BadRef(k))]["amount" := Str(BadAmount(k))]
  }

  function BadPayload(p: FirewallParams, x: Inputs, k: nat): Payload
    requires ValidParams(p) && ValidInputs(x)
  {
    Spoil(GoodPayload(x, SourceOf(p, x, k)), DefectAt(p, k), k)
  }

  /** The payload at each index: the account, the good flows, the bad records. */
  function PayloadAt(p: FirewallParams, x: Inputs, i: nat): Payload
    requires ValidParams(p) && ValidInputs(x)
  {
    if i == 0 then DumpAccount(Account(x))
    else if i <= p.baseFlows then GoodPayload(x, i - 1)
    else BadPayload(p, x, i - 1 - p.baseFlows)
  }

  function KindAt(i: nat): Kind {
    if i == 0 then BankAccountKind else CashFlowKind
  }

  function Size(p: FirewallParams): (n: nat)
    requires ValidParams(p)
    ensures n <= 4001
  {
    1 + p.baseFlows + BadCount(p)
  }

  function Records(p: FirewallParams, x: Inputs): (rs: seq<Record>)
    requires ValidParams(p) && ValidInputs(x)
    ensures |rs| == Size(p)
  {
    seq(Size(p), i requires 0 <= i < Size(p) => Record(KindAt(i), PayloadAt(p, x, i)))
  }

  function IsDuplicate(p: FirewallParams): nat -> bool
    requires p.defects != []
  {
    (k: nat) => DefectAt(p, k) == DupSourceHash
  }

  function IsQuarantined(p: FirewallParams): nat -> bool
    requires p.defects != []
  {
    (k: nat) => DefectAt(p, k) != DupSourceHash
  }

  function DefectName(d: Defect): string {
    match d
    case MissingField => "missing_field"
    case IncoherentAmount => "incoherent_amount"
    case DupSourceHash => "dup_source_hash"
  }

  function Reasons(p: FirewallParams, n: nat): map<string, Node>
    requires ValidParams(p)
  {
    if n == 0 then map[]
    else Reasons(p, n - 1)[Dec(p.baseFlows + n) := NText(DefectName(DefectAt(p, n - 1)))]
  }

  function Manifest(quarantined: nat, duplicates: nat, bad: nat, reasons: map<string, Node>): Node {
    NDict(map["expected_quarantined" := NInt(quarantined), "expected_duplicates" := NInt(duplicates),
              "expected_bad" := NInt(bad), "per_record_reason" := NDict(reasons)])
  }

  // ---------------------------------------------------------------------------
  // The generator
  // ---------------------------------------------------------------------------

  /** A payload dictionary as the heap object the generator shares and edits. */
  class Dict {
    var m: Payload

    constructor (m: Payload)
      ensures this.m == m
    {
      this.m := m;
    }

    /** `dict(d)`. */
    method Copy() returns (d: Dict)
      ensures fresh(d) && d.m == m
    {
      d := new Dict(m);
    }

    method Put(k: string, v: Value)
      modifies this
      ensures m == old(m)[k := v]
    {
      m := m[k := v];
    }

    method Pop(k: string)
      modifies this
      ensures m == old(m) - {k}
    {
      m := m - {k};
    }
  }

  datatype Entry = Entry(kind: Kind, payload: Dict)

  /** The container the generator fills: it holds references, so an edit to a shared payload would
      show in every record that refers to it. */
  class SharedBatch {
    var records: seq<Entry>
    var groundTruth: Node

    constructor ()
      ensures records == [] && groundTruth == NDict(map[])
    {
      records, groundTruth := [], NDict(map[]);
    }

    /** The records read, right now, as the given ones. */
    ghost predicate Shows(rs: seq<Record>)
      reads this`records, set i | 0 <= i < |records| :: records[i].payload
    {
      |records| == |rs| && forall i :: 0 <= i < |rs| ==> records[i].kind == rs[i].kind && records[i].payload.m == rs[i].payload
    }

    method Append(kind: Kind, payload: Dict)
      modifies this
      ensures records == old(records) + [Entry(kind, payload)] && groundTruth == old(groundTruth)
    {
      records := records + [Entry(kind, payload)];
    }
  }

  method DrawSigned(rng: Rng, x: Inputs, ghost j: nat) returns (signed: real)
    requires rng.stream == x.stream && rng.cursor == 19 + 5 * j
    modifies rng
    ensures rng.cursor == 21 + 5 * j && signed == SignedAmount(x, j)
  {
    var amount := rng.Uniform(50.0, 15000.0);
    var coin := rng.Random();
    signed := if coin < 0.5 then amount else -amount;
  }

  method MakeGoodFlow(rng: Rng, x: Inputs, iban: string, ghost j: nat) returns (d: Dict)
    requires ValidInputs(x) && rng.stream == x.stream && rng.cursor == 19 + 5 * j && iban == IbanAt(x.stream, 0)
    modifies rng
    ensures rng.cursor == 19 + 5 * (j + 1)
    ensures fresh(d) && d.m == GoodPayload(x, j)
  {
    hide DumpFlow, FlowOf, IbanAt, IntOf, SignedAmount, ChoiceOf, Counterparties;
    var signed := DrawSigned(rng, x, j);
    var age := rng.RandInt(0, 29);
    var counterparty := rng.Choice(Counterparties());
    var number := rng.RandInt(100000, 999999);
    var flow := FlowOf(iban, signed, x.today - age, counterparty, number);
    assert flow == GoodFlow(x, j);
    d := new Dict(DumpFlow(flow));
  }

  /** A defective copy of a good payload; the good payload itself is left alone. */
  method MakeBadRecord(good: Dict, defect: Defect, k: nat) returns (d: Dict)
    ensures fresh(d) && d.m == Spoil(good.m, defect, k)
  {
    d := good.Copy();
    if defect != DupSourceHash {
      d.Put("ref", Str(BadRef(k)));
      if defect == MissingField {
        d.Pop("currency");
      } else {
        d.Put("amount", Str(BadAmount(k)));
      }
    }
  }

  lemma AccountRecord(p: FirewallParams, x: Inputs)
    requires ValidParams(p) && ValidInputs(x)
    ensures Records(p, x)[0] == Record(BankAccountKind, DumpAccount(Account(x)))
  {
    hide DumpAccount, Account, GoodPayload, BadPayload;
  }

  lemma GoodRecord(p: FirewallParams, x: Inputs, j: nat)
    requires ValidParams(p) && ValidInputs(x) && j < p.baseFlows
    ensures Records(p, x)[1 + j] == Record(CashFlowKind, GoodPayload(x, j))
  {
    hide DumpAccount, Account, GoodPayload, BadPayload;
  }

  lemma BadRecord(p: FirewallParams, x: Inputs, k: nat)
    requires ValidParams(p) && ValidInputs(x) && k < BadCount(p)
    ensures Records(p, x)[1 + p.baseFlows + k] == Record(CashFlowKind, BadPayload(p, x, k))
  {
    hide DumpAccount, Account, GoodPayload, BadPayload;
  }

  /** The account record. */
  method FillAccount(batch: SharedBatch, rng: Rng, p: FirewallParams, x: Inputs) returns (iban: string)
    requires ValidParams(p) && ValidInputs(x) && rng.stream == x.stream && rng.cursor == 0 && batch.records == []
    modifies batch, rng
    ensures iban == IbanAt(x.stream, 0) && rng.cursor == 19
    ensures batch.Shows(Records(p, x)[..1]) && fresh(batch.records[0].payload)
  {
    hide Records, AccountOf, IbanAt, UniformOf, DumpAccount;
    iban := TestIban(rng);
    var balance := rng.Uniform(10000.0, 200000.0);
    var account := new Dict(DumpAccount(AccountOf(iban, x.target, balance)));
    batch.Append(BankAccountKind, account);
    AccountRecord(p, x);
  }

  /** The good flows; `good` refers to the very dictionaries in the batch. */
  method FillGood(batch: SharedBatch, rng: Rng, p: FirewallParams, x: Inputs, iban: string) returns (good: seq<Dict>)
    requires ValidParams(p) && ValidInputs(x) && rng.stream == x.stream && rng.cursor == 19 && iban == IbanAt(x.stream, 0)
    requires batch.Shows(Records(p, x)[..1])
    modifies batch, rng
    ensures rng.cursor == 19 + 5 * p.baseFlows
    ensures batch.Shows(Records(p, x)[..1 + p.baseFlows])
    ensures |good| == p.baseFlows
    ensures forall i :: 0 <= i < p.baseFlows ==> good[i] == batch.records[1 + i].payload && fresh(good[i])
    ensures batch.records[0] == old(batch.records[0])
  {
    hide Records, GoodPayload, IbanAt;
    ghost var rs := Records(p, x);
    good := [];
    for j := 0 to p.baseFlows
      invariant rng.cursor == 19 + 5 * j
      invariant batch.Shows(rs[..1 + j]) && batch.records[0] == old(batch.records[0])
      invariant |good| == j && forall i :: 0 <= i < j ==> good[i] == batch.records[1 + i].payload && fresh(good[i])
    {
      var d := MakeGoodFlow(rng, x, iban, j);
      good := good + [d];
      batch.Append(CashFlowKind, d);
      GoodRecord(p, x, j);
    }
  }

  /** Bad record `k`, on a copy of a good payload. */
  method AppendBad(batch: SharedBatch, rng: Rng, p: FirewallParams, x: Inputs, good: seq<Dict>, k: nat)
    requires ValidParams(p) && ValidInputs(x) && k < BadCount(p)
    requires rng.stream == x.stream && rng.cursor == 19 + 5 * p.baseFlows + k
    requires batch.Shows(Records(p, x)[..1 + p.baseFlows + k])
    requires |good| == p.baseFlows && forall i :: 0 <= i < p.baseFlows ==> good[i] == batch.records[1 + i].payload
    modifies batch, rng
    ensures rng.cursor == 19 + 5 * p.baseFlows + k + 1
    ensures batch.Shows(Records(p, x)[..1 + p.baseFlows + k + 1])
    ensures old(batch.records) <= batch.records
  {
    hide Records, GoodPayload, Spoil;
    var source := rng.RandInt(0, p.baseFlows - 1);
    GoodRecord(p, x, source);
    var d := MakeBadRecord(good[source], DefectAt(p, k), k);
    batch.Append(CashFlowKind, d);
    BadRecord(p, x, k);
  }

  /** The bad records and what the manifest says of them. The good records stay as they are. */
  method FillBad(batch: SharedBatch, rng: Rng, p: FirewallParams, x: Inputs, good: seq<Dict>)
    returns (quarantined: nat, duplicates: nat, reasons: map<string, Node>)
    requires ValidParams(p) && ValidInputs(x) && rng.stream == x.stream && rng.cursor == 19 + 5 * p.baseFlows
    requires batch.Shows(Records(p, x)[..1 + p.baseFlows])
    requires |good| == p.baseFlows && forall i :: 0 <= i < p.baseFlows ==> good[i] == batch.records[1 + i].payload
    modifies batch, rng
    ensures batch.Shows(Records(p, x))
    ensures old(batch.records) <= batch.records
    ensures quarantined == CountBelow(BadCount(p), IsQuarantined(p)) && duplicates == CountBelow(BadCount(p), IsDuplicate(p))
    ensures reasons == Reasons(p, BadCount(p))
  {
    hide Records, DefectName, BadCount, DefectAt;
    ghost var rs := Records(p, x);
    quarantined, duplicates, reasons := 0, 0, map[];
    var bad := BadCount(p);
    for k := 0 to bad
      invariant rng.cursor == 19 + 5 * p.baseFlows + k
      invariant batch.Shows(rs[..1 + p.baseFlows + k])
      invariant old(batch.records) <= batch.records
      invariant quarantined == CountBelow(k, IsQuarantined(p)) && duplicates == CountBelow(k, IsDuplicate(p))
      invariant reasons == Reasons(p, k)
    {
      var defect := DefectAt(p, k);
      if defect == DupSourceHash {
        duplicates := duplicates + 1;
      } else {
        quarantined := quarantined + 1;
      }
      reasons := reasons[Dec(|batch.records|) := NText(DefectName(defect))];
      assert reasons == Reasons(p, k + 1);
      AppendBad(batch, rng, p, x, good, k);
    }
    assert rs[..1 + p.baseFlows + bad] == rs;
  }

  /** `generate`, after coercion: the records and the manifest are exactly the specified ones. */
  method Run(p: FirewallParams, x: Inputs) returns (batch: SharedBatch)
    requires ValidParams(p) && ValidInputs(x)
    ensures fresh(batch) && batch.Shows(Records(p, x))
    ensures batch.groundTruth == Manifest(CountBelow(BadCount(p), IsQuarantined(p)), CountBelow(BadCount(p), IsDuplicate(p)),
                                          BadCount(p), Reasons(p, BadCount(p)))
  {
    hide Records, Manifest, BadCount, Reasons, IsQuarantined, IsDuplicate, CountBelow;
    var rng := new Rng(x.stream);
    batch := new SharedBatch();
    var iban := FillAccount(batch, rng, p, x);
    var good := FillGood(batch, rng, p, x, iban);
    var quarantined, duplicates, reasons := FillBad(batch, rng, p, x, good);
    batch.groundTruth := Manifest(quarantined, duplicates, BadCount(p), reasons);
  }

  // ---------------------------------------------------------------------------
  // From raw parameters
  // ---------------------------------------------------------------------------

  function DefectNames(): seq<string> {
    ["missing_field", "incoherent_amount", "dup_source_hash"]
  }

  function ReadDefect(s: string): Defect {
    if s == "dup_source_hash" then DupSourceHash else if s == "missing_field" then MissingField else IncoherentAmount
  }

  function ReadDefects(names: seq<string>): (ds: seq<Defect>)
    ensures |ds| == |names|
  {
    seq(|names|, i requires 0 <= i < |names| => ReadDefect(names[i]))
  }

  function Schema(): (schema: seq<ParamSpec>)
    ensures |schema| == 3
  {
    [IntSpec("base_flows", 50, 1, 2000),
     FloatSpec("bad_ratio", 0.3, 0.0, 1.0),
     MultiSpec("defect_types", DefectNames(), DefectNames())]
  }

  lemma SchemaWellFormed()
    ensures WellFormed(Schema())
  {
    IntSpecWellFormed("base_flows", 50, 1, 2000);
    MultiSpecWellFormed("defect_types", DefectNames(), DefectNames());
    assert |"base_flows"| == 10 && |"bad_ratio"| == 9 && |"defect_types"| == 12;
  }

  /** The parameters in coerced form; none when a NaN got through, which `round` refuses. */
  function ReadParams(out: map<string, Param>): Option<FirewallParams> {
    match RealOf(out, "bad_ratio")
    case None => None
    case Some(ratio) =>
      var n := IntOr(out, "base_flows", 1);
      if n < 1 then None else Some(FirewallParams(n, ratio, ReadDefects(ListOf(out, "defect_types"))))
  }

  lemma ReadParamsValid(params: map<string, Param>, out: map<string, Param>)
    requires WellFormed(Schema()) && CoercesTo(Schema(), params, out)
    ensures ReadParams(out).Some? <==> !SendsNaN(Schema()[1], params)
    ensures ReadParams(out).Some? ==> ValidParams(ReadParams(out).value)
  {
    hide IntOr, RealOf, ListOf, CoercesTo, IntSpec, FloatSpec, MultiSpec, ReadDefect, SendsNaN, DefectNames;
    CoercedInt(Schema(), params, out, 0, "base_flows", 50, 1, 2000, 1);
    CoercedFloat(Schema(), params, out, 1, "bad_ratio", 0.3, 0.0, 1.0);
    CoercedMulti(Schema(), params, out, 2, "defect_types", DefectNames(), DefectNames());
  }

  /** `p` is what coercion makes of the parameters sent. */
  ghost predicate CoercedFrom(params: map<string, Param>, p: FirewallParams) {
    WellFormed(Schema()) && exists out :: CoercesTo(Schema(), params, out) && ReadParams(out) == Some(p)
  }

  /** `generate` from raw parameters. It raises exactly when a conversion overflows or a NaN is sent
      for `bad_ratio`; otherwise the batch is the specified one for the coerced values. */
  method Generate(params: map<string, Param>, x: Inputs) returns (batch: SharedBatch?, p: FirewallParams)
    requires ValidInputs(x)
    ensures WellFormed(Schema())
    ensures batch == null <==> Overflows(Schema(), params) || SendsNaN(Schema()[1], params)
    ensures batch != null ==>
              && fresh(batch) && ValidParams(p) && batch.Shows(Records(p, x))
              && batch.groundTruth == Manifest(CountBelow(BadCount(p), IsQuarantined(p)), CountBelow(BadCount(p), IsDuplicate(p)),
                                               BadCount(p), Reasons(p, BadCount(p)))
              && CoercedFrom(params, p)
  {
    hide Records, IntSpec, FloatSpec, MultiSpec, Overflows, SendsNaN, CoercesTo, ReadParams, WellFormed, Schema;
    SchemaWellFormed();
    p := FirewallParams(1, 0.0, [MissingField]);
    var r := CoerceParams(Schema(), params);
    RaisesOnOverflow(Schema(), params);
    if r.OverflowError? {
      return null, p;
    }
    ReadParamsValid(params, r.out);
    var read := ReadParams(r.out);
    if read.None? {
      return null, p;
    }
    p := read.value;
    batch := Run(p, x);
  }

}
