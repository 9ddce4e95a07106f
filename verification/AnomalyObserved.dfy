/** The anomaly batch as an observer sees it: which parameters it was made for, what the labels say and
    which records they name, and what is in each record. */
module AnomalyObserved {
  import opened Options
  import opened Text
  import opened Decimals
  import opened Random
  import opened Models
  import opened Fabrication
  import opened GroundTruth
  import opened Params
  import opened CoercionTruth
  import opened Anomaly
  import opened AnomalyTruth
  import opened AnomalyDetection
  import opened StructuringDetection

  // ---------------------------------------------------------------------------
  // Parameters
  // ---------------------------------------------------------------------------

  /** The anomaly types asked for, all four unless some are listed. */
  function TypesSent(params: map<string, Param>): seq<string> {
    var all := ["amount_outlier", "off_hours", "duplicate", "structuring"];
    ListSent(params, "anomaly_types", all, all)
  }

  /** Which text asks for which anomaly. */
  predicate Names(name: string, kind: AnomalyKind) {
    match kind
    case AmountOutlier => name == "amount_outlier"
    case OffHours => name == "off_hours"
    case Duplicate => name == "duplicate"
    case Structuring => name == "structuring"
  }

  lemma NamesApart(name: string, a: AnomalyKind, b: AnomalyKind)
    requires Names(name, a) && Names(name, b)
    ensures a == b
  {
    assert |"amount_outlier"| == 14 && |"off_hours"| == 9 && |"duplicate"| == 9 && |"structuring"| == 11;
    assert "off_hours"[0] == 'o' && "duplicate"[0] == 'd';
  }

  lemma ReadKindNames(name: string)
    requires name in KindNames()
    ensures Names(name, ReadKind(name))
  {
    assert |"amount_outlier"| == 14 && |"off_hours"| == 9 && |"duplicate"| == 9 && |"structuring"| == 11;
    assert "off_hours"[0] == 'o' && "duplicate"[0] == 'd';
  }

  lemma TypesSentAreNames(params: map<string, Param>)
    ensures TypesSent(params) != [] && forall s :: s in TypesSent(params) ==> s in KindNames()
    ensures TypesSent(params) == ListSent(params, "anomaly_types", KindNames(), KindNames())
  {
    hide OptionsIn;
    if "anomaly_types" in params && params["anomaly_types"].PList? {
      SentAreOptions(params["anomaly_types"].items, KindNames());
    }
  }

  /** What a run is made for: the numbers sent, or 200 flows and 5 anomalies, and the types asked for in
      their order. */
  lemma ParamsAreSent(params: map<string, Param>, p: AnomalyParams)
    requires CoercedFrom(params, p)
    ensures p.baseFlows == WholeSent(params, "base_flows", 200, 10, 2000)
    ensures p.count == WholeSent(params, "anomaly_count", 5, 1, 50)
    ensures |p.kinds| == |TypesSent(params)|
    ensures forall i :: 0 <= i < |p.kinds| ==> Names(TypesSent(params)[i], p.kinds[i])
  {
    hide IntSpec, MultiSpec, CoercesTo, IntOr, ListOf, WholeSent, ListSent, KindNames, TypesSent, Names;
    hide ReadKind, WellFormed;
    var out :| CoercesTo(Schema(), params, out) && ReadParams(out) == p;
    WholeIsSent(Schema(), params, out, 0, "base_flows", 200, 10, 2000, 10);
    WholeIsSent(Schema(), params, out, 1, "anomaly_count", 5, 1, 50, 1);
    ListIsSent(Schema(), params, out, 2, "anomaly_types", KindNames(), KindNames());
    TypesSentAreNames(params);
    CoercedInt(Schema(), params, out, 0, "base_flows", 200, 10, 2000, 10);
    CoercedInt(Schema(), params, out, 1, "anomaly_count", 5, 1, 50, 1);
    forall i | 0 <= i < |p.kinds| ensures Names(TypesSent(params)[i], p.kinds[i]) {
      ReadKindNames(TypesSent(params)[i]);
    }
  }

  /** A request without parameters. */
  lemma DefaultParams(p: AnomalyParams)
    requires CoercedFrom(map[], p)
    ensures p == AnomalyParams(200, 5, [AmountOutlier, OffHours, Duplicate, Structuring])
  {
    hide CoercedFrom, ToInt;
    ParamsAreSent(map[], p);
    var names := ["amount_outlier", "off_hours", "duplicate", "structuring"];
    assert TypesSent(map[]) == names;
    assert |"amount_outlier"| == 14 && |"off_hours"| == 9 && |"duplicate"| == 9 && |"structuring"| == 11;
    assert "off_hours"[0] == 'o' && "duplicate"[0] == 'd';
    assert Names(names[0], p.kinds[0]) && Names(names[1], p.kinds[1]) && Names(names[2], p.kinds[2]);
    assert Names(names[3], p.kinds[3]);
    assert p.kinds == [AmountOutlier, OffHours, Duplicate, Structuring];
  }

  // ---------------------------------------------------------------------------
  // The labels
  // ---------------------------------------------------------------------------

  /** The entries of the manifest. */
  function LabelsOf(p: AnomalyParams): seq<Node>
    requires p.kinds != []
  {
    match Manifest(p)
    case NDict(d) =>
      if "injected_anomalies" in d && d["injected_anomalies"].NList? then d["injected_anomalies"].items else []
    case _ => []
  }

  predicate HasType(entry: Node, name: string) {
    entry.NDict? && "type" in entry.entries && entry.entries["type"] == NText(name)
  }

  /** The entry's index is `i`, or `i` is among its indices. */
  predicate Lists(entry: Node, i: nat) {
    && entry.NDict?
    && var d := entry.entries;
       || ("record_index" in d && d["record_index"] == NInt(i))
       || ("record_indices" in d && d["record_indices"].NList? && NInt(i) in d["record_indices"].items)
  }

  /** Record `i` is labelled with a type. */
  ghost predicate Labelled(entries: seq<Node>, name: string, i: nat) {
    exists k :: 0 <= k < |entries| && HasType(entries[k], name) && Lists(entries[k], i)
  }

  lemma IndicesList(from: nat, n: nat, i: nat)
    ensures NInt(i) in Indices(from, n) <==> from <= i < from + n
  {
    if from <= i < from + n {
      assert Indices(from, n)[i - from] == NInt(i);
    }
  }

  lemma EntryLabels(p: AnomalyParams, k: nat, i: nat)
    requires p.kinds != []
    ensures HasType(EntryOf(p, k), KindName(KindOf(p, k)))
    ensures Lists(EntryOf(p, k), i) <==> Owns(p, k, i)
  {
    hide KindName, Indices, Offset;
    assert |"type"| == 4 && |"record_index"| == 12 && |"record_indices"| == 14;
    NextOffset(p, k);
    if KindOf(p, k) == Structuring {
      IndicesList(Offset(p, k), SLICES, i);
    }
  }

  lemma KindNamed(kind: AnomalyKind)
    ensures Names(KindName(kind), kind)
  {
  }

  lemma NameIsKindName(name: string, kind: AnomalyKind)
    requires Names(name, kind)
    ensures KindName(kind) == name
  {
  }

  /** As many labels as anomalies, and label `k` says the text that was sent, in turn. */
  lemma TypeIsSent(params: map<string, Param>, p: AnomalyParams, k: nat)
    requires CoercedFrom(params, p) && ValidParams(p) && k < p.count
    ensures |LabelsOf(p)| == p.count && TypesSent(params) != []
    ensures HasType(LabelsOf(p)[k], TypesSent(params)[k % |TypesSent(params)|])
  {
    hide CoercedFrom, TypesSent, EntryOf, KindName, Names, HasType;
    ParamsAreSent(params, p);
    EntryLabels(p, k, 0);
    NameIsKindName(TypesSent(params)[k % |p.kinds|], KindOf(p, k));
  }

  lemma OneType(entry: Node, a: string, b: string)
    requires HasType(entry, b)
    ensures HasType(entry, a) <==> a == b
  {
  }

  /** A record is labelled with a type when it belongs to an anomaly of that kind. */
  lemma LabelledExactly(p: AnomalyParams, name: string, kind: AnomalyKind, i: nat)
    requires p.kinds != [] && Names(name, kind)
    ensures Labelled(LabelsOf(p), name, i) <==> exists k :: 0 <= k < p.count && KindOf(p, k) == kind && Owns(p, k, i)
  {
    hide EntryOf, KindName, Names, HasType, Lists, KindOf, Owns;
    forall k | 0 <= k < p.count
      ensures HasType(LabelsOf(p)[k], name) <==> KindOf(p, k) == kind
      ensures Lists(LabelsOf(p)[k], i) <==> Owns(p, k, i)
    {
      EntryLabels(p, k, i);
      KindNamed(KindOf(p, k));
      NameIsKindName(name, kind);
      OneType(LabelsOf(p)[k], name, KindName(KindOf(p, k)));
      if name == KindName(KindOf(p, k)) { NamesApart(name, kind, KindOf(p, k)); }
    }
  }

  lemma OwnsSingle(p: AnomalyParams, k: nat, i: nat)
    requires p.kinds != [] && KindOf(p, k) != Structuring
    ensures Owns(p, k, i) <==> i == Offset(p, k)
  {
    hide Offset;
    NextOffset(p, k);
  }

  // ---------------------------------------------------------------------------
  // Detected against labelled
  // ---------------------------------------------------------------------------

  /** The rule "same reference, amount and value date as an earlier record" flags exactly the records
      labelled `duplicate`. */
  lemma DuplicatesLabelled(p: AnomalyParams, x: Inputs, i: nat)
    requires ValidParams(p) && ValidInputs(x) && i < |Records(p, x)|
    ensures LooksDuplicate(Records(p, x), i) <==> Labelled(LabelsOf(p), "duplicate", i)
  {
    hide Records, LooksDuplicate, Labelled, KindOf, Owns, Offset;
    DuplicatesAreTrue(p, x, i);
    LabelledExactly(p, "duplicate", Duplicate, i);
    forall k | 0 <= k < p.count && KindOf(p, k) == Duplicate ensures Owns(p, k, i) <==> i == Offset(p, k) {
      OwnsSingle(p, k, i);
    }
  }

  /** The rule "booked before nine" flags exactly the records labelled `off_hours`. */
  lemma OffHoursLabelled(p: AnomalyParams, x: Inputs, i: nat)
    requires ValidParams(p) && ValidInputs(x) && i < |Records(p, x)|
    ensures BookedOffHours(Records(p, x)[i]) <==> Labelled(LabelsOf(p), "off_hours", i)
  {
    hide Records, BookedOffHours, Labelled, KindOf, Owns, Offset;
    OffHoursIsTrue(p, x, i);
    LabelledExactly(p, "off_hours", OffHours, i);
    forall k | 0 <= k < p.count && KindOf(p, k) == OffHours ensures Owns(p, k, i) <==> i == Offset(p, k) {
      OwnsSingle(p, k, i);
    }
  }

  /** The structuring rule flags exactly the records labelled `structuring` if and only if no outlier
      looks like one. */
  lemma StructuringLabelled(p: AnomalyParams, x: Inputs)
    requires ValidParams(p) && ValidInputs(x)
    ensures (forall i: nat :: i < |Records(p, x)| ==> (LooksStructured(Records(p, x), i) <==> Labelled(LabelsOf(p), "structuring", i)))
            <==> (forall k :: 0 <= k < p.count ==> !Lookalike(p, x, k))
  {
    hide Records, LooksStructured, Labelled, KindOf, Owns, Offset, Lookalike;
    StructuringIsTrueExactly(p, x);
    forall i: nat | i < |Records(p, x)|
      ensures Labelled(LabelsOf(p), "structuring", i) <==> exists k :: 0 <= k < p.count && Owns(p, k, i) && KindOf(p, k) == Structuring
    {
      LabelledExactly(p, "structuring", Structuring, i);
    }
  }

  lemma BaseAmountAtLeast(x: Inputs, i: nat)
    ensures Part(Median(x, i % 10), 0.95) <= BaseAmount(x, i) && BaseAmount(x, i) >= 475.0
  {
    hide UniformOf;
    UniformRange(x.stream(19 + i % 10), 500.0, 8000.0);
    UniformRange(x.stream(29 + 3 * i), -0.05, 0.05);
    PartMonotone(Median(x, i % 10), 0.95, 1.0 + UniformOf(x.stream(29 + 3 * i), -0.05, 0.05));
    assert Part(Median(x, i % 10), 0.95) == Median(x, i % 10) * 0.95;
  }

  lemma BaselineNegative(p: AnomalyParams, x: Inputs, i: nat)
    requires ValidParams(p) && ValidInputs(x) && i < p.baseFlows
    ensures 1 + i < |Records(p, x)|
    ensures AmountField(Records(p, x)[1 + i].payload).Finite? && AmountField(Records(p, x)[1 + i].payload).value < 0.0
  {
    hide Records, DumpFlow, AmountField, Median, Money, Cents, BaseAmount, Counterparties, IbanAt, BaseRef;
    hide UniformOf, BaseFlow;
    BaselineRecord(p, x, i);
    BaselineIsSmall(x, i);
    BaseAmountAtLeast(x, i);
    StatedAmount(BaseFlow(x, i), -BaseAmount(x, i));
  }

  /** A record labelled `amount_outlier` is more than eleven times any baseline flow of its
      counterparty, and there is one to compare it with. */
  lemma OutliersLabelled(p: AnomalyParams, x: Inputs, i: nat) returns (c: nat)
    requires ValidParams(p) && ValidInputs(x) && i < |Records(p, x)| && Labelled(LabelsOf(p), "amount_outlier", i)
    ensures c < 10
    ensures forall j :: 0 <= j < p.baseFlows && j % 10 == c ==>
              && 1 + j < |Records(p, x)|
              && AmountField(Records(p, x)[i].payload).Finite? && AmountField(Records(p, x)[1 + j].payload).Finite?
              && AmountField(Records(p, x)[i].payload).value < 11.0 * AmountField(Records(p, x)[1 + j].payload).value < 0.0
  {
    hide Records, Labelled, KindOf, Owns, Offset, AmountField;
    LabelledExactly(p, "amount_outlier", AmountOutlier, i);
    var k :| 0 <= k < p.count && KindOf(p, k) == AmountOutlier && Owns(p, k, i);
    OwnsSingle(p, k, i);
    c := k % 10;
    forall j | 0 <= j < p.baseFlows && j % 10 == c
      ensures 1 + j < |Records(p, x)|
      ensures AmountField(Records(p, x)[i].payload).Finite? && AmountField(Records(p, x)[1 + j].payload).Finite?
      ensures AmountField(Records(p, x)[i].payload).value < 11.0 * AmountField(Records(p, x)[1 + j].payload).value < 0.0
    {
      OutlierStandsOut(p, x, k, j);
      BaselineNegative(p, x, j);
    }
  }

  // ---------------------------------------------------------------------------
  // The records
  // ---------------------------------------------------------------------------

  /** A debit in euros on the account, with no category, booked on its value date at that time. */
  predicate PlainDebit(f: CashFlow, x: Inputs, name: string, caption: string, ref: string, hour: nat, minute: nat) {
    && f.accountIban == IbanAt(x.stream, 0) && f.currency == "EUR" && f.direction == Debit && f.categoryHint == None
    && f.counterparty == name && f.caption == caption && f.ref == Some(ref)
    && f.bookedAt == Some(Moment(f.valueDate, hour, minute))
  }

  /** Record `i` reads as this flow. */
  ghost predicate ReadsAs(p: AnomalyParams, x: Inputs, i: nat, f: CashFlow)
    requires ValidParams(p) && ValidInputs(x)
  {
    && i < |Records(p, x)| && Records(p, x)[i].kind == CashFlowKind
    && ReadFlow(Records(p, x)[i].payload) == Some(f)
  }

  /** What an observer reads in the first record: the account. */
  lemma AccountReads(p: AnomalyParams, x: Inputs)
    requires ValidParams(p) && ValidInputs(x)
    ensures var r := Records(p, x)[0];
            && r.kind == BankAccountKind && ReadAccount(r.payload).Some?
            && var a := ReadAccount(r.payload).value;
               && a.iban == IbanAt(x.stream, 0) && a.currency == "EUR" && a.caption == "Compte courant 1"
               && a.entity == x.target + " Holding"
               && ParseDecimal(a.balance).Finite? && 99999.995 <= ParseDecimal(a.balance).value <= 400000.005
  {
    hide Slots, IbanAt, Money, DumpAccount, ReadAccount, ParseDecimal, UniformOf;
    var balance := UniformOf(x.stream(18), 100000.0, 400000.0);
    AccountOfValid(x.stream, 0, x.target, balance);
    AccountRoundTrip(Account(x));
    UniformRange(x.stream(18), 100000.0, 400000.0);
    MoneyReads(balance);
    EntityLabelText(x.target, 0);
  }

  lemma SlotReads(p: AnomalyParams, x: Inputs, i: nat)
    requires ValidParams(p) && ValidInputs(x) && i < |Slots(p, p.count)|
    ensures ReadsAs(p, x, 1 + i, FlowAt(p, x, Slots(p, p.count)[i]))
  {
    hide Records, Slots, FlowAt, DumpFlow, ReadFlow, ValidFlow, Occurs, PositionOf;
    NumberOfRecords(p, x);
    FlowRecord(p, x, i);
    SlotsOccurOnce(p, i);
    FlowAtValid(p, x, Slots(p, p.count)[i]);
    FlowRoundTrip(FlowAt(p, x, Slots(p, p.count)[i]));
  }

  lemma MedianBounds(x: Inputs, c: nat)
    ensures 500.0 <= Median(x, c) <= 8000.0
  {
    UniformRange(x.stream(19 + c), 500.0, 8000.0);
  }

  /** What an observer reads in a baseline record: within a twentieth of its counterparty's median, the
      ten counterparties in turn, booked on the half hour in working hours of the last sixty days. */
  lemma BaselineReads(p: AnomalyParams, x: Inputs, i: nat)
    requires ValidParams(p) && ValidInputs(x) && i < p.baseFlows
    ensures 500.0 <= Median(x, i % 10) <= 8000.0
    ensures exists f, hour: nat :: 9 <= hour <= 17
              && ReadsAs(p, x, 1 + i, f)
              && PlainDebit(f, x, Counterparties()[i % 10], "Règlement fournisseur", "ANM-" + Pad(i, 5), hour, 30)
              && x.today - 60 < f.valueDate <= x.today
              && -1.05 * Median(x, i % 10) - 0.005 <= Amount(f.amount) <= -0.95 * Median(x, i % 10) + 0.005
  {
    hide Slots, ReadsAs, ParseDecimal, Money, Median, BaseAmount, Counterparties, IbanAt, Pad;
    MedianBounds(x, i % 10);
    SlotOfBase(p, p.count, i);
    SlotReads(p, x, i);
    var f := BaseFlow(x, i);
    BaseAmountRange(x, i);
    BaseAmountAtLeast(x, i);
    assert Part(Median(x, i % 10), 1.05) == Median(x, i % 10) * 1.05;
    assert Part(Median(x, i % 10), 0.95) == Median(x, i % 10) * 0.95;
    MoneyReads(-BaseAmount(x, i));
    assert PlainDebit(f, x, Counterparties()[i % 10], "Règlement fournisseur", "ANM-" + Pad(i, 5), BaseMoment(x, i).hour, 30);
  }

  /** The same flow booked seven minutes later. */
  predicate SevenMinutesLater(f: CashFlow, g: CashFlow) {
    && g == f.(bookedAt := g.bookedAt) && f.bookedAt.Some? && g.bookedAt.Some?
    && g.bookedAt.value == f.bookedAt.value.(minute := f.bookedAt.value.minute + 7)
  }

  /** What an observer reads in part `s` of anomaly `k`, by its kind. */
  ghost predicate AnomalyReads(p: AnomalyParams, x: Inputs, k: nat, s: nat, f: CashFlow)
    requires ValidParams(p) && ValidInputs(x)
  {
    var name := Counterparties()[k % 10];
    match KindOf(p, k)
    case Structuring =>
      && PlainDebit(f, x, name, "Virement fractionné", "ANM-STR-" + Pad(k, 3) + ("-" + Dec(s)), 10, 5 + s)
      && Amount(f.amount) == -9500.0 && x.today - 21 < f.valueDate <= x.today
    case AmountOutlier =>
      && PlainDebit(f, x, name, "Règlement fournisseur", "ANM-OUT-" + Pad(k, 3), 11, 0)
      && Abs(Amount(f.amount) + 12.0 * Median(x, k % 10)) <= 0.005 && x.today - 21 < f.valueDate <= x.today
    case OffHours =>
      && PlainDebit(f, x, name, "Règlement fournisseur", "ANM-OFH-" + Pad(k, 3), 3, 0)
      && Abs(Amount(f.amount) + Median(x, k % 10)) <= 0.005 && x.today - 21 < f.valueDate <= x.today
    case Duplicate =>
      exists original: CashFlow :: ReadsAs(p, x, 1 + k % p.baseFlows, original) && SevenMinutesLater(original, f)
  }

  lemma SliceReads(x: Inputs)
    ensures Amount(Money(-9500.0)) == -9500.0
  {
    hide Money, ParseDecimal;
    ParseMoney(-9500.0);
    assert Cents(-9500.0) == -950000;
  }

  lemma InjectedReads(p: AnomalyParams, x: Inputs, k: nat, s: nat)
    requires ValidParams(p) && ValidInputs(x) && k < p.count && s < Width(p, k)
    ensures ReadsAs(p, x, Offset(p, k) + s, InjectedFlow(p, x, k, s))
    ensures AnomalyReads(p, x, k, s, InjectedFlow(p, x, k, s))
  {
    hide Slots, ReadsAs, ParseDecimal, Money, Median, BaseAmount, Counterparties, IbanAt, Pad, Dec, KindOf, Offset;
    SlotOfAnomaly(p, p.count, k, s);
    SlotReads(p, x, Offset(p, k) - 1 + s);
    match KindOf(p, k)
    case Structuring => SliceReads(x);
    case AmountOutlier => MoneyReads(-(Median(x, k % 10) * 12.0));
    case OffHours => MoneyReads(-Median(x, k % 10));
    case Duplicate =>
      SlotOfBase(p, p.count, k % p.baseFlows);
      SlotReads(p, x, k % p.baseFlows);
      assert SevenMinutesLater(BaseFlow(x, k % p.baseFlows), InjectedFlow(p, x, k, s));
  }
}
