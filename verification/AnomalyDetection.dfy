/** Detection rules run over an emitted anomaly batch, against the labels in its manifest. */
module AnomalyDetection {
  import opened Text
  import opened Decimals
  import opened Random
  import opened CanonicalJson
  import opened Models
  import opened Fabrication
  import opened Anomaly
  import opened AnomalyTruth

  // ---------------------------------------------------------------------------
  // Duplicates
  // ---------------------------------------------------------------------------

  /** The duplicate rule: an earlier record has the same reference, amount and value date. */
  ghost predicate LooksDuplicate(rs: seq<Record>, i: nat)
    requires i < |rs|
  {
    exists a :: 0 <= a < i && SharesKey(rs[a].payload, rs[i].payload)
  }

  lemma AccountSharesNothing(x: Inputs, q: Payload)
    ensures !SharesKey(AccountRecord(x).payload, q)
  {
    hide AccountRecord, TextField;
    AccountHasNoRef(x);
  }

  lemma SharedRef(p: AnomalyParams, x: Inputs, a: Slot, b: Slot)
    requires ValidParams(p) && ValidInputs(x)
    requires SharesKey(RecordAt(p, x, a).payload, RecordAt(p, x, b).payload)
    ensures RefAt(p, a) == RefAt(p, b)
  {
    hide DumpFlow, FlowAt, RefAt;
    FlowRef(p, x, a);
    FlowRef(p, x, b);
    FlowKeyFields(FlowAt(p, x, a));
    FlowKeyFields(FlowAt(p, x, b));
  }

  lemma PastBaseline(p: AnomalyParams, k: nat)
    requires p.kinds != []
    ensures Offset(p, k) >= 1 + p.baseFlows
  {
    OffsetGrows(p, 0, k);
  }

  /** A record that shares its key with an earlier one is a labelled duplicate. */
  lemma SharerIsDuplicate(p: AnomalyParams, x: Inputs, a: nat, i: nat) returns (k: nat)
    requires ValidParams(p) && ValidInputs(x) && a < i < |Records(p, x)|
    requires SharesKey(Records(p, x)[a].payload, Records(p, x)[i].payload)
    ensures k < p.count && KindOf(p, k) == Duplicate && i == Offset(p, k)
  {
    hide Records, Slots, RecordAt, AccountRecord, SharesKey, RefAt, KindOf, Offset;
    NumberOfRecords(p, x);
    if a == 0 {
      FlowRecord(p, x, 0);
      AccountSharesNothing(x, Records(p, x)[i].payload);
    }
    var s, t := Slots(p, p.count)[a - 1], Slots(p, p.count)[i - 1];
    FlowRecord(p, x, a - 1);
    FlowRecord(p, x, i - 1);
    SlotsOccurOnce(p, a - 1);
    SlotsOccurOnce(p, i - 1);
    SharedRef(p, x, s, t);
    RefsTellApart(p, s, t);
    if s.Injected? { PastBaseline(p, s.k); }
    k := t.k;
  }

  /** The duplicate rule flags exactly the records the manifest labels as duplicates. */
  lemma DuplicatesAreTrue(p: AnomalyParams, x: Inputs, i: nat)
    requires ValidParams(p) && ValidInputs(x) && i < |Records(p, x)|
    ensures LooksDuplicate(Records(p, x), i) <==> exists k :: 0 <= k < p.count && KindOf(p, k) == Duplicate && i == Offset(p, k)
  {
    hide Records, SharesKey, KindOf, Offset;
    forall a | 0 <= a < i && SharesKey(Records(p, x)[a].payload, Records(p, x)[i].payload)
      ensures exists k :: 0 <= k < p.count && KindOf(p, k) == Duplicate && i == Offset(p, k)
    {
      var k := SharerIsDuplicate(p, x, a, i);
    }
    forall k | 0 <= k < p.count && KindOf(p, k) == Duplicate && i == Offset(p, k) ensures LooksDuplicate(Records(p, x), i) {
      DuplicateSharesKey(p, x, k);
    }
  }

  // ---------------------------------------------------------------------------
  // Amount outliers
  // ---------------------------------------------------------------------------

  lemma StatedAmount(f: CashFlow, v: real)
    requires f.amount == Money(v)
    ensures AmountField(DumpFlow(f)) == Finite(Cents(v) as real / 100.0)
    ensures Abs(Cents(v) as real / 100.0 - v) <= 0.005
  {
    hide DumpFlow, Money, Cents, ParseDecimal;
    FlowKeyFields(f);
    ParseMoney(v);
    CentsNearest(v);
  }

  lemma BaseAmountRange(x: Inputs, i: nat)
    ensures 500.0 <= Median(x, i % 10)
    ensures 0.0 <= BaseAmount(x, i) <= Part(Median(x, i % 10), 1.05)
  {
    hide UniformOf;
    UniformRange(x.stream(19 + i % 10), 500.0, 8000.0);
    UniformRange(x.stream(29 + 3 * i), -0.05, 0.05);
    var u := UniformOf(x.stream(29 + 3 * i), -0.05, 0.05);
    PartMonotone(Median(x, i % 10), 1.0 + u, 1.05);
    Product(Median(x, i % 10), 1.0 + u);
  }

  lemma OutlierRecord(p: AnomalyParams, x: Inputs, k: nat)
    requires ValidParams(p) && ValidInputs(x) && k < p.count && KindOf(p, k) == AmountOutlier
    ensures Offset(p, k) < |Records(p, x)|
    ensures Records(p, x)[Offset(p, k)] == Record(CashFlowKind, DumpFlow(InjectedFlow(p, x, k, 0)))
    ensures InjectedFlow(p, x, k, 0).amount == Money(-(Median(x, k % 10) * 12.0))
  {
    hide Slots, RecordAt, Records, DumpFlow, Offset, Money, IbanAt, Counterparties, OutlierRef, Median;
    NumberOfRecords(p, x);
    SlotOfAnomaly(p, p.count, k, 0);
    FlowRecord(p, x, Offset(p, k) - 1);
    RecordAtIs(p, x, Injected(k, 0), InjectedFlow(p, x, k, 0));
  }

  /** An outlier, as printed, is more than eleven times any baseline flow of its counterparty. */
  lemma OutlierStandsOut(p: AnomalyParams, x: Inputs, k: nat, i: nat)
    requires ValidParams(p) && ValidInputs(x) && k < p.count && KindOf(p, k) == AmountOutlier
    requires i < p.baseFlows && i % 10 == k % 10
    ensures Offset(p, k) < |Records(p, x)| && 1 + i < |Records(p, x)|
    ensures var outlier, normal := AmountField(Records(p, x)[Offset(p, k)].payload), AmountField(Records(p, x)[1 + i].payload);
            outlier.Finite? && normal.Finite? && outlier.value < 11.0 * normal.value && outlier.value < 0.0
  {
    hide Records, DumpFlow, AmountField, Median, Money, Cents, BaseAmount, Offset, InjectedFlow, Counterparties;
    hide IbanAt, BaseRef;
    OutlierRecord(p, x, k);
    BaselineRecord(p, x, i);
    BaseAmountRange(x, i);
    var m := Median(x, k % 10);
    assert Part(m, 1.05) == m * 1.05;
    StatedAmount(InjectedFlow(p, x, k, 0), -(m * 12.0));
    StatedAmount(BaseFlow(x, i), -BaseAmount(x, i));
  }
}
