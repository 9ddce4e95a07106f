/** The structuring rule run over an emitted anomaly batch: five payments of 9500.00 on one day to one
    counterparty. It finds every structuring anomaly; when it finds nothing else is decided exactly. */
module StructuringDetection {
  import opened Options
  import opened Text
  import opened Decimals
  import opened Random
  import opened Calendar
  import opened Models
  import opened Fabrication
  import opened Sequences
  import opened Anomaly
  import opened AnomalyTruth
  import opened AnomalyDetection

  /** The amount of a slice as printed. */
  function SliceAmount(): string {
    Money(-9500.0)
  }

  /** A payment of that amount, on that day, to that counterparty. */
  function IsSlice(day: Day, name: string): Record -> bool {
    (r: Record) =>
      && IsFlow(r) && TextField(r.payload, "amount") == Some(SliceAmount())
      && TextField(r.payload, "value_date") == Some(Iso(day)) && TextField(r.payload, "counterparty") == Some(name)
  }

  /** The rule: one of at least five. */
  ghost predicate LooksStructured(rs: seq<Record>, i: nat)
    requires i < |rs|
  {
    exists day: Day, name: string :: IsSlice(day, name)(rs[i]) && Tally(rs, IsSlice(day, name)) >= 5
  }

  // ---------------------------------------------------------------------------
  // Which records are slices
  // ---------------------------------------------------------------------------

  /** Twelve medians of counterparty `c` print like a slice. */
  predicate OutlierPrintsSlice(x: Inputs, c: nat) {
    Money(-(Median(x, c) * 12.0)) == SliceAmount()
  }

  lemma NamesDiffer(c: nat, d: nat)
    requires c < 10 && d < 10
    ensures Counterparties()[c] == Counterparties()[d] <==> c == d
  {
    var names := Counterparties();
    assert names[0][0] == 'F' && names[1][0] == 'C' && names[2][0] == 'A' && names[3][0] == 'D' && names[4][0] == 'S';
    assert names[5][0] == 'N' && names[6][0] == 'I' && names[7][0] == 'T' && names[8][0] == 'C' && names[9][0] == 'M';
    assert names[1][1] == 'l' && names[8][1] == 'o';
  }

  lemma SliceSeen(f: CashFlow, day: Day, name: string)
    ensures IsSlice(day, name)(Record(CashFlowKind, DumpFlow(f)))
            <==> f.amount == SliceAmount() && f.valueDate == day && f.counterparty == name
  {
    hide DumpFlow, SliceAmount;
    FlowKeyFields(f);
    FlowOtherFields(f);
    IsoIdentifies(f.valueDate, day);
  }

  lemma SmallAmount(v: real)
    requires v <= 8400.0
    ensures Money(-v) != SliceAmount()
  {
    hide Money;
    MoneyApart(-9500.0, -v);
  }

  lemma MedianRange(x: Inputs, c: nat)
    ensures Median(x, c) <= 8000.0
  {
    UniformRange(x.stream(19 + c), 500.0, 8000.0);
  }

  lemma BaselineIsSmall(x: Inputs, i: nat)
    requires ValidInputs(x)
    ensures BaseAmount(x, i) <= 8400.0 && Median(x, i % 10) <= 8000.0
    ensures BaseFlow(x, i).amount == Money(-BaseAmount(x, i))
  {
    hide UniformOf, Money, IbanAt, Counterparties, BaseRef, BaseMoment;
    BaseAmountRange(x, i);
    MedianRange(x, i % 10);
    assert Part(Median(x, i % 10), 1.05) == Median(x, i % 10) * 1.05;
  }

  /** Anomaly `k` belongs to that day and counterparty. */
  predicate Of(p: AnomalyParams, x: Inputs, day: Day, c: nat, k: nat)
    requires ValidInputs(x)
  {
    AnomalyDay(p, x, k) == day && k % 10 == c
  }

  lemma BaseNoSlice(p: AnomalyParams, x: Inputs, i: nat, day: Day, name: string)
    requires ValidParams(p) && ValidInputs(x)
    ensures !IsSlice(day, name)(RecordAt(p, x, Base(i)))
  {
    hide DumpFlow, IsSlice, BaseFlow, BaseAmount, Median, SliceAmount, Money;
    SliceSeen(BaseFlow(x, i), day, name);
    RecordAtIs(p, x, Base(i), BaseFlow(x, i));
    BaselineIsSmall(x, i);
    SmallAmount(BaseAmount(x, i));
  }

  /** A record of anomaly `k` is a slice when it is one of a structuring anomaly's, or an outlier that
      prints like one. */
  lemma InjectedSlice(p: AnomalyParams, x: Inputs, k: nat, s: nat, day: Day, c: nat)
    requires ValidParams(p) && ValidInputs(x) && c < 10
    ensures IsSlice(day, Counterparties()[c])(RecordAt(p, x, Injected(k, s)))
            <==> Of(p, x, day, c, k) && (KindOf(p, k) == Structuring || (KindOf(p, k) == AmountOutlier && OutlierPrintsSlice(x, c)))
  {
    hide DumpFlow, IsSlice, BaseFlow, BaseAmount, Median, Money, Counterparties, IbanAt, StructRef, OutlierRef;
    hide OffHoursRef;
    hide AnomalyDay, KindOf;
    var f := InjectedFlow(p, x, k, s);
    SliceSeen(f, day, Counterparties()[c]);
    RecordAtIs(p, x, Injected(k, s), f);
    NamesDiffer(k % 10, c);
    match KindOf(p, k)
    case Structuring =>
    case AmountOutlier =>
    case OffHours =>
      MedianRange(x, k % 10);
      SmallAmount(Median(x, k % 10));
    case Duplicate =>
      BaselineIsSmall(x, k % p.baseFlows);
      SmallAmount(BaseAmount(x, k % p.baseFlows));
  }

  // ---------------------------------------------------------------------------
  // How many there are
  // ---------------------------------------------------------------------------

  function StructuringOf(p: AnomalyParams, x: Inputs, day: Day, c: nat): nat -> bool
    requires ValidParams(p) && ValidInputs(x)
  {
    (k: nat) => Of(p, x, day, c, k) && KindOf(p, k) == Structuring
  }

  function OutliersOf(p: AnomalyParams, x: Inputs, day: Day, c: nat): nat -> bool
    requires ValidParams(p) && ValidInputs(x)
  {
    (k: nat) => Of(p, x, day, c, k) && KindOf(p, k) == AmountOutlier
  }

  /** The slices of that day and counterparty among the first `n` anomalies. */
  function SlicesOf(p: AnomalyParams, x: Inputs, day: Day, c: nat, n: nat): nat
    requires ValidParams(p) && ValidInputs(x)
  {
    5 * CountBelow(n, StructuringOf(p, x, day, c))
    + if OutlierPrintsSlice(x, c) then CountBelow(n, OutliersOf(p, x, day, c)) else 0
  }

  function SliceSlot(p: AnomalyParams, x: Inputs, day: Day, c: nat): Slot -> bool
    requires ValidParams(p) && ValidInputs(x) && c < 10
  {
    (slot: Slot) => IsSlice(day, Counterparties()[c])(RecordAt(p, x, slot))
  }

  lemma AccountNoSlice(x: Inputs, day: Day, name: string)
    ensures !IsSlice(day, name)(AccountRecord(x))
  {
    hide DumpAccount, Account;
  }

  lemma {:induction false} TallySlots(p: AnomalyParams, x: Inputs, slots: seq<Slot>, day: Day, c: nat)
    requires ValidParams(p) && ValidInputs(x) && c < 10
    ensures Tally(RecordsOf(p, x, slots), IsSlice(day, Counterparties()[c])) == Tally(slots, SliceSlot(p, x, day, c))
  {
    hide IsSlice, RecordAt, AccountRecord, Counterparties;
    var seen := IsSlice(day, Counterparties()[c]);
    if slots == [] {
      AccountNoSlice(x, day, Counterparties()[c]);
      assert RecordsOf(p, x, []) == [AccountRecord(x)];
      TallyAll([AccountRecord(x)], seen, false);
    } else {
      var init, last := slots[..|slots| - 1], slots[|slots| - 1];
      TallySlots(p, x, init, day, c);
      assert slots == init + [last];
      OneMoreRecord(p, x, init, last);
      TallyAppend(RecordsOf(p, x, init), true, RecordAt(p, x, last), seen);
    }
  }

  lemma BlockTally(p: AnomalyParams, x: Inputs, k: nat, day: Day, c: nat)
    requires ValidParams(p) && ValidInputs(x) && c < 10
    ensures Tally(BlockSlots(k, Width(p, k)), SliceSlot(p, x, day, c))
            == (if StructuringOf(p, x, day, c)(k) then 5 else 0)
               + if OutlierPrintsSlice(x, c) && OutliersOf(p, x, day, c)(k) then 1 else 0
  {
    hide IsSlice, RecordAt, Counterparties, KindOf, Of, OutlierPrintsSlice;
    var slots := BlockSlots(k, Width(p, k));
    forall i | 0 <= i < |slots| ensures SliceSlot(p, x, day, c)(slots[i]) == SliceSlot(p, x, day, c)(Injected(k, 0)) {
      InjectedSlice(p, x, k, i, day, c);
      InjectedSlice(p, x, k, 0, day, c);
    }
    InjectedSlice(p, x, k, 0, day, c);
    TallyAll(slots, SliceSlot(p, x, day, c), SliceSlot(p, x, day, c)(Injected(k, 0)));
  }

  lemma BaseTally(p: AnomalyParams, x: Inputs, day: Day, c: nat)
    requires ValidParams(p) && ValidInputs(x) && c < 10
    ensures Tally(BaseSlots(p.baseFlows), SliceSlot(p, x, day, c)) == 0
  {
    hide IsSlice, RecordAt, Counterparties;
    forall i | 0 <= i < p.baseFlows ensures !SliceSlot(p, x, day, c)(Base(i)) {
      BaseNoSlice(p, x, i, day, Counterparties()[c]);
    }
    TallyAll(BaseSlots(p.baseFlows), SliceSlot(p, x, day, c), false);
  }

  lemma {:induction false} SlotsTally(p: AnomalyParams, x: Inputs, n: nat, day: Day, c: nat)
    requires ValidParams(p) && ValidInputs(x) && c < 10
    ensures Tally(Slots(p, n), SliceSlot(p, x, day, c)) == SlicesOf(p, x, day, c, n)
  {
    hide IsSlice, RecordAt, Counterparties, OutlierPrintsSlice, StructuringOf, OutliersOf, Width, SliceSlot;
    if n == 0 {
      BaseTally(p, x, day, c);
    } else {
      SlotsTally(p, x, n - 1, day, c);
      TallyConcat(Slots(p, n - 1), BlockSlots(n - 1, Width(p, n - 1)), SliceSlot(p, x, day, c));
      BlockTally(p, x, n - 1, day, c);
    }
  }

  /** The slices of a day and counterparty in the batch: five for each structuring anomaly, and one
      for each outlier if twelve medians print like a slice. */
  lemma SlicesCounted(p: AnomalyParams, x: Inputs, day: Day, c: nat)
    requires ValidParams(p) && ValidInputs(x) && c < 10
    ensures Tally(Records(p, x), IsSlice(day, Counterparties()[c])) == SlicesOf(p, x, day, c, p.count)
  {
    hide IsSlice, SlicesOf, Slots, RecordsOf, Counterparties, SliceSlot;
    TallySlots(p, x, Slots(p, p.count), day, c);
    SlotsTally(p, x, p.count, day, c);
  }

  // ---------------------------------------------------------------------------
  // What the rule flags
  // ---------------------------------------------------------------------------

  /** An outlier the rule takes for a slice: it prints like one, and there are at least five such
      payments on its day to its counterparty. */
  ghost predicate Lookalike(p: AnomalyParams, x: Inputs, k: nat)
    requires ValidParams(p) && ValidInputs(x)
  {
    && KindOf(p, k) == AmountOutlier && OutlierPrintsSlice(x, k % 10)
    && SlicesOf(p, x, AnomalyDay(p, x, k), k % 10, p.count) >= 5
  }

  lemma {:induction false} CountAtLeast(n: nat, p: nat -> bool, k: nat)
    requires k < n && p(k)
    ensures CountBelow(n, p) >= 1
  {
    if k < n - 1 {
      CountAtLeast(n - 1, p, k);
    }
  }

  lemma SliceName(p: AnomalyParams, x: Inputs, k: nat, s: nat, day: Day, name: string)
    requires ValidParams(p) && ValidInputs(x)
    requires IsSlice(day, name)(RecordAt(p, x, Injected(k, s)))
    ensures name == Counterparties()[k % 10]
  {
    hide DumpFlow, IsSlice, BaseFlow, BaseAmount, Median, Money, Counterparties, IbanAt, StructRef, OutlierRef;
    hide OffHoursRef;
    hide AnomalyDay, KindOf;
    SliceSeen(InjectedFlow(p, x, k, s), day, name);
    RecordAtIs(p, x, Injected(k, s), InjectedFlow(p, x, k, s));
    if KindOf(p, k) == Duplicate {
      BaselineIsSmall(x, k % p.baseFlows);
      SmallAmount(BaseAmount(x, k % p.baseFlows));
    }
  }

  lemma InjectedLooks(p: AnomalyParams, x: Inputs, k: nat, s: nat, i: nat)
    requires ValidParams(p) && ValidInputs(x) && k < p.count && i < |Records(p, x)|
    requires Records(p, x)[i] == RecordAt(p, x, Injected(k, s))
    ensures LooksStructured(Records(p, x), i) <==> KindOf(p, k) == Structuring || Lookalike(p, x, k)
  {
    hide Records, RecordAt, IsSlice, Counterparties, KindOf, OutlierPrintsSlice, AnomalyDay, CountBelow, Tally;
    var day, c := AnomalyDay(p, x, k), k % 10;
    var seen := IsSlice(day, Counterparties()[c]);
    InjectedSlice(p, x, k, s, day, c);
    SlicesCounted(p, x, day, c);
    if KindOf(p, k) == Structuring {
      CountAtLeast(p.count, StructuringOf(p, x, day, c), k);
    }
    if seen(Records(p, x)[i]) && Tally(Records(p, x), seen) >= 5 {
      assert LooksStructured(Records(p, x), i);
    }
    forall d: Day, name: string | IsSlice(d, name)(Records(p, x)[i]) ensures d == day && name == Counterparties()[c] {
      SliceName(p, x, k, s, d, name);
      InjectedSlice(p, x, k, s, d, c);
    }
  }

  lemma OthersLookPlain(p: AnomalyParams, x: Inputs, i: nat)
    requires ValidParams(p) && ValidInputs(x) && i <= p.baseFlows
    ensures i < |Records(p, x)| && !LooksStructured(Records(p, x), i)
  {
    hide Records, RecordAt, IsSlice, AccountRecord, Slots, Tally;
    NumberOfRecords(p, x);
    SlotOfBase(p, p.count, if i == 0 then 0 else i - 1);
    FlowRecord(p, x, if i == 0 then 0 else i - 1);
    forall day: Day, name: string ensures !IsSlice(day, name)(Records(p, x)[i]) {
      if i == 0 {
        AccountNoSlice(x, day, name);
      } else {
        BaseNoSlice(p, x, i - 1, day, name);
      }
    }
  }

  /** Record `i` belongs to anomaly `k`. */
  predicate Owns(p: AnomalyParams, k: nat, i: nat)
    requires p.kinds != []
  {
    Offset(p, k) <= i < Offset(p, k + 1)
  }

  lemma NextOffset(p: AnomalyParams, k: nat)
    requires p.kinds != []
    ensures Offset(p, k + 1) == Offset(p, k) + Width(p, k)
  {
  }

  /** The rule flags every record of a structuring anomaly, and besides them exactly the lookalikes. */
  lemma FlaggedExactly(p: AnomalyParams, x: Inputs, i: nat)
    requires ValidParams(p) && ValidInputs(x) && i < |Records(p, x)|
    ensures LooksStructured(Records(p, x), i)
            <==> exists k :: 0 <= k < p.count && Owns(p, k, i) && (KindOf(p, k) == Structuring || Lookalike(p, x, k))
  {
    hide Records, Slots, KindOf, RecordAt, LooksStructured, Lookalike, Offset;
    NumberOfRecords(p, x);
    SlotsLength(p, p.count);
    if i <= p.baseFlows {
      OthersLookPlain(p, x, i);
      forall k | 0 <= k < p.count ensures !Owns(p, k, i) {
        PastBaseline(p, k);
      }
    } else {
      var k := OwnerOf(p, p.count, i);
      NextOffset(p, k);
      SlotOfAnomaly(p, p.count, k, i - Offset(p, k));
      FlowRecord(p, x, i - 1);
      InjectedLooks(p, x, k, i - Offset(p, k), i);
      forall l | 0 <= l < p.count && Owns(p, l, i) ensures l == k {
        OwnerUnique(p, i, k, l);
      }
    }
  }

  lemma LookalikeFlagged(p: AnomalyParams, x: Inputs, k: nat)
    requires ValidParams(p) && ValidInputs(x) && k < p.count && Lookalike(p, x, k)
    ensures Offset(p, k) < |Records(p, x)| && LooksStructured(Records(p, x), Offset(p, k))
    ensures !exists l :: 0 <= l < p.count && Owns(p, l, Offset(p, k)) && KindOf(p, l) == Structuring
  {
    hide Records, LooksStructured, OutlierPrintsSlice, SlicesOf, Slots;
    NumberOfRecords(p, x);
    SlotOfAnomaly(p, p.count, k, 0);
    assert Owns(p, k, Offset(p, k));
    FlaggedExactly(p, x, Offset(p, k));
    forall l | 0 <= l < p.count && Owns(p, l, Offset(p, k)) ensures l == k {
      OwnerUnique(p, Offset(p, k), k, l);
    }
  }

  /** So it flags exactly what the manifest labels as structuring if and only if no outlier is a
      lookalike. */
  lemma StructuringIsTrueExactly(p: AnomalyParams, x: Inputs)
    requires ValidParams(p) && ValidInputs(x)
    ensures (forall i :: 0 <= i < |Records(p, x)| ==>
               (LooksStructured(Records(p, x), i) <==> exists k :: 0 <= k < p.count && Owns(p, k, i) && KindOf(p, k) == Structuring))
            <==> (forall k :: 0 <= k < p.count ==> !Lookalike(p, x, k))
  {
    hide Records, KindOf, LooksStructured, Lookalike, Offset;
    forall i | 0 <= i < |Records(p, x)|
      ensures LooksStructured(Records(p, x), i)
              <==> exists k :: 0 <= k < p.count && Owns(p, k, i) && (KindOf(p, k) == Structuring || Lookalike(p, x, k))
    {
      FlaggedExactly(p, x, i);
    }
    forall k | 0 <= k < p.count && Lookalike(p, x, k)
      ensures Offset(p, k) < |Records(p, x)| && LooksStructured(Records(p, x), Offset(p, k))
      ensures !exists l :: 0 <= l < p.count && Owns(p, l, Offset(p, k)) && KindOf(p, l) == Structuring
    {
      LookalikeFlagged(p, x, k);
    }
  }

  /** A draw for which twelve medians make 9500. */
  const LOOKALIKE_DRAW: Unit := (9500.0 / 12.0 - 500.0) / 7500.0

  /** A lookalike: every draw the same, a structuring anomaly, and an outlier for its counterparty. */
  lemma LookalikeExample(target: string, today: Day)
    ensures var p := AnomalyParams(10, 11, [Structuring, AmountOutlier, OffHours]);
            var x := Inputs((n: nat) => LOOKALIKE_DRAW, target, today);
            ValidParams(p) && (ValidInputs(x) ==> Lookalike(p, x, 10))
  {
    hide Money, CountBelow;
    var p := AnomalyParams(10, 11, [Structuring, AmountOutlier, OffHours]);
    var x := Inputs((n: nat) => LOOKALIKE_DRAW, target, today);
    if ValidInputs(x) {
      assert KindOf(p, 0) == Structuring && KindOf(p, 10) == AmountOutlier;
      assert Median(x, 0) * 12.0 == 9500.0;
      assert AnomalyDay(p, x, 0) == AnomalyDay(p, x, 10);
      CountAtLeast(11, StructuringOf(p, x, AnomalyDay(p, x, 10), 0), 0);
    }
  }
}
