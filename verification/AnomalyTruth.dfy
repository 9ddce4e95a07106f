/** The anomaly preset's manifest is true: its indices partition the injected records, enrichment
    turns them into those records' hashes, and only duplicates of the same baseline flow collide. */
module AnomalyTruth {
  import opened Options
  import opened Text
  import opened Random
  import opened CanonicalJson
  import opened Models
  import opened Fabrication
  import opened Sequences
  import opened GroundTruth
  import opened Anomaly
  import Emitter
  import Dispatch
  import Idempotency

  // ---------------------------------------------------------------------------
  // Slots and positions
  // ---------------------------------------------------------------------------

  lemma {:induction false} OffsetGrows(p: AnomalyParams, k: nat, l: nat)
    requires p.kinds != [] && k <= l
    ensures Offset(p, k) + (l - k) <= Offset(p, l) <= Offset(p, k) + SLICES * (l - k)
    decreases l
  {
    if k < l {
      OffsetGrows(p, k, l - 1);
    }
  }

  lemma {:induction false} SlotsExtend(p: AnomalyParams, k: nat, n: nat)
    requires p.kinds != [] && k <= n
    ensures Slots(p, k) <= Slots(p, n)
    decreases n
  {
    if k < n {
      SlotsExtend(p, k, n - 1);
    }
  }

  /** Part `s` of anomaly `k` sits `s` places after the anomaly's offset. */
  lemma SlotOfAnomaly(p: AnomalyParams, n: nat, k: nat, s: nat)
    requires p.kinds != [] && k < n && s < Width(p, k)
    ensures Offset(p, k) + s <= |Slots(p, n)|
    ensures Slots(p, n)[Offset(p, k) - 1 + s] == Injected(k, s)
  {
    SlotsLength(p, k);
    SlotsExtend(p, k + 1, n);
    assert Slots(p, k + 1) == Slots(p, k) + BlockSlots(k, Width(p, k));
  }

  lemma SlotOfBase(p: AnomalyParams, n: nat, i: nat)
    requires p.kinds != [] && i < p.baseFlows
    ensures i < |Slots(p, n)| && Slots(p, n)[i] == Base(i)
  {
    SlotsExtend(p, 0, n);
  }

  /** Every position past the baseline belongs to an anomaly. */
  lemma {:induction false} OwnerOf(p: AnomalyParams, n: nat, i: nat) returns (k: nat)
    requires p.kinds != [] && 1 + p.baseFlows <= i < Offset(p, n)
    ensures k < n && Offset(p, k) <= i < Offset(p, k + 1)
  {
    if i >= Offset(p, n - 1) {
      k := n - 1;
    } else {
      k := OwnerOf(p, n - 1, i);
    }
  }

  /** And to no other. */
  lemma OwnerUnique(p: AnomalyParams, i: nat, k: nat, l: nat)
    requires p.kinds != []
    requires Offset(p, k) <= i < Offset(p, k + 1) && Offset(p, l) <= i < Offset(p, l + 1)
    ensures k == l
  {
    if k < l { OffsetGrows(p, k + 1, l); }
    if l < k { OffsetGrows(p, l + 1, k); }
  }

  /** The integers among the items. */
  function Ints(items: seq<Node>): set<int> {
    set n | n in items && n.NInt? :: n.i
  }

  /** The indices the manifest's entry for anomaly `k` lists. */
  function Listed(p: AnomalyParams, k: nat): set<int>
    requires p.kinds != []
  {
    match EntryOf(p, k)
    case NDict(e) =>
      if INDEX in e && e[INDEX].NInt? then {e[INDEX].i}
      else if INDICES in e && e[INDICES].NList? then Ints(e[INDICES].items)
      else {}
    case _ => {}
  }

  lemma IntsOfIndices(from: nat, n: nat, i: int)
    ensures i in Ints(Indices(from, n)) <==> from <= i < from + n
  {
    if from <= i < from + n {
      assert Indices(from, n)[i - from] == NInt(i);
    }
  }

  lemma ListedExactly(p: AnomalyParams, k: nat, i: int)
    requires p.kinds != []
    ensures i in Listed(p, k) <==> Offset(p, k) <= i < Offset(p, k + 1)
  {
    hide KindName, Ints, Indices;
    KeysDiffer();
    assert |"type"| == 4;
    IntsOfIndices(Offset(p, k), SLICES, i);
  }

  /** An entry lists five indices in a row for a structuring anomaly, a single one otherwise. */
  lemma ListedWidth(p: AnomalyParams, k: nat, i: int)
    requires p.kinds != []
    ensures i in Listed(p, k) <==> Offset(p, k) <= i < Offset(p, k) + if KindOf(p, k) == Structuring then 5 else 1
  {
    hide Listed, KindOf;
    ListedExactly(p, k, i);
  }

  /** The manifest's indices partition the records after the account and the baseline: each is
      listed by exactly one entry. */
  lemma ManifestPartitions(p: AnomalyParams, x: Inputs, i: nat)
    requires ValidParams(p) && ValidInputs(x)
    ensures |Records(p, x)| == Offset(p, p.count) <= 2251
    ensures 1 + p.baseFlows <= i < |Records(p, x)| <==> exists k :: 0 <= k < p.count && i in Listed(p, k)
    ensures forall k, l :: 0 <= k < p.count && 0 <= l < p.count && i in Listed(p, k) && i in Listed(p, l) ==> k == l
  {
    hide EntryOf, RecordAt, AccountRecord, Listed, KindOf;
    SlotsLength(p, p.count);
    OffsetGrows(p, 0, p.count);
    assert Offset(p, 0) == 1 + p.baseFlows && SLICES * p.count <= 250;
    if 1 + p.baseFlows <= i < Offset(p, p.count) {
      var k := OwnerOf(p, p.count, i);
      ListedExactly(p, k, i);
    }
    forall k | 0 <= k < p.count && i in Listed(p, k) ensures 1 + p.baseFlows <= i < Offset(p, p.count) {
      ListedExactly(p, k, i);
      OffsetGrows(p, 0, k);
      OffsetGrows(p, k + 1, p.count);
    }
    forall k, l | 0 <= k < p.count && 0 <= l < p.count && i in Listed(p, k) && i in Listed(p, l) ensures k == l {
      ListedExactly(p, k, i);
      ListedExactly(p, l, i);
      OwnerUnique(p, i, k, l);
    }
  }

  // ---------------------------------------------------------------------------
  // The enriched manifest
  // ---------------------------------------------------------------------------

  lemma {:induction false} HashesAtRange(from: nat, n: nat, hashes: seq<string>)
    requires from + n <= |hashes|
    ensures HashesAt(Indices(from, n), hashes) == seq(n, i requires 0 <= i < n => NText(hashes[from + i]))
    decreases n
  {
    var items := Indices(from, n);
    if n > 0 {
      HashesAtRange(from + 1, n - 1, hashes);
      assert items[1..] == Indices(from + 1, n - 1);
      assert items[0] == NInt(from);
    }
  }

  /** The hash of the record at part `s` of anomaly `k`. */
  ghost function HashOfPart(p: AnomalyParams, x: Inputs, sha: Emitter.Hasher, k: nat, s: nat): string
    requires ValidParams(p) && ValidInputs(x)
  {
    Emitter.HashOf(sha, DumpFlow(FlowAt(p, x, Injected(k, s))))
  }

  lemma PartHash(p: AnomalyParams, x: Inputs, sha: Emitter.Hasher, k: nat, s: nat)
    requires ValidParams(p) && ValidInputs(x) && k < p.count && s < Width(p, k)
    ensures var hashes := Dispatch.PayloadHashes(Records(p, x), sha);
            Offset(p, k) + s < |hashes| && hashes[Offset(p, k) + s] == HashOfPart(p, x, sha, k, s)
  {
    hide Emitter.HashOf, DumpFlow, FlowAt, AccountRecord, Slots, Offset;
    SlotOfAnomaly(p, p.count, k, s);
    var slots := Slots(p, p.count);
    assert Records(p, x)[1 + (Offset(p, k) - 1 + s)] == RecordAt(p, x, slots[Offset(p, k) - 1 + s]);
  }

  /** The hashes of anomaly `k`'s parts. */
  ghost function PartHashes(p: AnomalyParams, x: Inputs, sha: Emitter.Hasher, k: nat): seq<Node>
    requires ValidParams(p) && ValidInputs(x)
  {
    seq(SLICES, s requires 0 <= s < SLICES => NText(HashOfPart(p, x, sha, k, s)))
  }

  /** An entry that names, by hash, exactly the records of anomaly `k`. */
  ghost predicate NamesByHash(p: AnomalyParams, x: Inputs, sha: Emitter.Hasher, k: nat, entry: Node)
    requires ValidParams(p) && ValidInputs(x)
  {
    && entry.NDict?
    && if KindOf(p, k) == Structuring
       then HASHES in entry.entries && entry.entries[HASHES] == NList(PartHashes(p, x, sha, k))
       else HASH in entry.entries && entry.entries[HASH] == NText(HashOfPart(p, x, sha, k, 0))
  }

  lemma SliceHashes(p: AnomalyParams, x: Inputs, sha: Emitter.Hasher, k: nat)
    requires ValidParams(p) && ValidInputs(x) && k < p.count && KindOf(p, k) == Structuring
    ensures HashesAt(Indices(Offset(p, k), SLICES), Dispatch.PayloadHashes(Records(p, x), sha)) == PartHashes(p, x, sha, k)
  {
    hide HashOfPart, Records, Indices, Dispatch.PayloadHashes, Offset;
    var hashes := Dispatch.PayloadHashes(Records(p, x), sha);
    forall s | 0 <= s < SLICES ensures Offset(p, k) + s < |hashes| && hashes[Offset(p, k) + s] == HashOfPart(p, x, sha, k, s) {
      PartHash(p, x, sha, k, s);
    }
    PartHash(p, x, sha, k, 4);
    HashesAtRange(Offset(p, k), SLICES, hashes);
    var found := seq(SLICES, s requires 0 <= s < SLICES => NText(hashes[Offset(p, k) + s]));
    assert found == PartHashes(p, x, sha, k);
  }

  lemma EntryGetsHashes(p: AnomalyParams, x: Inputs, sha: Emitter.Hasher, k: nat)
    requires ValidParams(p) && ValidInputs(x) && k < p.count
    ensures NamesByHash(p, x, sha, k, Enrich(EntryOf(p, k), Dispatch.PayloadHashes(Records(p, x), sha)))
  {
    hide KindName, HashOfPart, Records, Indices, PartHashes, Enrich, HashesAt, Dispatch.PayloadHashes;
    var hashes := Dispatch.PayloadHashes(Records(p, x), sha);
    var d := EntryOf(p, k).entries;
    if KindOf(p, k) == Structuring {
      SliceHashes(p, x, sha, k);
      EnrichIndices(d, hashes, Indices(Offset(p, k), SLICES));
    } else {
      PartHash(p, x, sha, k, 0);
      EnrichIndexed(d, hashes, Offset(p, k));
    }
  }

  /** After any dispatch that completes, whatever Core rejected, every entry of the answer's ground
      truth carries exactly the hashes of its own records' payloads. */
  lemma EnrichedManifestIsTrue(p: AnomalyParams, x: Inputs, sha: Emitter.Hasher, k: nat)
    requires ValidParams(p) && ValidInputs(x) && k < p.count
    ensures var entry := Follow(Enrich(Manifest(p), Dispatch.PayloadHashes(Records(p, x), sha)),
                                [Key("injected_anomalies"), Position(k)]);
            entry.Some? && NamesByHash(p, x, sha, k, entry.value)
  {
    hide EntryOf, Records, Enrich, NamesByHash;
    var hashes := Dispatch.PayloadHashes(Records(p, x), sha);
    var path := [Key("injected_anomalies"), Position(k)];
    assert |"injected_anomalies"| == 18 && |HASH| == 11 && |HASHES| == 13;
    FollowTwo(Manifest(p).entries, "injected_anomalies", k);
    EnrichAt(Manifest(p), path, hashes);
    EntryGetsHashes(p, x, sha, k);
  }

  // ---------------------------------------------------------------------------
  // Which records are alike
  // ---------------------------------------------------------------------------

  /** The slots that occur in a batch. */
  predicate Occurs(p: AnomalyParams, slot: Slot)
    requires ValidParams(p)
  {
    match slot
    case Base(i) => i < p.baseFlows
    case Injected(k, s) => k < p.count && s < Width(p, k)
  }

  /** Both re-emit the same baseline flow. */
  predicate SameSource(p: AnomalyParams, a: Slot, b: Slot)
    requires ValidParams(p)
  {
    a.Injected? && b.Injected? && KindOf(p, a.k) == Duplicate && KindOf(p, b.k) == Duplicate
    && a.k % p.baseFlows == b.k % p.baseFlows
  }

  function RefAt(p: AnomalyParams, slot: Slot): string
    requires ValidParams(p)
  {
    match slot
    case Base(i) => BaseRef(i)
    case Injected(k, s) =>
      match KindOf(p, k)
      case Structuring => StructRef(k, s)
      case Duplicate => BaseRef(k % p.baseFlows)
      case AmountOutlier => OutlierRef(k)
      case OffHours => OffHoursRef(k)
  }

  lemma FlowRef(p: AnomalyParams, x: Inputs, slot: Slot)
    requires ValidParams(p) && ValidInputs(x)
    ensures FlowAt(p, x, slot).ref == Some(RefAt(p, slot))
  {
    hide IbanAt, Money, Counterparties, BaseRef, StructRef, OutlierRef, OffHoursRef, KindOf;
  }

  lemma BaseRefIdentifies(i: nat, j: nat)
    ensures BaseRef(i) == BaseRef(j) <==> i == j
    ensures IsDigit(BaseRef(i)[4])
  {
    assert BaseRef(i)[4..] == Pad(i, 5) && BaseRef(j)[4..] == Pad(j, 5);
    assert BaseRef(i)[4] == Pad(i, 5)[0];
  }

  lemma LabelledRef(k: nat, l: nat)
    requires k < 1000 && l < 1000
    ensures OutlierRef(k) == OutlierRef(l) <==> k == l
    ensures OffHoursRef(k) == OffHoursRef(l) <==> k == l
    ensures OutlierRef(k)[4] == 'O' && OutlierRef(k)[5] == 'U' && OffHoursRef(k)[4] == 'O' && OffHoursRef(k)[5] == 'F'
  {
    hide Pad;
    assert OutlierRef(k)[8..] == Pad(k, 3) && OutlierRef(l)[8..] == Pad(l, 3);
    assert OffHoursRef(k)[8..] == Pad(k, 3) && OffHoursRef(l)[8..] == Pad(l, 3);
  }

  lemma StructRefParts(a: string, b: string)
    requires |a| == 3
    ensures var r := "ANM-STR-" + a + ("-" + b); r[4] == 'S' && r[8..11] == a && r[12..] == b
  {
  }

  lemma StructRefIdentifies(k: nat, s: nat, l: nat, t: nat)
    requires k < 1000 && l < 1000
    ensures StructRef(k, s) == StructRef(l, t) <==> k == l && s == t
    ensures StructRef(k, s)[4] == 'S'
  {
    hide Pad, Dec;
    DecWidth(k, 3);
    DecWidth(l, 3);
    StructRefParts(Pad(k, 3), Dec(s));
    StructRefParts(Pad(l, 3), Dec(t));
  }

  /** References tell all slots apart except a baseline flow and its re-emissions. */
  lemma RefsTellApart(p: AnomalyParams, a: Slot, b: Slot)
    requires ValidParams(p) && Occurs(p, a) && Occurs(p, b) && RefAt(p, a) == RefAt(p, b)
    ensures a == b || SameSource(p, a, b)
            || (a.Base? && b.Injected? && KindOf(p, b.k) == Duplicate)
            || (b.Base? && a.Injected? && KindOf(p, a.k) == Duplicate)
  {
    hide BaseRef, StructRef, OutlierRef, OffHoursRef, KindOf;
    var i := if a.Base? then a.i else a.k % p.baseFlows;
    var j := if b.Base? then b.i else b.k % p.baseFlows;
    BaseRefIdentifies(i, j);
    BaseRefIdentifies(j, i);
    if a.Injected? { LabelledRef(a.k, a.k); StructRefIdentifies(a.k, a.s, a.k, a.s); }
    if b.Injected? { LabelledRef(b.k, b.k); StructRefIdentifies(b.k, b.s, b.k, b.s); }
    if a.Injected? && b.Injected? {
      LabelledRef(a.k, b.k);
      StructRefIdentifies(a.k, a.s, b.k, b.s);
    }
  }

  /** Baseline flows are booked on the half hour, re-emissions seven minutes later. */
  lemma BookedMinutes(p: AnomalyParams, x: Inputs, slot: Slot)
    requires ValidParams(p) && ValidInputs(x)
    ensures FlowAt(p, x, slot).bookedAt.Some?
    ensures slot.Base? ==> FlowAt(p, x, slot).bookedAt.value.minute == 30
    ensures slot.Injected? && KindOf(p, slot.k) == Duplicate ==> FlowAt(p, x, slot).bookedAt.value.minute == 37
  {
    hide IbanAt, Money, Counterparties, BaseRef, StructRef, OutlierRef, OffHoursRef, KindOf, IntOf;
  }

  lemma FlowsAlike(p: AnomalyParams, x: Inputs, a: Slot, b: Slot)
    requires ValidParams(p) && ValidInputs(x) && Occurs(p, a) && Occurs(p, b)
    ensures FlowAt(p, x, a) == FlowAt(p, x, b) <==> a == b || SameSource(p, a, b)
  {
    hide BaseFlow, RefAt, DebitFlow, IbanAt, Counterparties, KindOf;
    FlowRef(p, x, a);
    FlowRef(p, x, b);
    BookedMinutes(p, x, a);
    BookedMinutes(p, x, b);
    if FlowAt(p, x, a) == FlowAt(p, x, b) {
      RefsTellApart(p, a, b);
    }
  }

  function FlowAmount(p: AnomalyParams, x: Inputs, slot: Slot): real
    requires ValidParams(p) && ValidInputs(x)
  {
    match slot
    case Base(i) => BaseAmount(x, i)
    case Injected(k, s) =>
      match KindOf(p, k)
      case Structuring => 9500.0
      case Duplicate => BaseAmount(x, k % p.baseFlows)
      case AmountOutlier => Median(x, k % 10) * 12.0
      case OffHours => Median(x, k % 10)
  }

  lemma FlowAtValid(p: AnomalyParams, x: Inputs, slot: Slot)
    requires ValidParams(p) && ValidInputs(x) && Occurs(p, slot)
    ensures ValidFlow(FlowAt(p, x, slot))
  {
    hide IbanAt, Money, Counterparties, BaseRef, StructRef, OutlierRef, OffHoursRef, KindOf, IsDecimal;
    IbanAtValid(x.stream, 0);
    MoneyIsDecimal(-FlowAmount(p, x, slot));
  }

  lemma PayloadsAlike(p: AnomalyParams, x: Inputs, a: Slot, b: Slot)
    requires ValidParams(p) && ValidInputs(x) && Occurs(p, a) && Occurs(p, b)
    ensures RecordAt(p, x, a) == RecordAt(p, x, b) <==> a == b || SameSource(p, a, b)
  {
    hide DumpFlow, FlowAt, ReadFlow, ValidFlow, Occurs, SameSource;
    FlowsAlike(p, x, a, b);
    FlowAtValid(p, x, a);
    FlowAtValid(p, x, b);
    FlowRoundTrip(FlowAt(p, x, a));
    FlowRoundTrip(FlowAt(p, x, b));
  }

  function PositionOf(p: AnomalyParams, slot: Slot): int
    requires ValidParams(p)
  {
    match slot
    case Base(i) => i
    case Injected(k, s) => Offset(p, k) - 1 + s
  }

  /** Every position holds a slot that occurs, and no two positions the same one. */
  lemma {:induction false} SlotsOccurOnce(p: AnomalyParams, i: nat)
    requires ValidParams(p) && i < |Slots(p, p.count)|
    ensures Occurs(p, Slots(p, p.count)[i]) && PositionOf(p, Slots(p, p.count)[i]) == i
  {
    hide KindOf;
    if i < p.baseFlows {
      SlotOfBase(p, p.count, i);
    } else {
      SlotsLength(p, p.count);
      var k := OwnerOf(p, p.count, 1 + i);
      SlotOfAnomaly(p, p.count, k, 1 + i - Offset(p, k));
    }
  }

  lemma FlowRecord(p: AnomalyParams, x: Inputs, i: nat)
    requires ValidParams(p) && ValidInputs(x) && i < |Slots(p, p.count)|
    ensures |Records(p, x)| == 1 + |Slots(p, p.count)|
    ensures Records(p, x)[1 + i] == RecordAt(p, x, Slots(p, p.count)[i])
    ensures Records(p, x)[0] == AccountRecord(x) != Records(p, x)[1 + i]
  {
    hide DumpFlow, FlowAt, DumpAccount, Account, Slots;
  }

  /** Two records of the batch are equal exactly when both re-emit the same baseline flow. */
  lemma RecordsAlike(p: AnomalyParams, x: Inputs, i: nat, j: nat)
    requires ValidParams(p) && ValidInputs(x) && i < j < |Slots(p, p.count)|
    ensures |Records(p, x)| == 1 + |Slots(p, p.count)|
    ensures Records(p, x)[1 + i] == Records(p, x)[1 + j] <==> SameSource(p, Slots(p, p.count)[i], Slots(p, p.count)[j])
  {
    hide Records, Slots, RecordAt, SameSource, Occurs, PositionOf;
    SlotsOccurOnce(p, i);
    SlotsOccurOnce(p, j);
    FlowRecord(p, x, i);
    FlowRecord(p, x, j);
    PayloadsAlike(p, x, Slots(p, p.count)[i], Slots(p, p.count)[j]);
  }

  /** No two duplicate anomalies pick the same baseline flow. */
  ghost predicate SourcesDiffer(p: AnomalyParams)
    requires ValidParams(p)
  {
    forall k, l :: 0 <= k < l < p.count && KindOf(p, k) == Duplicate && KindOf(p, l) == Duplicate
      ==> k % p.baseFlows != l % p.baseFlows
  }

  lemma SourcesTellApart(p: AnomalyParams, a: Slot, b: Slot)
    requires ValidParams(p) && SourcesDiffer(p) && Occurs(p, a) && Occurs(p, b) && a != b
    ensures !SameSource(p, a, b)
  {
    hide KindOf;
  }

  lemma NumberOfRecords(p: AnomalyParams, x: Inputs)
    requires ValidParams(p) && ValidInputs(x)
    ensures |Records(p, x)| == 1 + |Slots(p, p.count)|
  {
    hide Slots, RecordAt, AccountRecord;
  }

  lemma TwoRecordsDiffer(p: AnomalyParams, x: Inputs, i: nat, j: nat)
    requires ValidParams(p) && ValidInputs(x) && SourcesDiffer(p) && i < j < |Records(p, x)|
    ensures Records(p, x)[i] != Records(p, x)[j]
  {
    hide Records, Slots, KindOf, RecordAt, SourcesDiffer, SameSource, Occurs, PositionOf;
    NumberOfRecords(p, x);
    FlowRecord(p, x, j - 1);
    if i > 0 {
      SlotsOccurOnce(p, i - 1);
      SlotsOccurOnce(p, j - 1);
      SourcesTellApart(p, Slots(p, p.count)[i - 1], Slots(p, p.count)[j - 1]);
      RecordsAlike(p, x, i - 1, j - 1);
    }
  }

  /** Where two duplicate anomalies sit, and when their records are equal. */
  lemma TwoDuplicates(p: AnomalyParams, x: Inputs, k: nat, l: nat)
    requires ValidParams(p) && ValidInputs(x) && k < l < p.count
    requires KindOf(p, k) == Duplicate && KindOf(p, l) == Duplicate
    ensures Offset(p, k) < Offset(p, l) < |Records(p, x)|
    ensures Records(p, x)[Offset(p, k)] == Records(p, x)[Offset(p, l)] <==> k % p.baseFlows == l % p.baseFlows
  {
    hide Records, Slots, RecordAt, Offset;
    NumberOfRecords(p, x);
    SlotOfAnomaly(p, p.count, k, 0);
    SlotOfAnomaly(p, p.count, l, 0);
    OffsetGrows(p, k, l);
    RecordsAlike(p, x, Offset(p, k) - 1, Offset(p, l) - 1);
  }

  /** The emitter hands out no message id twice exactly when no two duplicates pick the same baseline
      flow. */
  lemma NoCollisionExactly(p: AnomalyParams, x: Inputs, format: string, prov: Emitter.Provenance, sha: Emitter.Hasher)
    requires ValidParams(p) && ValidInputs(x)
    ensures Repeats(Emitter.MessageIds(Emitter.Stamped(Records(p, x), format, prov, sha))) == 0 <==> SourcesDiffer(p)
  {
    hide Records, KindOf, Emitter.Stamped, Slots;
    Emitter.RepeatedIds(Records(p, x), format, prov, sha);
    var rs := Records(p, x);
    RepeatsZero(rs);
    if SourcesDiffer(p) {
      forall i, j | 0 <= i < j < |rs| ensures rs[i] != rs[j] {
        TwoRecordsDiffer(p, x, i, j);
      }
    }
    if forall i, j :: 0 <= i < j < |rs| ==> rs[i] != rs[j] {
      forall k, l | 0 <= k < l < p.count && KindOf(p, k) == Duplicate && KindOf(p, l) == Duplicate
        ensures k % p.baseFlows != l % p.baseFlows
      {
        TwoDuplicates(p, x, k, l);
      }
    }
  }

  lemma AccountHasNoRef(x: Inputs)
    ensures TextField(AccountRecord(x).payload, "ref") == None
  {
    hide Account;
    assert |"ref"| == 3 && |"iban"| == 4 && |"label"| == 5 && |"currency"| == 8 && |"entity"| == 6;
    assert |"balance"| == 7;
  }

  lemma RefShowsKind(p: AnomalyParams, x: Inputs, i: nat)
    requires ValidParams(p) && ValidInputs(x) && i < |Records(p, x)|
    ensures Records(p, x)[i].kind == if TextField(Records(p, x)[i].payload, "ref").Some? then CashFlowKind else BankAccountKind
  {
    hide Records, Slots, FlowAt, DumpFlow, Account, RefAt;
    NumberOfRecords(p, x);
    if i == 0 {
      SlotOfBase(p, p.count, 0);
      FlowRecord(p, x, 0);
      AccountHasNoRef(x);
    } else {
      var slot := Slots(p, p.count)[i - 1];
      FlowRecord(p, x, i - 1);
      FlowRef(p, x, slot);
      FlowKeyFields(FlowAt(p, x, slot));
    }
  }

  /** In terms of the hashes Core deduplicates on: with an injective hash none repeats, and an empty
      Core that rejects nothing keeps the whole batch, exactly when no two duplicates pick the same
      baseline flow. */
  lemma NoHashCollisionExactly(p: AnomalyParams, x: Inputs, format: string, prov: Emitter.Provenance, sha: Emitter.Hasher)
    requires ValidParams(p) && ValidInputs(x) && Emitter.Injective(sha)
    ensures var out := Emitter.Stamped(Records(p, x), format, prov, sha);
            && (Repeats(Emitter.SourceHashes(out)) == 0 <==> SourcesDiffer(p))
            && (|Emitter.Deliver(map[], out, Idempotency.AcceptAll())| == |Records(p, x)| <==> SourcesDiffer(p))
  {
    hide Records, Emitter.Stamped, Emitter.Injective, SourcesDiffer, TextField;
    forall i | 0 <= i < |Records(p, x)|
      ensures Records(p, x)[i].kind == if TextField(Records(p, x)[i].payload, "ref").Some? then CashFlowKind else BankAccountKind
    {
      RefShowsKind(p, x, i);
    }
    Emitter.RepeatedHashes(Records(p, x), format, prov, sha);
    NoCollisionExactly(p, x, format, prov, sha);
    Idempotency.StoreSize(Emitter.Stamped(Records(p, x), format, prov, sha));
  }

  lemma ModSmall(k: nat, n: nat)
    requires k < n
    ensures k % n == k
  {
  }

  /** With no more anomalies than baseline flows, nothing collides. */
  lemma FewAnomaliesNeverCollide(p: AnomalyParams)
    requires ValidParams(p) && p.count <= p.baseFlows
    ensures SourcesDiffer(p)
  {
    hide KindOf;
    forall k, l | 0 <= k < l < p.count && KindOf(p, k) == Duplicate && KindOf(p, l) == Duplicate
      ensures k % p.baseFlows != l % p.baseFlows
    {
      ModSmall(k, p.baseFlows);
      ModSmall(l, p.baseFlows);
    }
  }

  lemma {:induction false} SingleOffsets(p: AnomalyParams, n: nat)
    requires p.kinds == [Duplicate]
    ensures Offset(p, n) == 1 + p.baseFlows + n
  {
    if n > 0 {
      SingleOffsets(p, n - 1);
    }
  }

  /** Eleven duplicates over ten baseline flows: the first and the last are the same record. */
  lemma CollisionExample(x: Inputs)
    requires ValidInputs(x)
    ensures var p := AnomalyParams(10, 11, [Duplicate]);
            ValidParams(p) && !SourcesDiffer(p) && |Records(p, x)| == 22 && Records(p, x)[11] == Records(p, x)[21]
  {
    hide Records, RecordAt;
    var p := AnomalyParams(10, 11, [Duplicate]);
    TwoDuplicates(p, x, 0, 10);
    OffsetGrows(p, 0, 11);
    NumberOfRecords(p, x);
    SlotsLength(p, 11);
    SingleOffsets(p, 10);
    SingleOffsets(p, 11);
    assert KindOf(p, 0) == Duplicate && KindOf(p, 10) == Duplicate;
  }

  lemma RecordAtIs(p: AnomalyParams, x: Inputs, slot: Slot, f: CashFlow)
    requires ValidParams(p) && ValidInputs(x) && f == FlowAt(p, x, slot)
    ensures RecordAt(p, x, slot) == Record(CashFlowKind, DumpFlow(f))
  {
    hide DumpFlow, FlowAt;
  }

  lemma BaselineRecord(p: AnomalyParams, x: Inputs, i: nat)
    requires ValidParams(p) && ValidInputs(x) && i < p.baseFlows
    ensures 1 + i < |Records(p, x)| && Records(p, x)[1 + i] == Record(CashFlowKind, DumpFlow(BaseFlow(x, i)))
  {
    hide Slots, RecordAt, Records, BaseFlow, DumpFlow;
    NumberOfRecords(p, x);
    SlotOfBase(p, p.count, i);
    FlowRecord(p, x, i);
    RecordAtIs(p, x, Base(i), BaseFlow(x, i));
  }

  lemma DuplicateRecord(p: AnomalyParams, x: Inputs, k: nat)
    requires ValidParams(p) && ValidInputs(x) && k < p.count && KindOf(p, k) == Duplicate
    ensures Offset(p, k) < |Records(p, x)|
    ensures Records(p, x)[Offset(p, k)] == Record(CashFlowKind, DumpFlow(Reemitted(BaseFlow(x, k % p.baseFlows))))
  {
    hide Slots, RecordAt, Records, BaseFlow, DumpFlow, Offset, Reemitted;
    NumberOfRecords(p, x);
    SlotOfAnomaly(p, p.count, k, 0);
    FlowRecord(p, x, Offset(p, k) - 1);
    RecordAtIs(p, x, Injected(k, 0), Reemitted(BaseFlow(x, k % p.baseFlows)));
  }

  lemma ReemittedDiffers(p: AnomalyParams, x: Inputs, k: nat)
    requires ValidParams(p) && ValidInputs(x) && k < p.count && KindOf(p, k) == Duplicate
    ensures var f := BaseFlow(x, k % p.baseFlows); DumpFlow(f) != DumpFlow(Reemitted(f))
  {
    hide RecordAt, BaseFlow, DumpFlow;
    var i := k % p.baseFlows;
    PayloadsAlike(p, x, Base(i), Injected(k, 0));
    RecordAtIs(p, x, Base(i), BaseFlow(x, i));
    RecordAtIs(p, x, Injected(k, 0), Reemitted(BaseFlow(x, i)));
  }

  /** The detection key of two payloads is present and the same. */
  ghost predicate SharesKey(q: Payload, r: Payload) {
    && TextField(q, "ref").Some? && TextField(q, "ref") == TextField(r, "ref")
    && TextField(q, "amount").Some? && TextField(q, "amount") == TextField(r, "amount")
    && TextField(q, "value_date").Some? && TextField(q, "value_date") == TextField(r, "value_date")
  }

  lemma ReemissionKeepsRest(f: CashFlow)
    requires f.bookedAt.Some?
    ensures Reemitted(f) == f.(bookedAt := Reemitted(f).bookedAt)
  {
  }

  lemma BaseFlowHasRef(x: Inputs, i: nat)
    requires ValidInputs(x)
    ensures BaseFlow(x, i).ref.Some?
  {
    hide IbanAt, Money, Counterparties, BaseRef;
  }

  lemma SharedFields(f: CashFlow, g: CashFlow)
    requires g == f.(bookedAt := g.bookedAt) && f.ref.Some?
    ensures SharesKey(DumpFlow(f), DumpFlow(g))
  {
    hide DumpFlow;
    FlowKeyFields(f);
    FlowKeyFields(g);
  }

  /** A duplicate shares reference, amount and value date with its baseline flow, which is what the
      detection rule looks at, yet the two payloads differ. */
  lemma DuplicateSharesKey(p: AnomalyParams, x: Inputs, k: nat)
    requires ValidParams(p) && ValidInputs(x) && k < p.count && KindOf(p, k) == Duplicate
    ensures 1 + k % p.baseFlows < Offset(p, k) < |Records(p, x)|
    ensures var twin, dup := Records(p, x)[1 + k % p.baseFlows].payload, Records(p, x)[Offset(p, k)].payload;
            twin != dup && SharesKey(twin, dup)
  {
    hide Records, BaseFlow, DumpFlow, Offset, TextField, Reemitted, SharesKey;
    var f := BaseFlow(x, k % p.baseFlows);
    BaselineRecord(p, x, k % p.baseFlows);
    DuplicateRecord(p, x, k);
    ReemittedDiffers(p, x, k);
    BaseFlowHasRef(x, k % p.baseFlows);
    ReemissionKeepsRest(f);
    SharedFields(f, Reemitted(f));
  }

  // ---------------------------------------------------------------------------
  // Off-hours detection, and two runs
  // ---------------------------------------------------------------------------

  /** A rule that flags flows booked before nine in the morning. */
  predicate BookedOffHours(r: Record) {
    match ReadFlow(r.payload)
    case Some(f) => r.kind == CashFlowKind && f.bookedAt.Some? && f.bookedAt.value.hour < 9
    case None => false
  }

  lemma BookedHour(p: AnomalyParams, x: Inputs, slot: Slot)
    requires ValidParams(p) && ValidInputs(x)
    ensures var f := FlowAt(p, x, slot);
            f.bookedAt.Some? && (f.bookedAt.value.hour < 9 <==> slot.Injected? && KindOf(p, slot.k) == OffHours)
  {
    hide IbanAt, Money, Counterparties, BaseRef, StructRef, OutlierRef, OffHoursRef, KindOf;
  }

  lemma FlowOffHours(p: AnomalyParams, x: Inputs, slot: Slot)
    requires ValidParams(p) && ValidInputs(x) && Occurs(p, slot)
    ensures BookedOffHours(RecordAt(p, x, slot)) <==> slot.Injected? && KindOf(p, slot.k) == OffHours
  {
    hide KindOf, FlowAt, DumpFlow, ReadFlow, ValidFlow, Occurs;
    FlowAtValid(p, x, slot);
    FlowRoundTrip(FlowAt(p, x, slot));
    BookedHour(p, x, slot);
  }

  lemma AccountNotOffHours(x: Inputs)
    ensures !BookedOffHours(AccountRecord(x))
  {
    hide ReadFlow, DumpAccount, Account;
  }

  /** Run over the emitted batch, the rule flags exactly the records the manifest labels off-hours. */
  lemma OffHoursIsTrue(p: AnomalyParams, x: Inputs, i: nat)
    requires ValidParams(p) && ValidInputs(x) && i < |Records(p, x)|
    ensures BookedOffHours(Records(p, x)[i]) <==> exists k :: 0 <= k < p.count && KindOf(p, k) == OffHours && i == Offset(p, k)
  {
    hide Records, Slots, KindOf, RecordAt, AccountRecord, BookedOffHours;
    NumberOfRecords(p, x);
    if i == 0 {
      SlotOfBase(p, p.count, 0);
      FlowRecord(p, x, 0);
      AccountNotOffHours(x);
    } else {
      var slot := Slots(p, p.count)[i - 1];
      SlotsOccurOnce(p, i - 1);
      FlowRecord(p, x, i - 1);
      FlowOffHours(p, x, slot);
      forall k | 0 <= k < p.count && KindOf(p, k) == OffHours && i == Offset(p, k) ensures slot == Injected(k, 0) {
        SlotOfAnomaly(p, p.count, k, 0);
      }
    }
  }

  lemma {:induction false} SlotsSame(p: AnomalyParams, q: AnomalyParams, n: nat)
    requires p.kinds != [] && q.kinds == p.kinds && q.baseFlows == p.baseFlows
    ensures Slots(p, n) == Slots(q, n)
  {
    if n > 0 {
      SlotsSame(p, q, n - 1);
    }
  }

  lemma FlowAtSame(p: AnomalyParams, q: AnomalyParams, x: Inputs, slot: Slot)
    requires ValidParams(p) && ValidParams(q) && ValidInputs(x) && q.kinds == p.kinds && q.baseFlows == p.baseFlows
    ensures FlowAt(p, x, slot) == FlowAt(q, x, slot)
  {
    hide IbanAt, Money, Counterparties, DebitFlow, BaseFlow;
  }

  /** Asking for more anomalies only appends records. */
  lemma MoreAnomaliesExtend(p: AnomalyParams, count: nat, x: Inputs)
    requires ValidParams(p) && ValidInputs(x) && p.count <= count <= 50
    ensures Records(p, x) <= Records(p.(count := count), x)
  {
    hide DumpFlow, FlowAt, AccountRecord, Slots;
    var q := p.(count := count);
    SlotsExtend(q, p.count, count);
    SlotsSame(p, q, p.count);
    forall slot ensures FlowAt(p, x, slot) == FlowAt(q, x, slot) {
      FlowAtSame(p, q, x, slot);
    }
  }

  lemma AccountFirst(p: AnomalyParams, x: Inputs)
    requires ValidParams(p) && ValidInputs(x)
    ensures Records(p, x)[0] == AccountRecord(x)
  {
    hide AccountRecord, RecordAt, Slots;
  }

  /** Every record of the batch, injected ones included, passes the record models unchanged. */
  lemma EveryRecordValid(p: AnomalyParams, x: Inputs, i: nat)
    requires ValidParams(p) && ValidInputs(x) && i < |Records(p, x)|
    ensures Validate(Records(p, x)[i]) == Some(Records(p, x)[i])
  {
    hide Records, Slots, DumpFlow, DumpAccount, ReadFlow, ReadAccount, FlowAt, ValidFlow, Occurs, PositionOf,
         AccountOf, UniformOf, IbanAt;
    NumberOfRecords(p, x);
    if i == 0 {
      AccountFirst(p, x);
      AccountOfValid(x.stream, 0, x.target, UniformOf(x.stream(18), 100000.0, 400000.0));
      AccountRoundTrip(Account(x));
    } else {
      var slot := Slots(p, p.count)[i - 1];
      FlowRecord(p, x, i - 1);
      SlotsOccurOnce(p, i - 1);
      FlowAtValid(p, x, slot);
      FlowRoundTrip(FlowAt(p, x, slot));
    }
  }
}
