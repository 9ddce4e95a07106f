/** From a generated batch to published records: stamping, publishing, and resolving the ground
    truth's record indices into source hashes. */
module Emitter {
  import opened Options
  import opened Text
  import opened CanonicalJson
  import opened Models
  import opened Sequences

  /** SHA-256 as hexadecimal text: any function of the bytes. */
  type Hasher = string -> string

  datatype Provenance = Provenance(
    tenantId: string, traceId: string, batchId: string, seed: int, presetId: Option<string>, generatedBy: string)

  datatype Origin = LiveFeed | Simulation

  datatype SourceMetadata = SourceMetadata(
    sourceSystem: string, messageId: string, sourceHash: string,
    origin: Origin, batchId: string, seed: int, presetId: Option<string>, generatedBy: string)

  datatype CanonicalRecord = CanonicalRecord(
    tenantId: string, traceId: string, record: Record, meta: SourceMetadata)

  // ---------------------------------------------------------------------------
  // Canonical bytes
  // ---------------------------------------------------------------------------

  lemma EntriesDetermine(items: seq<Item>, payload: Payload)
    requires NoDupKeys(items)
    requires forall x :: x in items <==> x.key in payload && payload[x.key] == x.value
    ensures CanonicalBytes(items) == Canonical(payload)
  {
    SameItemsSameMap(items, ItemsOf(payload));
    CanonicalBytesIdentify(items, ItemsOf(payload));
  }

  /** The canonical bytes, by way of the entries in whatever order they come. */
  method CanonicalPayloadBytes(payload: Payload) returns (bytes: string)
    ensures bytes == Canonical(payload) && ListsInOrder(bytes, payload)
  {
    hide ListsInOrder;
    CanonicalAscends(payload);
    var keys := payload.Keys;
    var items: seq<Item> := [];
    while keys != {}
      invariant keys <= payload.Keys
      invariant NoDupKeys(items)
      invariant forall x :: x in items <==> x.key in payload.Keys - keys && payload[x.key] == x.value
      decreases keys
    {
      var k :| k in keys;
      items := items + [Item(k, payload[k])];
      keys := keys - {k};
    }
    bytes := CanonicalBytes(items);
    EntriesDetermine(items, payload);
  }

  // ---------------------------------------------------------------------------
  // Stamping
  // ---------------------------------------------------------------------------

  predicate KnownKind(kind: Kind) {
    !kind.OtherKind?
  }

  function MessageId(batchId: string, i: nat): string {
    batchId + (":" + Dec(i))
  }

  ghost function IdOf(batchId: string): nat -> string {
    (n: nat) => MessageId(batchId, n)
  }

  lemma MessageIdIdentifies(batchId: string, i: nat, j: nat)
    ensures MessageId(batchId, i) == MessageId(batchId, j) <==> i == j
  {
    var a, b := ":" + Dec(i), ":" + Dec(j);
    if batchId + a == batchId + b {
      assert (batchId + a)[|batchId|..] == a && (batchId + b)[|batchId|..] == b;
      assert a[1..] == Dec(i) && b[1..] == Dec(j);
    }
  }

  ghost function HashOf(sha: Hasher, payload: Payload): string {
    sha(Canonical(payload))
  }

  /** `stamp()` and the simulation's own provenance. */
  function Stamp(record: Record, bytes: string, messageId: string, format: string, prov: Provenance,
                 sha: Hasher): CanonicalRecord {
    CanonicalRecord(
      prov.tenantId, prov.traceId, record,
      SourceMetadata("sim." + format, messageId, sha(bytes),
                     Simulation, prov.batchId, prov.seed, prov.presetId, prov.generatedBy))
  }

  /** Record `i` as it is to be stamped: hashed over its canonical bytes, with the message id of
      the first record equal to it. */
  ghost function StampedAt(records: seq<Record>, i: nat, format: string, prov: Provenance, sha: Hasher): CanonicalRecord
    requires i < |records|
  {
    Stamp(records[i], Canonical(records[i].payload), MessageId(prov.batchId, FirstIndex(records, i)), format, prov, sha)
  }

  ghost function Stamped(records: seq<Record>, format: string, prov: Provenance, sha: Hasher): (out: seq<CanonicalRecord>)
    ensures |out| == |records|
  {
    seq(|records|, i requires 0 <= i < |records| => StampedAt(records, i, format, prov, sha))
  }

  lemma StampedRecord(records: seq<Record>, i: nat, format: string, prov: Provenance, sha: Hasher)
    requires i < |records|
    ensures Stamped(records, format, prov, sha)[i].record == records[i]
    ensures Stamped(records, format, prov, sha)[i].meta.sourceHash == HashOf(sha, records[i].payload)
  {
  }

  /** What the stamp of `records[i]` has to say, field by field. */
  ghost predicate ProperlyStamped(c: CanonicalRecord, records: seq<Record>, i: nat, format: string,
                                  prov: Provenance, sha: Hasher)
    requires i < |records|
  {
    && c.record == records[i] && c.tenantId == prov.tenantId && c.traceId == prov.traceId
    && c.meta.origin == Simulation && c.meta.batchId == prov.batchId && c.meta.seed == prov.seed
    && c.meta.presetId == prov.presetId && c.meta.generatedBy == prov.generatedBy
    && c.meta.sourceSystem == "sim." + format && c.meta.sourceHash == sha(Canonical(records[i].payload))
    && exists j: nat ::
         && j <= i && records[j] == records[i] && (forall k :: 0 <= k < j ==> records[k] != records[i])
         && c.meta.messageId == prov.batchId + (":" + Dec(j))
  }

  lemma StampedProperly(records: seq<Record>, i: nat, format: string, prov: Provenance, sha: Hasher)
    requires i < |records|
    ensures ProperlyStamped(Stamped(records, format, prov, sha)[i], records, i, format, prov, sha)
  {
    FirstIndexFirst(records, i);
  }

  datatype Built = Built(records: seq<CanonicalRecord>) | UnknownKind(kind: Kind)

  /** What the emitter tells records apart by. */
  ghost function KeyOf(r: Record): (Kind, string) {
    (r.kind, Canonical(r.payload))
  }

  lemma KeyIdentifies(r: Record, s: Record)
    ensures KeyOf(r) == KeyOf(s) <==> r == s
  {
    CanonicalInjective(r.payload, s.payload);
  }

  /** The keys of a batch, in order. */
  ghost function Keys(records: seq<Record>): (keys: seq<(Kind, string)>)
    ensures |keys| == |records|
  {
    seq(|records|, i requires 0 <= i < |records| => KeyOf(records[i]))
  }

  /** Equal records and equal keys first occur at the same place. */
  lemma FirstIndexOfKeys(records: seq<Record>, i: nat)
    requires i < |records|
    ensures FirstIndex(Keys(records), i) == FirstIndex(records, i)
  {
    var keys := Keys(records);
    forall k | 0 <= k < |records| ensures keys[k] == keys[i] <==> records[k] == records[i] {
      KeyIdentifies(records[k], records[i]);
    }
    FirstIndexAlike(keys, records, i);
  }

  /** `setdefault` and `stamp` for record `i`. */
  method StampNext(records: seq<Record>, i: nat, firstSeen: map<(Kind, string), string>,
                   format: string, prov: Provenance, sha: Hasher)
    returns (stamped: CanonicalRecord, seen: map<(Kind, string), string>)
    requires i < |records| && SeenIn(firstSeen, Keys(records), i, IdOf(prov.batchId))
    ensures stamped == StampedAt(records, i, format, prov, sha)
    ensures SeenIn(seen, Keys(records), i + 1, IdOf(prov.batchId))
  {
    var bytes := CanonicalPayloadBytes(records[i].payload);
    var key := (records[i].kind, bytes);
    assert key == Keys(records)[i];
    Lookup(firstSeen, Keys(records), i, IdOf(prov.batchId));
    FirstIndexOfKeys(records, i);
    var messageId := if key in firstSeen then firstSeen[key] else MessageId(prov.batchId, i);
    seen := firstSeen[key := messageId];
    stamped := Stamp(records[i], bytes, messageId, format, prov, sha);
  }

  /** Stamps every record through the kernel; a record type outside the models is an error. */
  method BuildCanonicalRecords(records: seq<Record>, format: string, prov: Provenance, sha: Hasher) returns (r: Built)
    ensures r.Built? <==> forall i :: 0 <= i < |records| ==> KnownKind(records[i].kind)
    ensures r.Built? ==> r.records == Stamped(records, format, prov, sha)
    ensures r.Built? ==>
              |r.records| == |records|
              && forall i :: 0 <= i < |records| ==> ProperlyStamped(r.records[i], records, i, format, prov, sha)
  {
    hide Stamp, StampedAt, ProperlyStamped;
    var out: seq<CanonicalRecord> := [];
    var firstSeen: map<(Kind, string), string> := map[];
    for i := 0 to |records|
      invariant forall j :: 0 <= j < i ==> KnownKind(records[j].kind)
      invariant out == Stamped(records, format, prov, sha)[..i]
      invariant SeenIn(firstSeen, Keys(records), i, IdOf(prov.batchId))
    {
      if !KnownKind(records[i].kind) {
        return UnknownKind(records[i].kind);
      }
      TakeStep(Stamped(records, format, prov, sha), i);
      var stamped;
      stamped, firstSeen := StampNext(records, i, firstSeen, format, prov, sha);
      out := out + [stamped];
    }
    forall i | 0 <= i < |records| ensures ProperlyStamped(out[i], records, i, format, prov, sha) {
      StampedProperly(records, i, format, prov, sha);
    }
    r := Built(out);
  }

  /** No two texts share a hash. */
  ghost predicate Injective(sha: Hasher) {
    forall s, t :: sha(s) == sha(t) ==> s == t
  }

  /** Message ids coincide exactly for equal records, and with an injective hash source hashes
      exactly for equal payloads. */
  lemma StampsIdentify(records: seq<Record>, format: string, prov: Provenance, sha: Hasher, i: nat, j: nat)
    requires i < |records| && j < |records|
    ensures var out := Stamped(records, format, prov, sha);
            && (out[i].meta.messageId == out[j].meta.messageId <==> records[i] == records[j])
            && (Injective(sha) ==>
                  (out[i].meta.sourceHash == out[j].meta.sourceHash <==> records[i].payload == records[j].payload))
  {
    MessageIdIdentifies(prov.batchId, FirstIndex(records, i), FirstIndex(records, j));
    FirstIndexShared(records, i, j);
    CanonicalInjective(records[i].payload, records[j].payload);
  }

  ghost function MessageIds(out: seq<CanonicalRecord>): (ids: seq<string>)
    ensures |ids| == |out|
  {
    seq(|out|, i requires 0 <= i < |out| => out[i].meta.messageId)
  }

  /** The emitter hands out an earlier record's id exactly as often as a record is repeated. */
  lemma RepeatedIds(records: seq<Record>, format: string, prov: Provenance, sha: Hasher)
    ensures Repeats(MessageIds(Stamped(records, format, prov, sha))) == Repeats(records)
  {
    var out := Stamped(records, format, prov, sha);
    var ids := MessageIds(out);
    forall i, j | 0 <= i < |records| && 0 <= j < |records| ensures ids[i] == ids[j] <==> records[i] == records[j] {
      StampsIdentify(records, format, prov, sha, i, j);
    }
    RepeatsAlike(records, ids);
  }

  /** The keys Core deduplicates on. */
  ghost function SourceHashes(out: seq<CanonicalRecord>): (hashes: seq<string>)
    ensures |hashes| == |out|
  {
    seq(|out|, i requires 0 <= i < |out| => out[i].meta.sourceHash)
  }

  /** Where payloads show the record type, source hashes repeat as often as message ids. */
  lemma RepeatedHashes(records: seq<Record>, format: string, prov: Provenance, sha: Hasher)
    requires Injective(sha)
    requires forall i, j :: 0 <= i < |records| && 0 <= j < |records| && records[i].payload == records[j].payload
               ==> records[i].kind == records[j].kind
    ensures var out := Stamped(records, format, prov, sha);
            Repeats(SourceHashes(out)) == Repeats(MessageIds(out))
  {
    hide Injective;
    var out := Stamped(records, format, prov, sha);
    forall i, j | 0 <= i < |records| && 0 <= j < |records|
      ensures SourceHashes(out)[i] == SourceHashes(out)[j] <==> MessageIds(out)[i] == MessageIds(out)[j]
    {
      StampsIdentify(records, format, prov, sha, i, j);
    }
    RepeatsAlike(SourceHashes(out), MessageIds(out));
  }

  /** Among valid records it always does. */
  lemma RepeatedHashesOfValid(records: seq<Record>, format: string, prov: Provenance, sha: Hasher)
    requires Injective(sha) && forall i :: 0 <= i < |records| ==> Validate(records[i]) == Some(records[i])
    ensures var out := Stamped(records, format, prov, sha);
            Repeats(SourceHashes(out)) == Repeats(records) == Repeats(MessageIds(out))
  {
    hide Injective, Validate, Stamped;
    forall i, j | 0 <= i < |records| && 0 <= j < |records| && records[i].payload == records[j].payload
      ensures records[i].kind == records[j].kind
    {
      PayloadShowsKind(records[i], records[j]);
    }
    RepeatedHashes(records, format, prov, sha);
    RepeatedIds(records, format, prov, sha);
  }

  // ---------------------------------------------------------------------------
  // Publishing
  // ---------------------------------------------------------------------------

  /** Core's store: the first record accepted under each source hash. */
  type Store = map<string, Record>

  /** Which records Core answers with 400; it depends on the type and payload alone. */
  type Rejects = Record -> bool

  /** What Core makes of one delivery: refused, deduplicated, or stored. */
  function Deliver1(store: Store, r: CanonicalRecord, rejects: Rejects): Store {
    if rejects(r.record) || r.meta.sourceHash in store then store
    else store[r.meta.sourceHash := r.record]
  }

  function Deliver(store: Store, rs: seq<CanonicalRecord>, rejects: Rejects): Store {
    if rs == [] then store else Deliver1(Deliver(store, rs[..|rs| - 1], rejects), rs[|rs| - 1], rejects)
  }

  /** Accepted; a 400 answer; any other error answer; no answer at all. */
  datatype PublishOutcome = Accepted | Poison | PushFailed | Crashed

  /** A call may be answered with another error (`HttpPushError`) or not at all (a timeout or a broken
      connection, some other exception); either way Core may have stored the record or not. */
  datatype Fault = NoFault | ErrorAnswer(stored: bool) | NoAnswer(stored: bool)

  class Publisher {
    const rejects: Rejects
    const faults: nat -> Fault
    var calls: nat
    var handed: seq<CanonicalRecord>
    var store: Store

    constructor (rejects: Rejects, faults: nat -> Fault)
      ensures this.rejects == rejects && this.faults == faults && calls == 0 && handed == [] && store == map[]
    {
      this.rejects, this.faults := rejects, faults;
      calls, handed, store := 0, [], map[];
    }

    method Publish(r: CanonicalRecord) returns (o: PublishOutcome)
      modifies this
      ensures calls == old(calls) + 1 && handed == old(handed) + [r]
      ensures faults(old(calls)) != NoFault ==>
                store == if faults(old(calls)).stored then Deliver1(old(store), r, rejects) else old(store)
      ensures faults(old(calls)) == NoFault ==> store == Deliver1(old(store), r, rejects)
      ensures o == match faults(old(calls))
                case ErrorAnswer(_) => PushFailed
                case NoAnswer(_) => Crashed
                case NoFault => if rejects(r.record) then Poison else Accepted
    {
      var fault := faults(calls);
      calls, handed := calls + 1, handed + [r];
      if fault == NoFault || fault.stored {
        store := Deliver1(store, r, rejects);
      }
      o := match fault
        case ErrorAnswer(_) => PushFailed
        case NoAnswer(_) => Crashed
        case NoFault => if rejects(r.record) then Poison else Accepted;
    }
  }

  datatype EmitReport = EmitReport(expected: nat, emitted: nat, rejected: nat, sourceHashes: seq<(string, Kind)>)

  /** The report; or an `HttpPushError` got out, or another exception did. */
  datatype EmitResult = Emitted(report: EmitReport) | EmissionFailed | EmissionCrashed

  /** The hash and type of each record, in order. */
  function HashEntries(rs: seq<CanonicalRecord>): (out: seq<(string, Kind)>)
    ensures |out| == |rs|
  {
    seq(|rs|, i requires 0 <= i < |rs| => (rs[i].meta.sourceHash, rs[i].record.kind))
  }

  function CountRejected(rs: seq<CanonicalRecord>, rejects: Rejects): (n: nat)
    ensures n <= |rs|
  {
    if rs == [] then 0
    else CountRejected(rs[..|rs| - 1], rejects) + if rejects(rs[|rs| - 1].record) then 1 else 0
  }

  lemma {:induction false} CountRejectedAt(rs: seq<CanonicalRecord>, rejects: Rejects, at: nat -> bool)
    requires forall i: nat :: i < |rs| ==> at(i) == rejects(rs[i].record)
    ensures CountRejected(rs, rejects) == CountBelow(|rs|, at)
  {
    if rs != [] {
      CountRejectedAt(rs[..|rs| - 1], rejects, at);
    }
  }

  /** No transport failure on calls `from` to `to`. */
  ghost predicate Quiet(faults: nat -> Fault, from: nat, to: nat) {
    forall c: nat :: from <= c < to ==> faults(c) == NoFault
  }

  lemma PrefixStep(rs: seq<CanonicalRecord>, i: nat, store: Store, rejects: Rejects)
    requires i < |rs|
    ensures Deliver(store, rs[..i + 1], rejects) == Deliver1(Deliver(store, rs[..i], rejects), rs[i], rejects)
    ensures CountRejected(rs[..i + 1], rejects) == CountRejected(rs[..i], rejects) + if rejects(rs[i].record) then 1 else 0
    ensures HashEntries(rs[..i + 1]) == HashEntries(rs[..i]) + [(rs[i].meta.sourceHash, rs[i].record.kind)]
  {
    var p := rs[..i + 1];
    assert p[..|p| - 1] == rs[..i] && p[|p| - 1] == rs[i];
  }

  lemma NoPrefix(rs: seq<CanonicalRecord>, store: Store, rejects: Rejects)
    ensures Deliver(store, rs[..0], rejects) == store && CountRejected(rs[..0], rejects) == 0 && HashEntries(rs[..0]) == []
  {
  }

  /** Publishes in order. A poison record is counted and passed over; any other failure ends the
      emission, with some prefix of the records delivered. */
  method Emit(records: seq<CanonicalRecord>, publisher: Publisher) returns (r: EmitResult)
    modifies publisher
    ensures r.Emitted? <==> Quiet(publisher.faults, old(publisher.calls), old(publisher.calls) + |records|)
    ensures r.Emitted? ==>
              && r.report == EmitReport(|records|, |records| - CountRejected(records, publisher.rejects),
                                        CountRejected(records, publisher.rejects), HashEntries(records))
              && publisher.store == Deliver(old(publisher.store), records, publisher.rejects)
    ensures exists n :: 0 <= n <= |records| && publisher.store == Deliver(old(publisher.store), records[..n], publisher.rejects)
    ensures exists n :: 0 <= n <= |records| && publisher.handed == old(publisher.handed) + records[..n]
    ensures !r.Emitted? ==>
              && publisher.calls > old(publisher.calls)
              && (r.EmissionFailed? <==> publisher.faults(publisher.calls - 1).ErrorAnswer?)
  {
    hide Deliver, Deliver1, CountRejected, HashEntries;
    NoPrefix(records, publisher.store, publisher.rejects);
    var emitted, rejected := 0, 0;
    var hashes: seq<(string, Kind)> := [];
    for i := 0 to |records|
      invariant publisher.calls == old(publisher.calls) + i
      invariant Quiet(publisher.faults, old(publisher.calls), publisher.calls)
      invariant publisher.handed == old(publisher.handed) + records[..i]
      invariant publisher.store == Deliver(old(publisher.store), records[..i], publisher.rejects)
      invariant rejected == CountRejected(records[..i], publisher.rejects) && emitted + rejected == i
      invariant hashes == HashEntries(records[..i])
    {
      PrefixStep(records, i, old(publisher.store), publisher.rejects);
      TakeStep(records, i);
      var o := publisher.Publish(records[i]);
      if o == PushFailed || o == Crashed {
        assert publisher.faults(publisher.calls - 1) != NoFault;
        return if o == PushFailed then EmissionFailed else EmissionCrashed;
      } else if o == Poison {
        rejected := rejected + 1;
      } else {
        emitted := emitted + 1;
      }
      hashes := hashes + [(records[i].meta.sourceHash, records[i].record.kind)];
    }
    assert records[..|records|] == records;
    r := Emitted(EmitReport(|records|, emitted, rejected, hashes));
  }
}
