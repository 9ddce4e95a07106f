/** The dispatch endpoint: gate, batch, cap, dry run, emission, enriched ground truth. */
module Dispatch {
  import opened Options
  import opened Models
  import opened Emitter
  import opened GroundTruth
  import Decimals

  datatype Settings = Settings(enabled: bool, environment: string, maxRecords: nat)

  const PREVIEW_LIMIT := 20
  const DEFAULT_MAX_RECORDS := 5000

  /** What a preset's generator returns. */
  datatype Batch = Batch(records: seq<Record>, groundTruth: Node, format: string)

  /** A request: for an automatic run the preset's batch (none when the preset is missing or
      unknown), for a manual run the records sent. */
  datatype Request =
    | Auto(batch: Option<Batch>, prov: Provenance, dryRun: bool)
    | Manual(payload: seq<Record>, prov: Provenance, dryRun: bool)

  datatype Response =
    | NotFound
    | BadPreset
    | MissingPayload
    | InvalidRecords(indices: seq<nat>)
    | OverCap(records: nat)
    | Preview(expected: nat, preview: seq<Record>, groundTruth: Node)
    | NoPublisher
    | ServerError
    | BadGateway
    | Dispatched(expected: nat, emitted: nat, rejected: nat, groundTruth: Node, sourceHashes: seq<(string, Kind)>)

  /** The simulation routes answer only when enabled and outside production. */
  predicate GateOpen(settings: Settings) {
    settings.enabled && !("prod" <= Decimals.Lower(settings.environment))
  }

  /** The gate is shut exactly when simulation is not enabled or the environment's name begins with
      the letters p, r, o, d in either case. */
  lemma GateShut(settings: Settings)
    ensures var e := settings.environment;
            !GateOpen(settings) <==>
              !settings.enabled
              || (|e| >= 4 && e[0] in "pP" && e[1] in "rR" && e[2] in "oO" && e[3] in "dD")
  {
    var l := Decimals.Lower(settings.environment);
    if |l| >= 4 {
      assert l[..4] == "prod" <==> l[0] == 'p' && l[1] == 'r' && l[2] == 'o' && l[3] == 'd';
    }
  }

  /** What a validator says of each record in turn. */
  function Judged(payload: seq<Record>, validate: Record -> Option<Record>): (vs: seq<Option<Record>>)
    ensures |vs| == |payload|
  {
    seq(|payload|, i requires 0 <= i < |payload| => validate(payload[i]))
  }

  function Verdicts(payload: seq<Record>): seq<Option<Record>> {
    Judged(payload, Validate)
  }

  /** The positions without a result. */
  ghost function Failures<T>(vs: seq<Option<T>>): seq<nat> {
    if vs == [] then []
    else
      var n := |vs| - 1;
      Failures(vs[..n]) + if vs[n].None? then [n] else []
  }

  lemma {:induction false} FailuresExact<T>(vs: seq<Option<T>>, i: nat)
    ensures i in Failures(vs) <==> i < |vs| && vs[i].None?
  {
    if vs != [] {
      FailuresExact(vs[..|vs| - 1], i);
    }
  }

  lemma {:induction false} FailuresAscend<T>(vs: seq<Option<T>>, i: nat, j: nat)
    requires i < j < |Failures(vs)|
    ensures Failures(vs)[i] < Failures(vs)[j]
  {
    var n := |vs| - 1;
    var before := Failures(vs[..n]);
    if j < |before| {
      FailuresAscend(vs[..n], i, j);
    } else {
      FailuresExact(vs[..n], before[i]);
    }
  }

  datatype ManualResult = ManualBatch(batch: Batch) | ManualRefused(indices: seq<nat>)

  function ManualGroundTruth(n: nat): Node {
    NDict(map["mode" := NText("manual"), "expected_records" := NInt(n)])
  }

  /** The batch made of records that all validated. */
  ghost predicate DumpedBatch(vs: seq<Option<Record>>, batch: Batch) {
    && |batch.records| == |vs| && (forall i :: 0 <= i < |vs| ==> vs[i] == Some(batch.records[i]))
    && batch.groundTruth == NDict(map["mode" := NText("manual"), "expected_records" := NInt(|vs|)])
    && batch.format == "json"
  }

  /** The records the validator dumps, and the positions it refuses. */
  method Collect(payload: seq<Record>, validate: Record -> Option<Record>)
    returns (records: seq<Record>, errors: seq<nat>)
    ensures errors == Failures(Judged(payload, validate))
    ensures errors == [] ==>
              |records| == |payload| && forall j :: 0 <= j < |payload| ==> Judged(payload, validate)[j] == Some(records[j])
  {
    records, errors := [], [];
    ghost var vs := Judged(payload, validate);
    for i := 0 to |payload|
      invariant errors == Failures(vs[..i])
      invariant errors == [] ==> |records| == i && forall j :: 0 <= j < i ==> vs[j] == Some(records[j])
    {
      assert vs[..i + 1][..i] == vs[..i];
      var validated := validate(payload[i]);
      if validated.None? {
        errors := errors + [i];
      } else {
        records := records + [validated.value];
      }
    }
    assert vs[..|payload|] == vs;
  }

  /** All or nothing: the batch of dumped records, or every position that failed. */
  method ValidateManual(payload: seq<Record>) returns (r: ManualResult)
    ensures r.ManualBatch? ==> Failures(Verdicts(payload)) == [] && DumpedBatch(Verdicts(payload), r.batch)
    ensures r.ManualRefused? ==> r.indices == Failures(Verdicts(payload)) != []
  {
    var records, errors := Collect(payload, Validate);
    if errors != [] {
      return ManualRefused(errors);
    }
    r := ManualBatch(Batch(records, ManualGroundTruth(|records|), "json"));
  }

  /** Records the models accept unchanged, sent by hand, make a batch of just these records. */
  lemma AcceptedUnchanged(payload: seq<Record>)
    requires forall r :: r in payload ==> Validate(r) == Some(r)
    ensures Failures(Verdicts(payload)) == []
    ensures DumpedBatch(Verdicts(payload), Batch(payload, ManualGroundTruth(|payload|), "json"))
  {
    hide Validate;
    var vs := Verdicts(payload);
    if Failures(vs) != [] {
      FailuresExact(vs, Failures(vs)[0]);
    }
  }

  function Hashes(entries: seq<(string, Kind)>): (hashes: seq<string>)
    ensures |hashes| == |entries|
  {
    seq(|entries|, i requires 0 <= i < |entries| => entries[i].0)
  }

  /** The hash of every record's payload, in order. */
  ghost function PayloadHashes(records: seq<Record>, sha: Hasher): (hashes: seq<string>)
    ensures |hashes| == |records|
  {
    seq(|records|, i requires 0 <= i < |records| => HashOf(sha, records[i].payload))
  }

  ghost predicate HasUnknownKind(batch: Batch) {
    exists i :: 0 <= i < |batch.records| && batch.records[i].kind.OtherKind?
  }

  /** Core went from one store to the other by receiving some first part of the batch. */
  ghost predicate PartDelivered(before: Store, after: Store, batch: Batch, prov: Provenance, sha: Hasher, rejects: Rejects) {
    exists n :: 0 <= n <= |batch.records|
      && after == Deliver(before, Stamped(batch.records, batch.format, prov, sha)[..n], rejects)
  }

  lemma NothingDelivered(store: Store, batch: Batch, prov: Provenance, sha: Hasher, rejects: Rejects)
    ensures PartDelivered(store, store, batch, prov, sha, rejects)
  {
    assert Deliver(store, Stamped(batch.records, batch.format, prov, sha)[..0], rejects) == store;
  }

  lemma StampedHashes(batch: Batch, prov: Provenance, sha: Hasher)
    ensures var entries := HashEntries(Stamped(batch.records, batch.format, prov, sha));
            && Hashes(entries) == PayloadHashes(batch.records, sha)
            && forall i :: 0 <= i < |batch.records| ==>
                 entries[i] == (HashOf(sha, batch.records[i].payload), batch.records[i].kind)
  {
    hide HashOf;
    forall i | 0 <= i < |batch.records|
      ensures HashEntries(Stamped(batch.records, batch.format, prov, sha))[i]
              == (HashOf(sha, batch.records[i].payload), batch.records[i].kind)
    {
      StampedRecord(batch.records, i, batch.format, prov, sha);
    }
  }

  /** The publisher was handed some first part of the batch, each record properly stamped. */
  ghost predicate HandedStamped(before: seq<CanonicalRecord>, after: seq<CanonicalRecord>, batch: Batch,
                                prov: Provenance, sha: Hasher) {
    && before <= after && |after| <= |before| + |batch.records|
    && forall i :: |before| <= i < |after| ==>
         ProperlyStamped(after[i], batch.records, i - |before|, batch.format, prov, sha)
  }

  lemma HandedPrefix(before: seq<CanonicalRecord>, after: seq<CanonicalRecord>, stamped: seq<CanonicalRecord>,
                     batch: Batch, prov: Provenance, sha: Hasher)
    requires |stamped| == |batch.records|
    requires forall i :: 0 <= i < |stamped| ==> ProperlyStamped(stamped[i], batch.records, i, batch.format, prov, sha)
    requires exists n :: 0 <= n <= |stamped| && after == before + stamped[..n]
    ensures HandedStamped(before, after, batch, prov, sha)
  {
    hide ProperlyStamped;
  }

  /** Emits a batch that passed the cap. Its answer lines up with the batch record by record, and
      the ground truth is enriched with the hashes of the batch's own payloads, whatever Core
      rejected. A failure leaves a first part delivered: an error answer from Core becomes a 502, any
      other exception a 500, as does a record type outside the models. */
  method EmitBatch(batch: Batch, prov: Provenance, publisher: Publisher, sha: Hasher) returns (r: Response)
    modifies publisher
    ensures r.Dispatched? || r.BadGateway? || r.ServerError?
    ensures HasUnknownKind(batch) ==> r.ServerError? && unchanged(publisher)
    ensures !HasUnknownKind(batch) ==>
              (r.Dispatched? <==> Quiet(publisher.faults, old(publisher.calls), old(publisher.calls) + |batch.records|))
    ensures !HasUnknownKind(batch) && !r.Dispatched? ==>
              && publisher.calls > old(publisher.calls)
              && (r.BadGateway? <==> publisher.faults(publisher.calls - 1).ErrorAnswer?)
    ensures r.Dispatched? ==>
              && r.expected == |batch.records| == |r.sourceHashes| == r.emitted + r.rejected
              && (forall i :: 0 <= i < |batch.records| ==>
                    r.sourceHashes[i] == (HashOf(sha, batch.records[i].payload), batch.records[i].kind))
              && r.rejected == CountRejected(Stamped(batch.records, batch.format, prov, sha), publisher.rejects)
              && r.groundTruth == Enrich(batch.groundTruth, PayloadHashes(batch.records, sha))
              && publisher.store
                 == Deliver(old(publisher.store), Stamped(batch.records, batch.format, prov, sha), publisher.rejects)
    ensures PartDelivered(old(publisher.store), publisher.store, batch, prov, sha, publisher.rejects)
    ensures HandedStamped(old(publisher.handed), publisher.handed, batch, prov, sha)
  {
    hide ProperlyStamped, Stamped, Deliver, Quiet, Enrich, PayloadHashes, HashEntries, HashOf, Hashes;
    StampedHashes(batch, prov, sha);
    var built := BuildCanonicalRecords(batch.records, batch.format, prov, sha);
    if built.UnknownKind? {
      NothingDelivered(publisher.store, batch, prov, sha, publisher.rejects);
      return ServerError;
    }
    var result := Emit(built.records, publisher);
    HandedPrefix(old(publisher.handed), publisher.handed, built.records, batch, prov, sha);
    if !result.Emitted? {
      return if result.EmissionFailed? then BadGateway else ServerError;
    }
    var report := result.report;
    var hashes := Hashes(report.sourceHashes);
    r := Dispatched(report.expected, report.emitted, report.rejected,
                    Enrich(batch.groundTruth, hashes), report.sourceHashes);
  }

  /** Whether a batch is what the request stands for. */
  ghost predicate BatchOf(request: Request, batch: Batch) {
    match request
    case Auto(b, _, _) => b == Some(batch)
    case Manual(payload, _, _) => payload != [] && DumpedBatch(Verdicts(payload), batch)
  }

  lemma SameBatch(request: Request, a: Batch, b: Batch)
    requires BatchOf(request, a) && BatchOf(request, b)
    ensures a == b
  {
    if request.Manual? {
      var vs := Verdicts(request.payload);
      assert forall i :: 0 <= i < |vs| ==> vs[i] == Some(a.records[i]) && vs[i] == Some(b.records[i]);
      assert a.records == b.records;
    }
  }

  lemma NoBatch(request: Request)
    requires request.Manual? && Failures(Verdicts(request.payload)) != []
    ensures forall batch :: !BatchOf(request, batch)
  {
    var vs := Verdicts(request.payload);
    FailuresExact(vs, Failures(vs)[0]);
  }

  function Min(a: nat, b: nat): nat { if a < b then a else b }

  /** How a request that stands for `batch` is answered: cap first, then dry run, then publisher. */
  ghost predicate Answers(settings: Settings, request: Request, hasPublisher: bool, batch: Batch, r: Response) {
    var n := |batch.records|;
    if n > settings.maxRecords then r == OverCap(n)
    else if request.dryRun then r == Preview(n, batch.records[..if n < 20 then n else 20], batch.groundTruth)
    else if !hasPublisher then r == NoPublisher
    else r.Dispatched? || r.BadGateway? || r.ServerError?
  }

  /** `dispatch`. Nothing is published unless the gate is open, the batch is valid, within the cap
      and not a dry run. */
  method Dispatch(settings: Settings, request: Request, publisher: Publisher?, sha: Hasher) returns (r: Response)
    modifies publisher
    ensures r.NotFound? <==> !GateOpen(settings)
    ensures r.BadPreset? <==> GateOpen(settings) && request.Auto? && request.batch == None
    ensures r.MissingPayload? <==> GateOpen(settings) && request.Manual? && request.payload == []
    ensures r.InvalidRecords? <==>
              GateOpen(settings) && request.Manual? && request.payload != [] && Failures(Verdicts(request.payload)) != []
    ensures r.InvalidRecords? ==> r.indices == Failures(Verdicts(request.payload))
    ensures GateOpen(settings) ==>
              forall batch :: BatchOf(request, batch) ==> Answers(settings, request, publisher != null, batch, r)
    ensures publisher != null && !r.Dispatched? && !r.BadGateway? && !r.ServerError? ==> unchanged(publisher)
    ensures r.Dispatched? || r.BadGateway? || r.ServerError? ==>
              && publisher != null && !request.dryRun
              && exists batch ::
                   && BatchOf(request, batch) && |batch.records| <= settings.maxRecords
                   && PartDelivered(old(publisher.store), publisher.store, batch, request.prov, sha, publisher.rejects)
                   && HandedStamped(old(publisher.handed), publisher.handed, batch, request.prov, sha)
    ensures r.Dispatched? ==> exists batch ::
              && BatchOf(request, batch)
              && r.expected == |batch.records| == r.emitted + r.rejected
              && r.groundTruth == Enrich(batch.groundTruth, PayloadHashes(batch.records, sha))
              && publisher.store
                 == Deliver(old(publisher.store), Stamped(batch.records, batch.format, request.prov, sha), publisher.rejects)
  {
    hide Enrich, PayloadHashes, Stamped, Deliver, Judged, GateOpen, PartDelivered, HandedStamped, Quiet;
    hide HasUnknownKind;
    if !GateOpen(settings) {
      return NotFound;
    }
    var batch: Batch;
    match request {
      case Auto(b, _, _) =>
        if b.None? {
          return BadPreset;
        }
        batch := b.value;
      case Manual(payload, _, _) =>
        if payload == [] {
          return MissingPayload;
        }
        var m := ValidateManual(payload);
        if m.ManualRefused? {
          NoBatch(request);
          return InvalidRecords(m.indices);
        }
        batch := m.batch;
    }
    assert BatchOf(request, batch);
    forall other | BatchOf(request, other) ensures other == batch {
      SameBatch(request, batch, other);
    }
    if |batch.records| > settings.maxRecords {
      return OverCap(|batch.records|);
    }
    if request.dryRun {
      return Preview(|batch.records|, batch.records[..Min(|batch.records|, PREVIEW_LIMIT)], batch.groundTruth);
    }
    if publisher == null {
      return NoPublisher;
    }
    r := EmitBatch(batch, request.prov, publisher, sha);
  }
}
