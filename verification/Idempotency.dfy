/** At-least-once delivery into a store that keeps the first record under each source hash:
    any number of emissions cut short, then one that completes, leave what one clean run leaves. */
module Idempotency {
  import opened Models
  import opened Sequences
  import opened Emitter

  /** Whether two records are the same delivery: Core looks at the hash, the type and the payload,
      never at the batch or message id. */
  ghost predicate SameDelivery(r: CanonicalRecord, s: CanonicalRecord) {
    r.record == s.record && r.meta.sourceHash == s.meta.sourceHash
  }

  lemma {:induction false} DeliverAlike(store: Store, rs: seq<CanonicalRecord>, ts: seq<CanonicalRecord>, rejects: Rejects)
    requires |rs| == |ts| && forall i :: 0 <= i < |rs| ==> SameDelivery(rs[i], ts[i])
    ensures Deliver(store, rs, rejects) == Deliver(store, ts, rejects)
  {
    if rs != [] {
      var n := |rs| - 1;
      DeliverAlike(store, rs[..n], ts[..n], rejects);
      assert SameDelivery(rs[n], ts[n]);
    }
  }

  lemma {:induction false} DeliverConcat(store: Store, rs: seq<CanonicalRecord>, ts: seq<CanonicalRecord>, rejects: Rejects)
    ensures Deliver(store, rs + ts, rejects) == Deliver(Deliver(store, rs, rejects), ts, rejects)
  {
    if ts == [] {
      assert rs + ts == rs;
    } else {
      var n := |ts| - 1;
      DeliverConcat(store, rs, ts[..n], rejects);
      assert (rs + ts)[..|rs + ts| - 1] == rs + ts[..n];
    }
  }

  /** Delivering the record changes nothing. */
  ghost predicate Settled(store: Store, r: CanonicalRecord, rejects: Rejects) {
    rejects(r.record) || r.meta.sourceHash in store
  }

  lemma {:induction false} DeliverSettles(store: Store, rs: seq<CanonicalRecord>, rejects: Rejects)
    ensures forall h :: h in store ==> h in Deliver(store, rs, rejects)
    ensures forall i :: 0 <= i < |rs| ==> Settled(Deliver(store, rs, rejects), rs[i], rejects)
  {
    if rs != [] {
      var n := |rs| - 1;
      DeliverSettles(store, rs[..n], rejects);
      forall i | 0 <= i < |rs| ensures Settled(Deliver(store, rs, rejects), rs[i], rejects) {
        if i < n { assert Settled(Deliver(store, rs[..n], rejects), rs[..n][i], rejects); }
      }
    }
  }

  lemma {:induction false} SettledUnchanged(store: Store, rs: seq<CanonicalRecord>, rejects: Rejects)
    requires forall i :: 0 <= i < |rs| ==> Settled(store, rs[i], rejects)
    ensures Deliver(store, rs, rejects) == store
  {
    if rs != [] {
      var n := |rs| - 1;
      SettledUnchanged(store, rs[..n], rejects);
      assert Settled(store, rs[n], rejects);
    }
  }

  /** A prefix delivered before the whole makes no difference. */
  lemma PrefixAbsorbed(store: Store, rs: seq<CanonicalRecord>, n: nat, rejects: Rejects)
    requires n <= |rs|
    ensures Deliver(Deliver(store, rs[..n], rejects), rs, rejects) == Deliver(store, rs, rejects)
  {
    var first := Deliver(store, rs[..n], rejects);
    DeliverSettles(store, rs[..n], rejects);
    SettledUnchanged(first, rs[..n], rejects);
    assert rs == rs[..n] + rs[n..];
    DeliverConcat(first, rs[..n], rs[n..], rejects);
    DeliverConcat(store, rs[..n], rs[n..], rejects);
  }

  /** An emission that broke off: under which provenance, and how many records Core got. */
  datatype Attempt = Attempt(prov: Provenance, delivered: nat)

  ghost predicate Possible(records: seq<Record>, attempts: seq<Attempt>) {
    forall i :: 0 <= i < |attempts| ==> attempts[i].delivered <= |records|
  }

  /** Core's store after a series of broken emissions of one batch. */
  ghost function AfterAttempts(store: Store, records: seq<Record>, format: string, attempts: seq<Attempt>,
                               sha: Hasher, rejects: Rejects): Store
    requires Possible(records, attempts)
  {
    if attempts == [] then store
    else
      var last := attempts[|attempts| - 1];
      var before := AfterAttempts(store, records, format, attempts[..|attempts| - 1], sha, rejects);
      Deliver(before, Stamped(records, format, last.prov, sha)[..last.delivered], rejects)
  }

  lemma StampedAlike(store: Store, records: seq<Record>, format: string, p: Provenance, q: Provenance, n: nat,
                     sha: Hasher, rejects: Rejects)
    requires n <= |records|
    ensures Deliver(store, Stamped(records, format, p, sha)[..n], rejects)
            == Deliver(store, Stamped(records, format, q, sha)[..n], rejects)
  {
    DeliverAlike(store, Stamped(records, format, p, sha)[..n], Stamped(records, format, q, sha)[..n], rejects);
  }

  lemma {:induction false} CompleteRunAbsorbs(
      store: Store, records: seq<Record>, format: string, attempts: seq<Attempt>, prov: Provenance,
      sha: Hasher, rejects: Rejects)
    requires Possible(records, attempts)
    ensures Deliver(AfterAttempts(store, records, format, attempts, sha, rejects), Stamped(records, format, prov, sha), rejects)
            == Deliver(store, Stamped(records, format, prov, sha), rejects)
  {
    if attempts != [] {
      var earlier, last := attempts[..|attempts| - 1], attempts[|attempts| - 1];
      var before := AfterAttempts(store, records, format, earlier, sha, rejects);
      var all := Stamped(records, format, prov, sha);
      StampedAlike(before, records, format, last.prov, prov, last.delivered, sha, rejects);
      PrefixAbsorbed(before, all, last.delivered, rejects);
      CompleteRunAbsorbs(store, records, format, earlier, prov, sha, rejects);
    }
  }

  /** Any broken emissions of a batch, each under its own ids, followed by a complete one leave
      Core exactly as one clean emission under any ids does. No assumption on the hash is needed. */
  lemma ExactlyOnce(store: Store, records: seq<Record>, format: string, attempts: seq<Attempt>,
                    final: Provenance, clean: Provenance, sha: Hasher, rejects: Rejects)
    requires Possible(records, attempts)
    ensures Deliver(AfterAttempts(store, records, format, attempts, sha, rejects), Stamped(records, format, final, sha), rejects)
            == Deliver(store, Stamped(records, format, clean, sha), rejects)
  {
    CompleteRunAbsorbs(store, records, format, attempts, final, sha, rejects);
    var p, q := Stamped(records, format, final, sha), Stamped(records, format, clean, sha);
    StampedAlike(store, records, format, final, clean, |records|, sha, rejects);
    assert p[..|records|] == p && q[..|records|] == q;
  }

  /** A Core that rejects nothing. */
  function AcceptAll(): Rejects {
    (r: Record) => false
  }

  /** Such a Core, empty before, keeps one record for each different source hash. */
  lemma {:induction false} StoreSize(rs: seq<CanonicalRecord>)
    ensures |Deliver(map[], rs, AcceptAll())| + Repeats(SourceHashes(rs)) == |rs|
    ensures forall h :: h in Deliver(map[], rs, AcceptAll()) <==> h in SourceHashes(rs)
  {
    if rs != [] {
      var n := |rs| - 1;
      var before, h := Deliver(map[], rs[..n], AcceptAll()), rs[n].meta.sourceHash;
      StoreSize(rs[..n]);
      assert SourceHashes(rs) == SourceHashes(rs[..n]) + [h];
      assert SourceHashes(rs)[..n] == SourceHashes(rs[..n]);
      if h !in before {
        assert before[h := rs[n].record].Keys == before.Keys + {h};
      }
    }
  }

  /** What Core ends up holding: what it held, and under each new hash the first accepted record
      of the batch with that hash. */
  lemma {:induction false} StoreContents(store: Store, rs: seq<CanonicalRecord>, rejects: Rejects, h: string)
    ensures var after := Deliver(store, rs, rejects);
            && (h in store ==> h in after && after[h] == store[h])
            && (h in after <==> h in store || exists i :: 0 <= i < |rs| && rs[i].meta.sourceHash == h && !rejects(rs[i].record))
            && (h in after && h !in store ==>
                  exists i :: 0 <= i < |rs| && rs[i].meta.sourceHash == h && rs[i].record == after[h] && !rejects(rs[i].record)
                    && forall j :: 0 <= j < i ==> rs[j].meta.sourceHash != h || rejects(rs[j].record))
  {
    if rs != [] {
      var n := |rs| - 1;
      var init := rs[..n];
      StoreContents(store, init, rejects, h);
      var before, after := Deliver(store, init, rejects), Deliver(store, rs, rejects);
      if h in before {
        if h !in store {
          var i :| 0 <= i < n && init[i].meta.sourceHash == h && init[i].record == before[h] && !rejects(init[i].record)
                   && forall j :: 0 <= j < i ==> init[j].meta.sourceHash != h || rejects(init[j].record);
          assert rs[i] == init[i] && forall j :: 0 <= j < i ==> rs[j] == init[j];
        }
      } else {
        forall j | 0 <= j < n ensures rs[j].meta.sourceHash != h || rejects(rs[j].record) {
          assert rs[j] == init[j];
        }
      }
    }
  }
}
