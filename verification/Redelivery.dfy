/** A batch dispatched again and again until an emission goes through. */
module Redelivery {
  import opened Emitter
  import opened Dispatch
  import opened Idempotency

  lemma OneMoreAttempt(store: Store, batch: Batch, attempts: seq<Attempt>, prov: Provenance, sha: Hasher,
                       rejects: Rejects, after: Store)
      returns (more: seq<Attempt>)
    requires Possible(batch.records, attempts)
    requires PartDelivered(AfterAttempts(store, batch.records, batch.format, attempts, sha, rejects), after, batch, prov, sha, rejects)
    ensures Possible(batch.records, more)
    ensures after == AfterAttempts(store, batch.records, batch.format, more, sha, rejects)
  {
    var before := AfterAttempts(store, batch.records, batch.format, attempts, sha, rejects);
    var n: nat :| n <= |batch.records|
                  && after == Deliver(before, Stamped(batch.records, batch.format, prov, sha)[..n], rejects);
    more := attempts + [Attempt(prov, n)];
    assert more[..|more| - 1] == attempts;
  }

  lemma NoAttempts(store: Store, batch: Batch, sha: Hasher, rejects: Rejects)
    ensures AfterAttempts(store, batch.records, batch.format, [], sha, rejects) == store
  {
  }

  /** Dispatches the batch under one provenance after the other, with new batch ids each time, until
      one emission completes. However the earlier ones ended, Core is then as one clean emission
      would have left it. */
  method EmitUntilDispatched(batch: Batch, provs: seq<Provenance>, publisher: Publisher, sha: Hasher)
    returns (done: bool, tries: nat)
    modifies publisher
    ensures tries <= |provs| && (!done ==> tries == |provs|)
    ensures done ==> forall clean: Provenance ::
              publisher.store
              == Deliver(old(publisher.store), Stamped(batch.records, batch.format, clean, sha), publisher.rejects)
  {
    hide Deliver, Stamped, AfterAttempts, PartDelivered;
    ghost var attempts: seq<Attempt> := [];
    tries := 0;
    NoAttempts(publisher.store, batch, sha, publisher.rejects);
    while tries < |provs|
      invariant tries <= |provs| && Possible(batch.records, attempts)
      invariant publisher.store
                == AfterAttempts(old(publisher.store), batch.records, batch.format, attempts, sha, publisher.rejects)
    {
      var r := EmitBatch(batch, provs[tries], publisher, sha);
      tries := tries + 1;
      if r.Dispatched? {
        forall clean: Provenance
          ensures publisher.store
                  == Deliver(old(publisher.store), Stamped(batch.records, batch.format, clean, sha), publisher.rejects)
        {
          ExactlyOnce(old(publisher.store), batch.records, batch.format, attempts, provs[tries - 1], clean, sha, publisher.rejects);
        }
        return true, tries;
      }
      attempts := OneMoreAttempt(old(publisher.store), batch, attempts, provs[tries - 1], sha, publisher.rejects, publisher.store);
    }
    done := false;
  }
}
