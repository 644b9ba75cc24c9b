/** Expiry, collection and audit keep the lifecycle invariant. */
module CollectionProofs {
  import opened Catalog
  import opened Collection
  import opened Invariants
  import opened ErasureProofs
  import opened AdmissionProofs

  lemma ExpireOneKeeps(s: State, x: Range, ttl: nat, grace: nat)
    requires Inv(s)
    ensures Kept(s, ExpireOne(s, x, ttl, grace))
  {
    var s' := ExpireOne(s, x, ttl, grace);
    if Expirable(s, x, ttl) {
      assert s' == s.(reservations := s'.reservations, candidates := s'.candidates, nextId := s.nextId);
      ReservationsKeep(s, s'.reservations, s'.candidates, s.nextId);
      ReservationsPurged(s, s'.reservations, s'.candidates, s.nextId);
    }
  }

  lemma {:induction false} SweepKeeps(s: State, batch: seq<Range>, ttl: nat, grace: nat)
    requires Inv(s)
    ensures Kept(s, Sweep(s, batch, ttl, grace))
    decreases |batch|
  {
    if batch != [] {
      ExpireOneKeeps(s, batch[0], ttl, grace);
      SweepKeeps(ExpireOne(s, batch[0], ttl, grace), batch[1..], ttl, grace);
    }
  }

  /** An object that no row refers to may go without harm. */
  lemma LosingUnreferenced(s: State, key: Key)
    requires !Referenced(s, key)
    requires SegmentsStored(s.gens, s.manifests, s.store) && ArtifactsStored(s.gens, s.revisions, s.store)
    ensures SegmentsStored(s.gens, s.manifests, s.store - {key})
    ensures ArtifactsStored(s.gens, s.revisions, s.store - {key})
  {
  }

  /** A step that only touches the object store and the candidates, and loses nothing live. */
  ghost predicate StoreStep(s: State, s': State) {
    && s' == s.(store := s'.store, candidates := s'.candidates)
    && Verified(s'.store, s'.candidates)
    && SegmentsStored(s.gens, s.manifests, s'.store)
    && ArtifactsStored(s.gens, s.revisions, s'.store)
  }

  /** What such steps may rely on. */
  ghost predicate Storing(s: State) {
    && Verified(s.store, s.candidates)
    && SegmentsStored(s.gens, s.manifests, s.store)
    && ArtifactsStored(s.gens, s.revisions, s.store)
  }

  lemma CandidateStep(s: State, candidates: map<Key, Candidate>)
    requires Storing(s) && Verified(s.store, candidates)
    ensures StoreStep(s, s.(candidates := candidates))
  {
  }

  lemma StoreStepKeeps(s: State, s': State)
    requires Inv(s) && StoreStep(s, s')
    ensures Kept(s, s')
  {
    StoreOnlyPurged(s, s'.store, s'.candidates);
  }

  lemma CollectedStored(s: State, key: Key)
    requires Storing(s)
    ensures forall k :: k in Collected(s, key) ==> Collected(s, key)[k] == k.content
    ensures SegmentsStored(s.gens, s.manifests, Collected(s, key))
    ensures ArtifactsStored(s.gens, s.revisions, Collected(s, key))
  {
    if Due(s, key) && !Referenced(s, key) {
      LosingUnreferenced(s, key);
    }
  }

  lemma CollectStep(s: State, key: Key)
    requires Storing(s)
    ensures StoreStep(s, Collect(s, key)) && StoreStep(s, CollectRolledBack(s, key))
  {
    CollectedStored(s, key);
    assert Faithful(Judged(s, key));
  }

  lemma AuditStep(s: State, key: Key, grace: nat, interval: nat)
    requires Storing(s)
    ensures StoreStep(s, Audit(s, key, grace, interval))
  {
    CandidateStep(s, Audited(s, key, grace, interval));
  }
}
