/** Rows change their generation table in one direction only: towards more fences. */
module GenerationProofs {
  import opened Catalog
  import opened Invariants

  /** Known attempts stay known, fences stay up, and an attempt that is live was live before or is new. */
  ghost predicate Advances(gens: Gens, gens': Gens) {
    && (forall a :: a in gens ==> a in gens')
    && (forall a :: Fenced(gens, a) ==> Fenced(gens', a) && gens[a].number <= gens'[a].number)
    && (forall a :: Live(gens', a) ==> a !in gens || (Live(gens, a) && gens'[a] == gens[a]))
  }

  lemma SegmentsStay(gens: Gens, gens': Gens, manifests: map<nat, Manifest>, admitted: map<nat, Manifest>,
                     nextId: nat, store: map<Key, Content>)
    requires Advances(gens, gens')
    requires SegmentsStored(gens, manifests, store) && Remembered(gens, manifests, admitted, nextId)
    ensures SegmentsStored(gens', manifests, store) && Remembered(gens', manifests, admitted, nextId)
  {
  }

  lemma ArtifactsStay(gens: Gens, gens': Gens, s: State)
    requires Advances(gens, gens')
    requires ArtifactsStored(gens, s.revisions, s.store)
    requires Charted(gens, s.manifests, s.normalized, s.revisions, s.heads, s.nextId)
    ensures ArtifactsStored(gens', s.revisions, s.store)
    ensures Charted(gens', s.manifests, s.normalized, s.revisions, s.heads, s.nextId)
  {
    forall a | Live(gens', a)
      ensures Headed(gens', s.manifests, s.normalized, s.revisions, s.heads, a)
    {
      assert a in gens ==> Headed(gens, s.manifests, s.normalized, s.revisions, s.heads, a);
    }
  }

  lemma RequestsStay(gens: Gens, gens': Gens, s: State)
    requires Advances(gens, gens')
    requires Requested(gens, s.outbox, s.manifests, s.normalized)
    requires Remembered(gens, s.manifests, s.admitted, s.nextId)
    requires Covered(gens, s.manifests, s.normalized, s.heads, s.outbox)
    ensures Requested(gens', s.outbox, s.manifests, s.normalized)
    ensures Covered(gens', s.manifests, s.normalized, s.heads, s.outbox)
  {
    forall a | Live(gens', a) && a !in gens
      ensures RequestIds(s.outbox, a) == {} && NormalizedOf(s.manifests, s.normalized, a) == {}
      ensures InputsOf(s.manifests, s.normalized, a, gens'[a].number) == {}
    {
    }
  }
}
