/** Holds, fences, leases and tombstone imports keep the lifecycle invariant. */
module ErasureProofs {
  import opened Prelude
  import opened Leases
  import opened Catalog
  import opened Tombstones
  import opened Erasure
  import opened Invariants
  import opened GenerationProofs

  /** What a step over fences, holds and requests has to establish. */
  ghost predicate Orderly(f: Fences, f': Fences) {
    && Advances(f.gens, f'.gens)
    && Numbered(f'.gens)
    && Coupled(f'.holds, f'.deletions, f'.gens)
    && (forall a :: a in f'.deletions && f'.deletions[a].work.state == Completed ==>
          a in f.deletions && f.deletions[a].work.state == Completed)
  }

  /** A step over the fences leaves an erased attempt erased, and completes no erasure. */
  lemma OrderlyPurged(s: State, f': Fences)
    requires Purged(s) && Orderly(FencesOf(s), f')
    ensures Purged(WithFences(s, f'))
    ensures forall a :: Gone(s, a) ==> Gone(WithFences(s, f'), a)
  {
    var s' := WithFences(s, f');
    forall a | a in s'.deletions && s'.deletions[a].work.state == Completed
      ensures Gone(s', a)
    {
      assert Gone(s, a);
    }
  }

  lemma OrderlyKeeps(s: State, f': Fences)
    requires Inv(s) && Orderly(FencesOf(s), f')
    ensures Inv(WithFences(s, f'))
  {
    SegmentsStay(s.gens, f'.gens, s.manifests, s.admitted, s.nextId, s.store);
    ArtifactsStay(s.gens, f'.gens, s);
    RequestsStay(s.gens, f'.gens, s);
    OrderlyPurged(s, f');
  }

  /** The coupling every operation on the fences may rely on. */
  ghost predicate Coherent(f: Fences) {
    Numbered(f.gens) && Coupled(f.holds, f.deletions, f.gens)
  }

  /** Only rows of one attempt change. */
  ghost predicate OnlyAt(f: Fences, f': Fences, a: Attempt) {
    && (forall b :: b != a && b in f.gens ==> b in f'.gens && f'.gens[b] == f.gens[b])
    && (forall b :: b != a && b in f'.gens ==> b in f.gens)
    && (forall b :: b != a && b in f'.deletions ==> b in f.deletions && f'.deletions[b] == f.deletions[b])
    && (forall h :: h in f.holds && f.holds[h].attempt != a ==> h in f'.holds && f'.holds[h] == f.holds[h])
    && (forall h :: h in f'.holds && f'.holds[h].attempt != a ==> h in f.holds && f'.holds[h] == f.holds[h])
  }

  /** The generation row of the attempt moves forward. */
  ghost predicate AdvancesAt(f: Fences, f': Fences, a: Attempt) {
    && (a in f.gens ==> a in f'.gens)
    && (Fenced(f.gens, a) ==> Fenced(f'.gens, a) && f.gens[a].number <= f'.gens[a].number)
    && (Live(f'.gens, a) ==> a !in f.gens || f'.gens[a] == f.gens[a])
    && (a in f'.gens ==> (f'.gens[a].deletedAt.None? <==> f'.gens[a].number == 0))
  }

  lemma OtherHoldsStay(f: Fences, f': Fences, a: Attempt, b: Attempt)
    requires b != a && OnlyAt(f, f', a)
    ensures HasActiveHold(f.holds, b) <==> HasActiveHold(f'.holds, b)
  {
    if HasActiveHold(f.holds, b) {
      var h :| h in f.holds && f.holds[h].attempt == b && f.holds[h].active;
      assert h in f'.holds && f'.holds[h] == f.holds[h];
    }
    if HasActiveHold(f'.holds, b) {
      var h :| h in f'.holds && f'.holds[h].attempt == b && f'.holds[h].active;
      assert h in f.holds && f'.holds[h] == f.holds[h];
    }
  }

  lemma OnlyAtCoupled(f: Fences, f': Fences, a: Attempt)
    requires Coupled(f.holds, f.deletions, f.gens) && OnlyAt(f, f', a)
    requires a in f'.deletions ==> CoupledAt(f'.holds, f'.deletions[a], f'.gens, a)
    ensures Coupled(f'.holds, f'.deletions, f'.gens)
  {
    forall b | b in f'.deletions && b != a
      ensures CoupledAt(f'.holds, f'.deletions[b], f'.gens, b)
    {
      assert CoupledAt(f.holds, f.deletions[b], f.gens, b);
      OtherHoldsStay(f, f', a, b);
    }
  }

  lemma OnlyAtOrderly(f: Fences, f': Fences, a: Attempt)
    requires Coherent(f) && OnlyAt(f, f', a) && AdvancesAt(f, f', a)
    requires a in f'.deletions ==> CoupledAt(f'.holds, f'.deletions[a], f'.gens, a)
    requires a in f'.deletions && f'.deletions[a].work.state == Completed ==>
               a in f.deletions && f.deletions[a].work.state == Completed
    ensures Orderly(f, f')
  {
    OnlyAtCoupled(f, f', a);
  }

  lemma PlaceHoldOrderly(f: Fences, known: bool, id: nat, a: Attempt, reason: string)
    requires Coherent(f)
    ensures Orderly(f, PlaceHold(f, known, id, a, reason))
  {
    var f' := PlaceHold(f, known, id, a, reason);
    if f' != f {
      assert f'.holds[id].active && f'.holds[id].attempt == a;
      OnlyAtOrderly(f, f', a);
    }
  }

  lemma ReleaseHoldOrderly(f: Fences, id: nat, now: nat)
    requires Coherent(f)
    ensures Orderly(f, ReleaseHold(f, id, now))
  {
    if id in f.holds && f.holds[id].active {
      var a := f.holds[id].attempt;
      assert HasActiveHold(f.holds, a);
      OnlyAtOrderly(f, ReleaseHold(f, id, now), a);
    }
  }

  lemma DeleteAttemptOrderly(f: Fences, a: Attempt, now: nat)
    requires Coherent(f)
    ensures Orderly(f, DeleteAttempt(f, a, now))
  {
    OnlyAtOrderly(f, DeleteAttempt(f, a, now), a);
  }

  lemma ClaimDeletionOrderly(f: Fences, a: Attempt, owner: string, now: nat, seconds: nat)
    requires Coherent(f)
    ensures Orderly(f, ClaimDeletion(f, a, owner, now, seconds))
  {
    OnlyAtOrderly(f, ClaimDeletion(f, a, owner, now, seconds), a);
  }

  lemma FailDeletionOrderly(f: Fences, a: Attempt, t: Ticket, generation: nat)
    requires Coherent(f)
    ensures Orderly(f, FailDeletion(f, a, t, generation))
  {
    OnlyAtOrderly(f, FailDeletion(f, a, t, generation), a);
  }

  lemma ApplyEntryOrderly(f: Fences, t: Tombstone)
    requires Coherent(f)
    requires Portable(t) && ApplyEntry(f, t).Some?
    ensures Orderly(f, ApplyEntry(f, t).value)
  {
    OnlyAtOrderly(f, ApplyEntry(f, t).value, t.attempt);
  }

  lemma AdvancesCompose(x: Gens, y: Gens, z: Gens)
    requires Advances(x, y) && Advances(y, z)
    ensures Advances(x, z)
  {
    forall a | Live(z, a)
      ensures a !in x || (Live(x, a) && z[a] == x[a])
    {
      assert a !in y || (Live(y, a) && z[a] == y[a]);
    }
  }

  lemma {:induction false} ApplyEntriesOrderly(f: Fences, entries: seq<Tombstone>)
    requires Coherent(f)
    requires forall i :: 0 <= i < |entries| ==> Portable(entries[i])
    requires ApplyEntries(f, entries).Some?
    ensures Orderly(f, ApplyEntries(f, entries).value)
    decreases |entries|
  {
    if entries != [] {
      var next := ApplyEntry(f, entries[0]).value;
      ApplyEntryOrderly(f, entries[0]);
      ApplyEntriesOrderly(next, entries[1..]);
      AdvancesCompose(f.gens, next.gens, ApplyEntries(f, entries).value.gens);
    }
  }

  lemma ImportKeeps(s: State, b: Bundle)
    requires Inv(s)
    ensures Kept(s, Import(s, b))
  {
    if Importable(s, b) {
      ApplyEntriesOrderly(FencesOf(s), b.entries);
      var f := ApplyEntries(FencesOf(s), b.entries).value;
      OrderlyKeeps(s, f);
      OrderlyPurged(s, f);
      CleanIgnoresImports(WithFences(s, f), s.imports + {b});
    } else {
      assert Import(s, b) == s;
    }
  }

  lemma CleanIgnoresImports(s: State, imports: set<Bundle>)
    requires Inv(s)
    ensures Kept(s, s.(imports := imports))
  {
    var s' := s.(imports := imports);
    forall a | a in s'.deletions && s'.deletions[a].work.state == Completed
      ensures Gone(s', a)
    {
      assert Gone(s, a);
    }
  }

  // Physical erasure: every table loses the rows of one attempt and no others.

  /** Erasure never touches an object that a row of another attempt names. */
  lemma DeletableSpares(s: State, a: Attempt)
    requires SegmentsStored(s.gens, s.manifests, s.store)
    requires ArtifactsStored(s.gens, s.revisions, s.store)
    ensures forall r :: r in s.manifests && s.manifests[r].attempt != a ==> s.manifests[r].key !in Deletable(s, a)
    ensures forall v :: v in s.revisions && s.revisions[v].attempt != a ==>
              s.revisions[v].reportKey !in Deletable(s, a) && s.revisions[v].projectionKey !in Deletable(s, a)
  {
  }

  /** Losing objects of a fenced attempt, and nothing else, hurts no live evidence. */
  lemma LosingObjects(s: State, a: Attempt, gone: set<Key>)
    requires gone == {} || (Fenced(s.gens, a) && gone <= Deletable(s, a))
    requires SegmentsStored(s.gens, s.manifests, s.store)
    requires ArtifactsStored(s.gens, s.revisions, s.store)
    ensures SegmentsStored(s.gens, s.manifests, s.store - gone)
    ensures ArtifactsStored(s.gens, s.revisions, s.store - gone)
  {
    DeletableSpares(s, a);
  }

  lemma ErasedKeepsHistory(s: State, a: Attempt, gone: set<Key>)
    requires a in s.deletions && Fenced(s.gens, a)
    requires Remembered(s.gens, s.manifests, s.admitted, s.nextId)
    requires Queueing(s.outbox, s.manifests, s.normalized, s.nextId)
    ensures var s' := Erased(s, a, gone);
            && Remembered(s'.gens, s'.manifests, s'.admitted, s'.nextId)
            && Queueing(s'.outbox, s'.manifests, s'.normalized, s'.nextId)
  {
    var s' := Erased(s, a, gone);
    forall r | r in s'.manifests
      ensures HasAdmission(s'.outbox, r)
    {
      assert HasAdmission(s.outbox, r);
      var i :| i in s.outbox && s.outbox[i].event == SegmentAdmitted(r);
      assert i in s'.outbox;
    }
  }

  lemma ErasedKeepsRequests(s: State, a: Attempt, gone: set<Key>)
    requires a in s.deletions && Fenced(s.gens, a)
    requires Requested(s.gens, s.outbox, s.manifests, s.normalized)
    requires Covered(s.gens, s.manifests, s.normalized, s.heads, s.outbox)
    ensures var s' := Erased(s, a, gone);
            && Requested(s'.gens, s'.outbox, s'.manifests, s'.normalized)
            && Covered(s'.gens, s'.manifests, s'.normalized, s'.heads, s'.outbox)
  {
    var s' := Erased(s, a, gone);
    forall b | Live(s.gens, b)
      ensures RequestIds(s'.outbox, b) == RequestIds(s.outbox, b)
      ensures NormalizedOf(s'.manifests, s'.normalized, b) == NormalizedOf(s.manifests, s.normalized, b)
      ensures InputsOf(s'.manifests, s'.normalized, b, s.gens[b].number) == InputsOf(s.manifests, s.normalized, b, s.gens[b].number)
      ensures Outstanding(s.outbox, b) ==> Outstanding(s'.outbox, b)
    {
      if Outstanding(s.outbox, b) {
        var i :| i in s.outbox && s.outbox[i].event.ReportRequested? && s.outbox[i].event.attempt == b
                 && Open(s.outbox[i].work);
        assert i in s'.outbox;
      }
    }
  }

  lemma ErasedKeepsReports(s: State, a: Attempt, gone: set<Key>)
    requires a in s.deletions && Fenced(s.gens, a)
    requires Charted(s.gens, s.manifests, s.normalized, s.revisions, s.heads, s.nextId)
    ensures var s' := Erased(s, a, gone);
            Charted(s'.gens, s'.manifests, s'.normalized, s'.revisions, s'.heads, s'.nextId)
  {
    var s' := Erased(s, a, gone);
    forall b | Live(s'.gens, b)
      ensures Headed(s'.gens, s'.manifests, s'.normalized, s'.revisions, s'.heads, b)
    {
      assert Headed(s.gens, s.manifests, s.normalized, s.revisions, s.heads, b);
      assert forall v :: RevisionOf(s'.revisions, v, b) <==> RevisionOf(s.revisions, v, b);
      if b in s.heads {
        forall k | 1 <= k <= s.heads[b].number
          ensures HasNumber(s'.revisions, b, k)
        {
          assert HasNumber(s.revisions, b, k);
        }
        assert InputsOf(s'.manifests, s'.normalized, b, s.heads[b].generation)
            == InputsOf(s.manifests, s.normalized, b, s.heads[b].generation);
      }
    }
  }

  /** A summary only depends on the manifests of its own attempt. */
  lemma SummaryElsewhere(record: Record, manifests: map<nat, Manifest>, manifests': map<nat, Manifest>, b: Attempt)
    requires Summarizes(record, manifests, b)
    requires ReceiptsOf(manifests', b) == ReceiptsOf(manifests, b)
    requires forall r :: r in ReceiptsOf(manifests, b) ==> manifests'[r] == manifests[r]
    ensures Summarizes(record, manifests', b)
  {
    TotalCongruent(ReceiptsOf(manifests, b), RecordsIn(manifests), RecordsIn(manifests'));
  }

  lemma WithoutKeepsIndex(manifests: map<nat, Manifest>, records: map<Attempt, Record>, clock: nat, a: Attempt)
    requires Indexed(manifests, records, clock)
    ensures Indexed(manifests - ReceiptsOf(manifests, a), records - {a}, clock)
  {
    var manifests' := manifests - ReceiptsOf(manifests, a);
    forall b | b in records - {a}
      ensures Summarizes((records - {a})[b], manifests', b)
    {
      assert Summarizes(records[b], manifests, b);
      assert ReceiptsOf(manifests', b) == ReceiptsOf(manifests, b);
      SummaryElsewhere(records[b], manifests, manifests', b);
    }
  }

  lemma ErasedPurges(s: State, a: Attempt, gone: set<Key>)
    requires a in s.deletions && Fenced(s.gens, a)
    ensures Gone(Erased(s, a, gone), a)
    ensures forall b :: Gone(s, b) ==> Gone(Erased(s, a, gone), b)
  {
  }

  /** Purged follows when erased attempts stay erased and only `a` was completed. */
  lemma StaysPurged(s: State, s': State, a: Attempt)
    requires Purged(s) && Gone(s', a)
    requires forall b :: Gone(s, b) ==> Gone(s', b)
    requires forall b :: b != a && b in s'.deletions ==> b in s.deletions && s'.deletions[b] == s.deletions[b]
    ensures Purged(s')
  {
    forall b | b in s'.deletions && s'.deletions[b].work.state == Completed
      ensures Gone(s', b)
    {
      assert b != a ==> Gone(s, b);
    }
  }

  lemma ErasedKeepsObjects(s: State, a: Attempt)
    requires a in s.deletions && Fenced(s.gens, a)
    requires Verified(s.store, s.candidates) && Ranged(s.manifests) && Reservable(s.reservations)
    requires SegmentsStored(s.gens, s.manifests, s.store)
    requires ArtifactsStored(s.gens, s.revisions, s.store)
    ensures var s' := Erased(s, a, Deletable(s, a));
            && Verified(s'.store, s'.candidates) && Ranged(s'.manifests) && Reservable(s'.reservations)
            && SegmentsStored(s'.gens, s'.manifests, s'.store)
            && ArtifactsStored(s'.gens, s'.revisions, s'.store)
  {
    LosingObjects(s, a, Deletable(s, a));
  }

  lemma ErasedKeepsCoupling(s: State, a: Attempt, gone: set<Key>)
    requires a in s.deletions && !HasActiveHold(s.holds, a)
    requires Coupled(s.holds, s.deletions, s.gens)
    requires Current(s.gens, a, s.deletions[a].generation)
    ensures var s' := Erased(s, a, gone); Coupled(s'.holds, s'.deletions, s'.gens)
  {
    OnlyAtCoupled(FencesOf(s), FencesOf(Erased(s, a, gone)), a);
  }

  lemma ErasedKeeps(s: State, a: Attempt)
    requires Inv(s) && a in s.deletions && !HasActiveHold(s.holds, a)
    requires Current(s.gens, a, s.deletions[a].generation)
    ensures Inv(Erased(s, a, Deletable(s, a)))
  {
    var gone := Deletable(s, a);
    ErasedKeepsCoupling(s, a, gone);
    ErasedKeepsObjects(s, a);
    ErasedKeepsHistory(s, a, gone);
    ErasedKeepsRequests(s, a, gone);
    ErasedKeepsReports(s, a, gone);
    WithoutKeepsIndex(s.manifests, s.records, s.clock, a);
    ErasedPurges(s, a, gone);
    StaysPurged(s, Erased(s, a, gone), a);
  }

  lemma StoreOnlyPurged(s: State, store: map<Key, Content>, candidates: map<Key, Candidate>)
    requires Purged(s)
    ensures Purged(s.(store := store, candidates := candidates))
    ensures forall b :: Gone(s, b) ==> Gone(s.(store := store, candidates := candidates), b)
  {
    var s' := s.(store := store, candidates := candidates);
    forall b | b in s'.deletions && s'.deletions[b].work.state == Completed
      ensures Gone(s', b)
    {
      assert Gone(s, b);
    }
  }

  lemma RolledBackKeeps(s: State, a: Attempt, gone: set<Key>)
    requires Inv(s) && (gone == {} || (Fenced(s.gens, a) && gone <= Deletable(s, a)))
    ensures Inv(s.(store := s.store - gone))
  {
    LosingObjects(s, a, gone);
    StoreOnlyPurged(s, s.store - gone, s.candidates);
  }
}
