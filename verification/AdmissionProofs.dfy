/** Both phases of admission keep the lifecycle invariant. */
module AdmissionProofs {
  import opened Prelude
  import opened Leases
  import opened Catalog
  import opened Erasure
  import opened Admission
  import opened Invariants
  import opened ErasureProofs

  lemma WithGenerationKeeps(s: State, a: Attempt)
    requires Inv(s)
    ensures Kept(s, s.(gens := WithGeneration(s.gens, a)))
  {
    var f' := FencesOf(s).(gens := WithGeneration(s.gens, a));
    if a !in s.gens {
      OnlyAtOrderly(FencesOf(s), f', a);
      OrderlyKeeps(s, f');
      OrderlyPurged(s, f');
      assert WithFences(s, f') == s.(gens := f'.gens);
    }
  }

  /** New reservations belong to attempts that are not fenced. */
  ghost predicate OnlyUnfenced(s: State, reservations: map<Range, Reservation>) {
    forall x :: x in reservations ==>
      || (x in s.reservations && reservations[x].attempt == s.reservations[x].attempt)
      || Live(s.gens, reservations[x].attempt)
  }

  lemma ReservationsPurged(s: State, reservations: map<Range, Reservation>, candidates: map<Key, Candidate>, nextId: nat)
    requires Purged(s) && OnlyUnfenced(s, reservations)
    ensures var s' := s.(reservations := reservations, candidates := candidates, nextId := nextId);
            Purged(s') && forall b :: Gone(s, b) ==> Gone(s', b)
  {
    var s' := s.(reservations := reservations, candidates := candidates, nextId := nextId);
    forall b | Gone(s, b)
      ensures Gone(s', b)
    {
    }
    forall b | b in s'.deletions && s'.deletions[b].work.state == Completed
      ensures Gone(s', b)
    {
      assert Gone(s, b);
    }
  }

  /** Identifiers only grow, so a larger bound is as good. */
  lemma MoreIds(s: State, nextId: nat)
    requires s.nextId <= nextId
    requires Remembered(s.gens, s.manifests, s.admitted, s.nextId)
    requires Queueing(s.outbox, s.manifests, s.normalized, s.nextId)
    requires Charted(s.gens, s.manifests, s.normalized, s.revisions, s.heads, s.nextId)
    ensures Remembered(s.gens, s.manifests, s.admitted, nextId)
    ensures Queueing(s.outbox, s.manifests, s.normalized, nextId)
    ensures Charted(s.gens, s.manifests, s.normalized, s.revisions, s.heads, nextId)
  {
  }

  lemma ReservationsKeep(s: State, reservations: map<Range, Reservation>, candidates: map<Key, Candidate>, nextId: nat)
    requires Inv(s) && OnlyUnfenced(s, reservations) && Reservable(reservations) && s.nextId <= nextId
    requires Verified(s.store, candidates)
    ensures Inv(s.(reservations := reservations, candidates := candidates, nextId := nextId))
  {
    MoreIds(s, nextId);
    ReservationsPurged(s, reservations, candidates, nextId);
  }

  /** Touching an attempt's generation row and then the reservations. */
  lemma TouchKeeps(s: State, a: Attempt, s': State)
    requires Inv(s)
    requires var s1 := s.(gens := WithGeneration(s.gens, a));
             && OnlyUnfenced(s1, s'.reservations) && Reservable(s'.reservations) && s.nextId <= s'.nextId
             && s' == s1.(reservations := s'.reservations, nextId := s'.nextId)
    ensures Kept(s, s')
  {
    var s1 := s.(gens := WithGeneration(s.gens, a));
    WithGenerationKeeps(s, a);
    assert s' == s1.(reservations := s'.reservations, candidates := s1.candidates, nextId := s'.nextId);
    ReservationsKeep(s1, s'.reservations, s1.candidates, s'.nextId);
    ReservationsPurged(s1, s'.reservations, s1.candidates, s'.nextId);
  }

  lemma ReservedUnfenced(s: State, u: Segment, d: Decision)
    requires Reservable(s.reservations) && !d.Reject? && (d.Accept? ==> !Fenced(s.gens, u.attempt))
    ensures OnlyUnfenced(s.(gens := WithGeneration(s.gens, u.attempt)), ReservedRanges(s, u, d))
    ensures Reservable(ReservedRanges(s, u, d))
  {
  }

  lemma ReservingKeeps(s: State, u: Segment, d: Decision)
    requires Inv(s)
    requires d.Accept? ==> !Fenced(s.gens, u.attempt)
    ensures Kept(s, Reserving(s, u, d))
  {
    if !d.Reject? {
      ReservedUnfenced(s, u, d);
      TouchKeeps(s, u.attempt, Reserving(s, u, d));
    } else {
      assert Reserving(s, u, d) == s;
    }
  }

  lemma ReserveKeeps(s: State, u: Segment)
    requires Inv(s)
    ensures Kept(s, Reserve(s, u))
  {
    ReservingKeeps(s, u, DecideReserve(s, u));
  }

  lemma PutKeeps(s: State, key: Key)
    requires Inv(s)
    ensures Kept(s, Put(s, key))
  {
    StoreOnlyPurged(s, Put(s, key).store, s.candidates);
  }

  // The committing branch, stated for an attempt that is live and matches.

  ghost predicate Admissible(s: State, u: Segment) {
    && Live(s.gens, u.attempt) && s.gens[u.attempt].number == u.generation
    && KeyOf(u) in s.store
    && !Overlapped(s.manifests, u)
    && CanRecord(s.records, u)
  }

  lemma ManifestKeepsRanges(s: State, u: Segment)
    requires Ranged(s.manifests) && !Overlapped(s.manifests, u)
    ensures Ranged(WithManifest(s, u))
  {
  }

  lemma ManifestKeepsObjects(s: State, u: Segment)
    requires SegmentsStored(s.gens, s.manifests, s.store) && KeyOf(u) in s.store
    ensures SegmentsStored(s.gens, WithManifest(s, u), s.store)
  {
  }

  lemma ManifestIsRemembered(s: State, u: Segment)
    requires Live(s.gens, u.attempt) && s.gens[u.attempt].number == u.generation
    requires Remembered(s.gens, s.manifests, s.admitted, s.nextId)
    ensures Remembered(s.gens, WithManifest(s, u), s.admitted[s.nextId := ManifestOf(s, u)], s.nextId + 2)
    ensures s.nextId !in s.manifests
  {
  }

  lemma ManifestKeepsQueue(s: State, u: Segment)
    requires s.nextId !in s.manifests
    requires Queueing(s.outbox, s.manifests, s.normalized, s.nextId)
    ensures Queueing(WithAdmission(s), WithManifest(s, u), s.normalized, s.nextId + 2)
  {
    var outbox' := WithAdmission(s);
    forall r | r in WithManifest(s, u)
      ensures HasAdmission(outbox', r)
    {
      if r == s.nextId {
        assert outbox'[s.nextId + 1].event == SegmentAdmitted(r);
      } else {
        assert HasAdmission(s.outbox, r);
        var i :| i in s.outbox && s.outbox[i].event == SegmentAdmitted(r);
        assert outbox'[i] == s.outbox[i];
      }
    }
  }

  /** A manifest that is not normalized yet is no report input, and its event is no report request. */
  lemma ManifestKeepsViews(s: State, u: Segment, a: Attempt, g: nat)
    requires s.nextId !in s.manifests && Queueing(s.outbox, s.manifests, s.normalized, s.nextId)
    ensures RequestIds(WithAdmission(s), a) == RequestIds(s.outbox, a)
    ensures NormalizedOf(WithManifest(s, u), s.normalized, a) == NormalizedOf(s.manifests, s.normalized, a)
    ensures InputsOf(WithManifest(s, u), s.normalized, a, g) == InputsOf(s.manifests, s.normalized, a, g)
    ensures Outstanding(s.outbox, a) ==> Outstanding(WithAdmission(s), a)
  {
    if Outstanding(s.outbox, a) {
      var i :| i in s.outbox && s.outbox[i].event.ReportRequested? && s.outbox[i].event.attempt == a
               && Open(s.outbox[i].work);
      assert WithAdmission(s)[i] == s.outbox[i];
    }
  }

  lemma ManifestKeepsRequests(s: State, u: Segment)
    requires s.nextId !in s.manifests && Queueing(s.outbox, s.manifests, s.normalized, s.nextId)
    requires Requested(s.gens, s.outbox, s.manifests, s.normalized)
    requires Covered(s.gens, s.manifests, s.normalized, s.heads, s.outbox)
    ensures Requested(s.gens, WithAdmission(s), WithManifest(s, u), s.normalized)
    ensures Covered(s.gens, WithManifest(s, u), s.normalized, s.heads, WithAdmission(s))
  {
    forall a | Live(s.gens, a)
      ensures |RequestIds(WithAdmission(s), a)| == |NormalizedOf(WithManifest(s, u), s.normalized, a)|
    {
      ManifestKeepsViews(s, u, a, 0);
    }
    forall a | Live(s.gens, a)
      ensures InputsOf(WithManifest(s, u), s.normalized, a, s.gens[a].number)
           == InputsOf(s.manifests, s.normalized, a, s.gens[a].number)
      ensures Outstanding(s.outbox, a) ==> Outstanding(WithAdmission(s), a)
    {
      ManifestKeepsViews(s, u, a, s.gens[a].number);
    }
  }

  lemma ManifestKeepsReports(s: State, u: Segment)
    requires s.nextId !in s.manifests && Queueing(s.outbox, s.manifests, s.normalized, s.nextId)
    requires Charted(s.gens, s.manifests, s.normalized, s.revisions, s.heads, s.nextId)
    ensures Charted(s.gens, WithManifest(s, u), s.normalized, s.revisions, s.heads, s.nextId + 2)
  {
    forall a | Live(s.gens, a)
      ensures Headed(s.gens, WithManifest(s, u), s.normalized, s.revisions, s.heads, a)
    {
      assert Headed(s.gens, s.manifests, s.normalized, s.revisions, s.heads, a);
      if a in s.heads {
        ManifestKeepsViews(s, u, a, s.heads[a].generation);
      }
    }
  }

  lemma ManifestCounts(s: State, u: Segment)
    requires s.nextId !in s.manifests
    ensures var rows, rows' := ReceiptsOf(s.manifests, u.attempt), ReceiptsOf(WithManifest(s, u), u.attempt);
            && rows' == rows + {s.nextId} && |rows'| == |rows| + 1
            && Total(rows', RecordsIn(WithManifest(s, u))) == Total(rows, RecordsIn(s.manifests)) + u.records
  {
    var manifests' := WithManifest(s, u);
    var rows, rows' := ReceiptsOf(s.manifests, u.attempt), ReceiptsOf(manifests', u.attempt);
    assert rows' == rows + {s.nextId};
    TotalRemove(rows', RecordsIn(manifests'), s.nextId);
    assert rows' - {s.nextId} == rows;
    TotalCongruent(rows, RecordsIn(s.manifests), RecordsIn(manifests'));
  }

  lemma SpansExtend(first: nat, last: nat, manifests: map<nat, Manifest>, rows: set<nat>, id: nat, m: Manifest)
    requires id !in manifests && Spans(first, last, manifests, rows) && last <= m.committedAt
    ensures Spans(first, m.committedAt, manifests[id := m], rows + {id})
  {
    var manifests' := manifests[id := m];
    var r :| r in rows && r in manifests && manifests[r].committedAt == first;
    assert r in rows + {id} && manifests'[r].committedAt == first;
    assert id in rows + {id} && manifests'[id].committedAt == m.committedAt;
  }

  lemma LaterRecord(known: Record, s: State, u: Segment, bindings: Bindings)
    requires s.nextId !in s.manifests && Summarizes(known, s.manifests, u.attempt)
    requires forall r :: r in s.manifests ==> s.manifests[r].committedAt <= s.clock
    ensures Summarizes(Record(bindings, known.first, s.clock, known.segments + 1, known.records + u.records),
                       WithManifest(s, u), u.attempt)
  {
    var rows := ReceiptsOf(s.manifests, u.attempt);
    assert known.last <= s.clock by {
      var r :| r in rows && r in s.manifests && s.manifests[r].committedAt == known.last;
    }
    SpansExtend(known.first, known.last, s.manifests, rows, s.nextId, ManifestOf(s, u));
    ManifestCounts(s, u);
  }

  lemma FirstRecord(s: State, u: Segment)
    requires s.nextId !in s.manifests && ReceiptsOf(s.manifests, u.attempt) == {}
    ensures Summarizes(Record(u.bindings, s.clock, s.clock, 1, u.records), WithManifest(s, u), u.attempt)
  {
    ManifestCounts(s, u);
    assert WithManifest(s, u)[s.nextId].committedAt == s.clock;
  }

  /** The incremental record is the MIN, MAX, COUNT and SUM over the enlarged set of manifests. */
  lemma RecordedSummarizes(s: State, u: Segment)
    requires s.nextId !in s.manifests && Indexed(s.manifests, s.records, s.clock)
    ensures Summarizes(Recorded(s.records, u, s.clock), WithManifest(s, u), u.attempt)
  {
    if u.attempt in s.records {
      assert Summarizes(s.records[u.attempt], s.manifests, u.attempt);
      LaterRecord(s.records[u.attempt], s, u, Recorded(s.records, u, s.clock).bindings);
    } else {
      FirstRecord(s, u);
    }
  }

  lemma ManifestKeepsIndex(s: State, u: Segment)
    requires s.nextId !in s.manifests && Indexed(s.manifests, s.records, s.clock)
    ensures Indexed(WithManifest(s, u), s.records[u.attempt := Recorded(s.records, u, s.clock)], s.clock)
  {
    var manifests' := WithManifest(s, u);
    var records' := s.records[u.attempt := Recorded(s.records, u, s.clock)];
    forall b | b in records'
      ensures Summarizes(records'[b], manifests', b)
    {
      if b == u.attempt {
        RecordedSummarizes(s, u);
      } else {
        assert Summarizes(s.records[b], s.manifests, b);
        assert ReceiptsOf(manifests', b) == ReceiptsOf(s.manifests, b);
        SummaryElsewhere(s.records[b], s.manifests, manifests', b);
      }
    }
  }

  /** A job is bound to the attempt only if no other attempt of the cluster has it. */
  lemma RecordKeepsIdentities(s: State, u: Segment)
    requires Identified(s.records) && CanRecord(s.records, u)
    ensures Identified(s.records[u.attempt := Recorded(s.records, u, s.clock)])
  {
  }

  lemma AdmittingPurged(s: State, u: Segment)
    requires Purged(s) && Live(s.gens, u.attempt)
    ensures Purged(Admitting(s, u))
    ensures forall b :: Gone(s, b) ==> Gone(Admitting(s, u), b)
  {
    var s' := Admitting(s, u);
    forall b | Gone(s, b)
      ensures Gone(s', b)
    {
      assert b != u.attempt;
    }
    forall b | b in s'.deletions && s'.deletions[b].work.state == Completed
      ensures Gone(s', b)
    {
      assert Gone(s, b);
    }
  }

  lemma AdmittingKeeps(s: State, u: Segment)
    requires Inv(s) && Admissible(s, u)
    ensures Inv(Admitting(s, u))
  {
    ManifestKeepsRanges(s, u);
    ManifestKeepsObjects(s, u);
    ManifestIsRemembered(s, u);
    ManifestKeepsQueue(s, u);
    ManifestKeepsRequests(s, u);
    ManifestKeepsReports(s, u);
    ManifestKeepsIndex(s, u);
    RecordKeepsIdentities(s, u);
    AdmittingPurged(s, u);
  }

  lemma CommittingKeeps(s: State, u: Segment, d: Decision)
    requires Inv(s)
    requires d.Accept? ==> Admissible(Spending(s, u), u)
    ensures Kept(s, Committing(s, u, d))
  {
    if d.Replay? || d.Accept? {
      TouchKeeps(s, u.attempt, Spending(s, u));
    }
    if d.Accept? {
      AdmittingKeeps(Spending(s, u), u);
      AdmittingPurged(Spending(s, u), u);
    }
  }

  lemma CommitKeeps(s: State, u: Segment, reservation: nat)
    requires Inv(s)
    ensures Kept(s, Commit(s, u, reservation))
  {
    CommittingKeeps(s, u, DecideCommit(s, u, reservation));
  }
}
