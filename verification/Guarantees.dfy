/** What the evidence lifecycle promises, over every run from the empty catalog. */
module Guarantees {
  import opened Leases
  import opened Catalog
  import opened Admission
  import opened Erasure
  import opened Collection
  import opened Reporting
  import opened Invariants
  import opened ErasureProofs
  import opened ReportingProofs
  import opened Lifecycle
  import opened Progress

  /** Live evidence is never destroyed: manifests and artifacts keep their objects, content and all. */
  lemma LiveEvidenceSurvives(run: seq<Action>)
    ensures var s := Exec(Empty, run);
            && (forall r :: r in s.manifests && Live(s.gens, s.manifests[r].attempt) ==>
                  ExistsVerified(s.store, s.manifests[r].key, s.manifests[r].content))
            && (forall v :: v in s.revisions && Live(s.gens, s.revisions[v].attempt) ==>
                  var x := s.revisions[v];
                  && ExistsVerified(s.store, x.reportKey, Report(x.attempt, x.generation, x.inputs))
                  && ExistsVerified(s.store, x.projectionKey, Projection(x.attempt, x.inputs)))
  {
    EmptyIsGood();
    RunKept(Empty, run);
  }

  /** Report revisions of a live attempt form a chain 1..n whose last link is the head. */
  lemma ReportsFormAChain(run: seq<Action>, a: Attempt)
    requires Live(Exec(Empty, run).gens, a)
    ensures var s := Exec(Empty, run);
            && (a !in s.heads ==> forall v :: v in s.revisions ==> s.revisions[v].attempt != a)
            && (a in s.heads ==> Chained(s.revisions, a, s.heads[a].number)
                                 && RevisionOf(s.revisions, s.heads[a].revision, a)
                                 && s.revisions[s.heads[a].revision].number == s.heads[a].number
                                 && s.revisions[s.heads[a].revision].inputs == s.heads[a].inputs)
  {
    EmptyIsGood();
    RunKept(Empty, run);
    var s := Exec(Empty, run);
    assert Headed(s.gens, s.manifests, s.normalized, s.revisions, s.heads, a);
    forall v | v in s.revisions && s.revisions[v].attempt == a
      ensures a in s.heads
    {
      assert RevisionOf(s.revisions, v, a);
    }
  }

  /** Whatever happens next, the head of an attempt that is still live has not gone back or lost an input. */
  lemma HeadsNeverGoBack(run: seq<Action>, later: seq<Action>, a: Attempt)
    requires var s := Exec(Empty, run); a in s.heads && Live(Exec(s, later).gens, a)
    ensures var s, s' := Exec(Empty, run), Exec(Exec(Empty, run), later);
            a in s'.heads && s.heads[a].number <= s'.heads[a].number && s.heads[a].inputs <= s'.heads[a].inputs
  {
    EmptyIsGood();
    RunKept(Empty, run);
    RunMoves(Exec(Empty, run), later);
  }

  /** While no report request of a live attempt is queued, under way or failed, its head covers all normalized segments. */
  lemma HeadLosesNoEvidence(run: seq<Action>, a: Attempt, r: nat)
    requires var s := Exec(Empty, run);
             && Live(s.gens, a)
             && (forall i :: i in s.outbox && s.outbox[i].event.ReportRequested? && s.outbox[i].event.attempt == a ==>
                   s.outbox[i].work.state != Pending && s.outbox[i].work.state != Processing && s.outbox[i].work.state != Failed)
             && r in s.normalized && r in s.manifests && s.manifests[r].attempt == a
    ensures var s := Exec(Empty, run); a in s.heads && r in s.heads[a].inputs
  {
    EmptyIsGood();
    RunKept(Empty, run);
    HeadCovers(Exec(Empty, run), a, r);
  }

  lemma HeadCovers(s: State, a: Attempt, r: nat)
    requires Covered(s.gens, s.manifests, s.normalized, s.heads, s.outbox)
    requires Remembered(s.gens, s.manifests, s.admitted, s.nextId)
    requires Live(s.gens, a) && !Outstanding(s.outbox, a)
    requires r in s.normalized && r in s.manifests && s.manifests[r].attempt == a
    ensures a in s.heads && r in s.heads[a].inputs
  {
    assert r in s.admitted && s.admitted[r] == s.manifests[r];
    assert r in InputsOf(s.manifests, s.normalized, a, s.gens[a].number);
  }

  /** A live attempt has exactly one report request for every normalized segment. */
  lemma RequestsMatchSegments(run: seq<Action>, a: Attempt)
    requires Live(Exec(Empty, run).gens, a)
    ensures var s := Exec(Empty, run);
            |RequestIds(s.outbox, a)| == |NormalizedOf(s.manifests, s.normalized, a)|
  {
    EmptyIsGood();
    RunKept(Empty, run);
  }

  /** A segment that is normalized again has the content it had, so the digest conflict is unreachable. */
  lemma NormalizationNeverConflicts(run: seq<Action>, receipt: nat)
    requires receipt in Exec(Empty, run).admitted
    ensures !Clashes(Exec(Empty, run).normalized, receipt, Exec(Empty, run).admitted[receipt])
  {
    EmptyIsGood();
    RunKept(Empty, run);
    NeverClashes(Exec(Empty, run), receipt, Exec(Empty, run).admitted[receipt]);
  }

  /** A revision over the same inputs has the same artifacts, so finding different ones is unreachable. */
  lemma ExistingArtifactsAgree(run: seq<Action>, v: nat, a: Attempt, g: nat, inputs: set<nat>)
    requires SameInputs(Exec(Empty, run), v, a, g, inputs)
    ensures var x := Exec(Empty, run).revisions[v];
            x.reportKey == ReportKeyOf(a, g, inputs) && x.projectionKey == ProjectionKeyOf(a, inputs)
  {
    EmptyIsGood();
    RunKept(Empty, run);
  }

  /** Held exactly while a hold is active; otherwise fenced at the generation to be erased. */
  lemma HoldsAndFencesStayCoupled(run: seq<Action>, a: Attempt)
    requires a in Exec(Empty, run).deletions
    ensures var s := Exec(Empty, run);
            && (s.deletions[a].work.state == Held <==> HasActiveHold(s.holds, a))
            && (s.deletions[a].work.state != Held ==>
                  Fenced(s.gens, a) && s.gens[a].number == s.deletions[a].generation)
            && (s.deletions[a].work.state == Completed ==>
                  s.deletions[a].completedAt.Some? && s.deletions[a].generation >= 1)
  {
    EmptyIsGood();
    RunKept(Empty, run);
    var s := Exec(Empty, run);
    assert CoupledAt(s.holds, s.deletions[a], s.gens, a);
  }

  /** The eraser never meets the error "attempt deletion generation is no longer current". */
  lemma ErasureIsNeverStale(run: seq<Action>, a: Attempt, t: Ticket, g: nat)
    requires Matches(FencesOf(Exec(Empty, run)), a, t, g)
    ensures Current(Exec(Empty, run).gens, a, g) && !HasActiveHold(Exec(Empty, run).holds, a)
  {
    EmptyIsGood();
    RunKept(Empty, run);
    LeaseIsCurrent(FencesOf(Exec(Empty, run)), a, t, g);
  }

  /** No fence is ever lifted and no generation ever decreases. */
  lemma FencesArePermanent(run: seq<Action>, later: seq<Action>, a: Attempt)
    requires Fenced(Exec(Empty, run).gens, a)
    ensures var s, s' := Exec(Empty, run), Exec(Exec(Empty, run), later);
            Fenced(s'.gens, a) && s.gens[a].number <= s'.gens[a].number
  {
    EmptyIsGood();
    RunKept(Empty, run);
    RunMoves(Exec(Empty, run), later);
  }

  /** After a completed erasure, no later state has any row of the attempt. */
  lemma ErasureIsPermanent(run: seq<Action>, later: seq<Action>, a: Attempt)
    requires var s := Exec(Empty, run); a in s.deletions && s.deletions[a].work.state == Completed
    ensures var s' := Exec(Exec(Empty, run), later);
            && Fenced(s'.gens, a) && Clean(s', a)
            && (forall r :: r in s'.normalized ==> r in s'.manifests && s'.manifests[r].attempt != a)
            && (forall i :: i in s'.outbox && s'.outbox[i].event.SegmentAdmitted? ==>
                  s'.outbox[i].event.receipt in s'.manifests
                  && s'.manifests[s'.outbox[i].event.receipt].attempt != a)
  {
    EmptyIsGood();
    RunKept(Empty, run);
    var s := Exec(Empty, run);
    assert Gone(s, a);
    RunKept(s, later);
  }

  /** Admitted ranges of one stream never overlap. */
  lemma AdmittedRangesAreDisjoint(run: seq<Action>, r: nat, q: nat)
    requires var s := Exec(Empty, run); r in s.manifests && q in s.manifests && r != q
    requires var s := Exec(Empty, run); s.manifests[r].range.stream == s.manifests[q].range.stream
    ensures var x, y := Exec(Empty, run).manifests[r].range, Exec(Empty, run).manifests[q].range;
            x.last < y.first || y.last < x.first
  {
    EmptyIsGood();
    RunKept(Empty, run);
    var s := Exec(Empty, run);
    assert !Overlap(s.manifests[r].range, s.manifests[q].range);
  }

  /** Every admitted segment has exactly one admission record in the outbox. */
  lemma OneAdmissionRecordEach(run: seq<Action>, r: nat)
    requires r in Exec(Empty, run).manifests
    ensures var outbox := Exec(Empty, run).outbox;
            exists i :: i in outbox && outbox[i].event == SegmentAdmitted(r)
                        && forall j :: j in outbox && outbox[j].event == SegmentAdmitted(r) ==> j == i
  {
    EmptyIsGood();
    RunKept(Empty, run);
    var outbox := Exec(Empty, run).outbox;
    assert HasAdmission(outbox, r);
    var i :| i in outbox && outbox[i].event == SegmentAdmitted(r);
    forall j | j in outbox && outbox[j].event == SegmentAdmitted(r)
      ensures j == i
    {
      assert SameAdmission(outbox[i].event, outbox[j].event);
    }
  }

  /** Re-admitting an admitted segment of a live attempt returns its receipt and changes nothing. */
  lemma ReplayIsInert(run: seq<Action>, r: nat, u: Segment)
    requires var s := Exec(Empty, run);
             && r in s.manifests && Live(s.gens, u.attempt) && s.gens[u.attempt].number == u.generation
             && s.manifests[r].range == RangeOf(u) && s.manifests[r].content == u.content
    ensures var s := Exec(Empty, run); DecideReserve(s, u) == Replay(r) && Apply(s, ReserveRange(u)) == s
  {
    EmptyIsGood();
    RunKept(Empty, run);
    SameRangeIsUnique(Exec(Empty, run), r, u);
  }

  lemma SameRangeIsUnique(s: State, r: nat, u: Segment)
    requires Ranged(s.manifests) && r in s.manifests && Live(s.gens, u.attempt)
    requires s.gens[u.attempt].number == u.generation
    requires s.manifests[r].range == RangeOf(u) && s.manifests[r].content == u.content
    ensures DecideReserve(s, u) == Replay(r) && Reserve(s, u) == s
  {
    assert SameRange(s.manifests, r, u);
    forall q | SameRange(s.manifests, q, u)
      ensures q == r
    {
      assert Overlap(s.manifests[r].range, s.manifests[q].range);
    }
  }

  /** A record exists exactly for attempts with manifests and is their MIN, MAX, COUNT and SUM. */
  lemma RecordsIndexManifests(run: seq<Action>, a: Attempt)
    ensures var s := Exec(Empty, run);
            && (a in s.records <==> ReceiptsOf(s.manifests, a) != {})
            && (a in s.records ==> Summarizes(s.records[a], s.manifests, a))
  {
    EmptyIsGood();
    RunKept(Empty, run);
    var s := Exec(Empty, run);
    RecordExactly(s.manifests, s.records, s.clock, a);
  }

  lemma RecordExactly(manifests: map<nat, Manifest>, records: map<Attempt, Record>, clock: nat, a: Attempt)
    requires Indexed(manifests, records, clock)
    ensures a in records <==> ReceiptsOf(manifests, a) != {}
    ensures a in records ==> Summarizes(records[a], manifests, a)
  {
    if a in records {
      assert Summarizes(records[a], manifests, a);
      var r :| r in ReceiptsOf(manifests, a) && r in manifests && manifests[r].committedAt == records[a].first;
    } else {
      assert ReceiptsOf(manifests, a) == {};
    }
  }

  // Lease fencing.

  ghost predicate Superseded(s: State, id: nat, t: Ticket) {
    id in s.outbox ==> t.generation < s.outbox[id].work.generation
  }

  lemma SupersededInert(s: State, id: nat, t: Ticket)
    requires Superseded(s, id, t)
    ensures FailOutbox(s, id, t) == s && !Readable(s, id, t)
    ensures forall inputs, grace :: Publish(s, id, t, inputs, grace) == s
  {
  }

  /** A ticket from before the row's current lease generation can no longer change anything. */
  lemma StaleTicketsAreInert(run: seq<Action>, later: seq<Action>, id: nat, t: Ticket)
    requires var s := Exec(Empty, run); id in s.outbox && t.generation < s.outbox[id].work.generation
    ensures var s' := Exec(Exec(Empty, run), later);
            && !Readable(s', id, t) && FailOutbox(s', id, t) == s'
            && (forall inputs, grace :: Publish(s', id, t, inputs, grace) == s')
  {
    EmptyIsGood();
    RunKept(Empty, run);
    RunMoves(Exec(Empty, run), later);
    SupersededInert(Exec(Exec(Empty, run), later), id, t);
  }

  lemma UnmatchedInert(s: State, a: Attempt, t: Ticket, g: nat, gone: set<Key>)
    requires !Matches(FencesOf(s), a, t, g)
    ensures Erase(s, a, t, g) == s && Lost(s, a, t, g, gone) == {}
    ensures FailDeletion(FencesOf(s), a, t, g) == FencesOf(s)
  {
  }

  /** The same for erasure leases: a superseded eraser touches neither rows nor objects. */
  lemma StaleErasersAreInert(run: seq<Action>, later: seq<Action>, a: Attempt, t: Ticket, g: nat, gone: set<Key>)
    requires var s := Exec(Empty, run); a in s.deletions && t.generation < s.deletions[a].work.generation
    ensures var s' := Exec(Exec(Empty, run), later);
            && Erase(s', a, t, g) == s'
            && Lost(s', a, t, g, gone) == {}
            && FailDeletion(FencesOf(s'), a, t, g) == FencesOf(s')
  {
    EmptyIsGood();
    RunKept(Empty, run);
    RunMoves(Exec(Empty, run), later);
    UnmatchedInert(Exec(Exec(Empty, run), later), a, t, g, gone);
  }

  /** In every reachable state a row has an owner exactly while it is being processed. */
  lemma OwnersWhileProcessing(run: seq<Action>)
    ensures var s := Exec(Empty, run);
            && (forall i :: i in s.outbox ==> (s.outbox[i].work.owner.Some? <==> s.outbox[i].work.state == Processing))
            && (forall a :: a in s.deletions ==> (s.deletions[a].work.owner.Some? <==> s.deletions[a].work.state == Processing))
  {
    EmptyIsGood();
    RunKept(Empty, run);
    var s := Exec(Empty, run);
    forall a | a in s.deletions
      ensures Sound(s.deletions[a].work)
    {
      assert CoupledAt(s.holds, s.deletions[a], s.gens, a);
    }
  }

  // Retention holds.

  /** The manifest stays, and so does its object if it was there. */
  ghost predicate Retains(s: State, s': State, r: nat) {
    && r in s.manifests && r in s'.manifests && s'.manifests[r] == s.manifests[r]
    && (s.manifests[r].key in s.store ==> s.manifests[r].key in s'.store)
  }

  lemma CollectRetains(s: State, key: Key, r: nat)
    requires r in s.manifests
    ensures Retains(s, Collect(s, key), r)
  {
    CollectedSpares(s, key, r);
  }

  lemma CollectRolledBackRetains(s: State, key: Key, r: nat)
    requires r in s.manifests
    ensures Retains(s, CollectRolledBack(s, key), r)
  {
    CollectedSpares(s, key, r);
  }

  lemma CollectedSpares(s: State, key: Key, r: nat)
    requires r in s.manifests
    ensures s.manifests[r].key in s.store ==> s.manifests[r].key in Collected(s, key)
  {
    assert s.manifests[r].key == key ==> Referenced(s, key);
  }

  /** Erasing another attempt spares the object of a held one. */
  lemma HeldIsSpared(s: State, a: Attempt, t: Ticket, g: nat, r: nat)
    requires r in s.manifests && HasActiveHold(s.holds, s.manifests[r].attempt)
    requires Coherent(FencesOf(s)) && Matches(FencesOf(s), a, t, g)
    requires SegmentsStored(s.gens, s.manifests, s.store) && ArtifactsStored(s.gens, s.revisions, s.store)
    ensures Current(s.gens, a, g) && !HasActiveHold(s.holds, a)
    ensures s.manifests[r].attempt != a && s.manifests[r].key !in Deletable(s, a)
  {
    LeaseIsCurrent(FencesOf(s), a, t, g);
    DeletableSpares(s, a);
  }

  lemma EraseRetains(s: State, a: Attempt, t: Ticket, g: nat, r: nat)
    requires r in s.manifests && HasActiveHold(s.holds, s.manifests[r].attempt)
    requires Coherent(FencesOf(s))
    requires SegmentsStored(s.gens, s.manifests, s.store) && ArtifactsStored(s.gens, s.revisions, s.store)
    ensures Retains(s, Erase(s, a, t, g), r)
  {
    if Matches(FencesOf(s), a, t, g) {
      HeldIsSpared(s, a, t, g, r);
      assert Erase(s, a, t, g) == Erased(s, a, Deletable(s, a));
    }
  }

  lemma EraseRolledBackRetains(s: State, a: Attempt, t: Ticket, g: nat, gone: set<Key>, r: nat)
    requires r in s.manifests && HasActiveHold(s.holds, s.manifests[r].attempt)
    requires Coherent(FencesOf(s))
    requires SegmentsStored(s.gens, s.manifests, s.store) && ArtifactsStored(s.gens, s.revisions, s.store)
    ensures Retains(s, EraseRolledBack(s, a, t, g, gone), r)
  {
    if Matches(FencesOf(s), a, t, g) {
      HeldIsSpared(s, a, t, g, r);
    }
  }

  /** A step that adds manifests under new numbers and takes no object away. */
  ghost predicate Grows(s: State, s': State) {
    && (forall r :: r in s.manifests && r < s.nextId ==> r in s'.manifests && s'.manifests[r] == s.manifests[r])
    && (forall k :: k in s.store ==> k in s'.store)
  }

  lemma AdvancedGrows(s: State, a: Attempt, g: nat, inputs: set<nat>)
    ensures Advanced(s, a, g, inputs).manifests == s.manifests && Advanced(s, a, g, inputs).store == s.store
  {
    if exists v :: SameInputs(s, v, a, g, inputs) {
    } else {
      assert Advanced(s, a, g, inputs) == Appending(s, a, g, inputs);
    }
  }

  lemma WrittenGrows(s: State, id: nat, w: Work, p: Key, q: Key, grace: nat)
    ensures Grows(s, WithWork(s, id, w)) && Grows(s, WithWork(WithArtifacts(s, p, q, grace), id, w))
  {
  }

  lemma PublishGrows(s: State, id: nat, t: Ticket, inputs: set<nat>, grace: nat)
    ensures Grows(s, Publish(s, id, t, inputs, grace))
  {
    if OwnsOutbox(s, id, t) && s.outbox[id].event.ReportRequested? && inputs != {} {
      var a, g, w := s.outbox[id].event.attempt, s.outbox[id].event.generation, s.outbox[id].work;
      var p, q := ProjectionKeyOf(a, inputs), ReportKeyOf(a, g, inputs);
      if !Live(s.gens, a) || s.gens[a].number != g {
        WrittenGrows(s, id, Settled(w, Suppressed), p, q, grace);
      } else if InputsOf(s.manifests, s.normalized, a, g) != inputs {
        WrittenGrows(s, id, Settled(w, Pending), p, q, grace);
      } else {
        WrittenGrows(s, id, Settled(w, Completed), p, q, grace);
        AdvancedGrows(WithWork(WithArtifacts(s, p, q, grace), id, Settled(w, Completed)), a, g, inputs);
      }
    }
  }

  lemma ReservingGrows(s: State, u: Segment, d: Decision)
    ensures Grows(s, Reserving(s, u, d))
  {
    SameGrows(s, Reserving(s, u, d));
  }

  lemma SameGrows(s: State, s': State)
    requires s'.manifests == s.manifests && s'.store == s.store
    ensures Grows(s, s')
  {
  }

  lemma AdmittingGrows(s: State, u: Segment)
    ensures Grows(s, Admitting(s, u)) && Spending(s, u).manifests == s.manifests && Spending(s, u).store == s.store
  {
  }

  lemma CommittingGrows(s: State, u: Segment, d: Decision)
    ensures Grows(s, Committing(s, u, d))
  {
    AdmittingGrows(s, u);
    AdmittingGrows(Spending(s, u), u);
  }

  lemma RequestActionGrows(s: State, act: Action)
    requires act.Place? || act.Release? || act.Delete? || act.ClaimErasure? || act.FailErasure?
    ensures Grows(s, Apply(s, act))
  {
    var f' := FencesOf(Apply(s, act));
    assert Apply(s, act) == WithFences(s, f');
  }

  lemma NormalizeGrows(s: State, id: nat, t: Ticket, read: Manifest)
    ensures Grows(s, Normalize(s, id, t, read))
  {
    if OwnsOutbox(s, id, t) && s.outbox[id].event.SegmentAdmitted? {
      NormalizeShape(s, id, t, read);
    }
  }

  lemma QueueActionGrows(s: State, act: Action)
    requires act.ClaimRecord? || act.FailRecord? || act.NormalizeSegment?
    ensures Grows(s, Apply(s, act))
  {
    match act {
      case ClaimRecord(_, _, _) =>
      case FailRecord(_, _) =>
      case NormalizeSegment(id, t) =>
        if Readable(s, id, t) {
          NormalizeGrows(s, id, t, s.admitted[s.outbox[id].event.receipt]);
        }
    }
  }

  lemma ImportGrows(s: State, b: Bundle)
    ensures Grows(s, Import(s, b))
  {
  }

  lemma StoreActionGrows(s: State, act: Action)
    requires act.Tick? || act.PutObject? || act.AuditObject? || act.ReserveReport? || act.SweepReservations?
    ensures Grows(s, Apply(s, act))
  {
    if act.SweepReservations? {
      SweepQuiet(s, act.batch, act.ttl, act.grace);
    }
  }

  lemma StepGrows(s: State, act: Action)
    requires !act.CollectObject? && !act.CollectAndRollBack? && !act.EraseAttempt? && !act.EraseAndRollBack?
    ensures Grows(s, Apply(s, act))
  {
    if act.Place? || act.Release? || act.Delete? || act.ClaimErasure? || act.FailErasure? {
      RequestActionGrows(s, act);
    } else if act.ClaimRecord? || act.FailRecord? || act.NormalizeSegment? {
      QueueActionGrows(s, act);
    } else if act.ImportTombstones? {
      ImportGrows(s, act.bundle);
    } else if act.PublishReport? {
      PublishGrows(s, act.id, act.ticket, act.inputs, act.grace);
    } else if act.ReserveRange? {
      ReservingGrows(s, act.segment, DecideReserve(s, act.segment));
    } else if act.CommitSegment? {
      CommittingGrows(s, act.segment, DecideCommit(s, act.segment, act.reservation));
    } else {
      StoreActionGrows(s, act);
    }
  }

  lemma EraseActionRetains(s: State, act: Action, r: nat)
    requires r in s.manifests && HasActiveHold(s.holds, s.manifests[r].attempt)
    requires Coherent(FencesOf(s))
    requires SegmentsStored(s.gens, s.manifests, s.store) && ArtifactsStored(s.gens, s.revisions, s.store)
    requires act.EraseAttempt? || act.EraseAndRollBack?
    ensures Retains(s, Apply(s, act), r)
  {
    match act {
      case EraseAttempt(a, t, g) => EraseRetains(s, a, t, g, r);
      case EraseAndRollBack(a, t, g, gone) => EraseRolledBackRetains(s, a, t, g, gone, r);
    }
  }

  lemma CollectActionRetains(s: State, act: Action, r: nat)
    requires r in s.manifests && (act.CollectObject? || act.CollectAndRollBack?)
    ensures Retains(s, Apply(s, act), r)
  {
    match act {
      case CollectObject(key) => CollectRetains(s, key, r);
      case CollectAndRollBack(key) => CollectRolledBackRetains(s, key, r);
    }
  }

  lemma GrowingRetains(s: State, s': State, r: nat)
    requires Grows(s, s') && r in s.manifests && r < s.nextId
    ensures Retains(s, s', r)
  {
  }

  lemma NumberedBelow(s: State, r: nat)
    requires Remembered(s.gens, s.manifests, s.admitted, s.nextId) && r in s.manifests
    ensures r < s.nextId
  {
  }

  lemma StepRetains(s: State, act: Action, r: nat)
    requires Inv(s) && r in s.manifests && HasActiveHold(s.holds, s.manifests[r].attempt)
    ensures Retains(s, Apply(s, act), r)
  {
    ActionRetains(s, act, r);
  }

  lemma ActionRetains(s: State, act: Action, r: nat)
    requires r in s.manifests && HasActiveHold(s.holds, s.manifests[r].attempt)
    requires Coherent(FencesOf(s)) && Remembered(s.gens, s.manifests, s.admitted, s.nextId)
    requires SegmentsStored(s.gens, s.manifests, s.store) && ArtifactsStored(s.gens, s.revisions, s.store)
    ensures Retains(s, Apply(s, act), r)
  {
    if act.CollectObject? || act.CollectAndRollBack? {
      CollectActionRetains(s, act, r);
    } else if act.EraseAttempt? || act.EraseAndRollBack? {
      EraseActionRetains(s, act, r);
    } else {
      OtherActionRetains(s, act, r);
    }
  }

  lemma OtherActionRetains(s: State, act: Action, r: nat)
    requires !act.CollectObject? && !act.CollectAndRollBack? && !act.EraseAttempt? && !act.EraseAndRollBack?
    requires Remembered(s.gens, s.manifests, s.admitted, s.nextId) && r in s.manifests
    ensures Retains(s, Apply(s, act), r)
  {
    StepGrows(s, act);
    NumberedBelow(s, r);
    GrowingRetains(s, Apply(s, act), r);
  }

  lemma {:induction false} HoldRetains(s: State, later: seq<Action>, h: nat, r: nat)
    requires Inv(s) && h in s.holds && r in s.manifests && s.manifests[r].attempt == s.holds[h].attempt
    requires h in Exec(s, later).holds && Exec(s, later).holds[h].active
    ensures Retains(s, Exec(s, later), r)
    decreases |later|
  {
    RunMoves(s, later);
    assert HasActiveHold(s.holds, s.manifests[r].attempt);
    if later != [] {
      var s' := Apply(s, later[0]);
      StepKept(s, later[0]);
      StepMoves(s, later[0]);
      StepRetains(s, later[0], r);
      HoldRetains(s', later[1..], h, r);
    }
  }

  /** While a hold stays active, what it protects stays: the manifest and the object under it. */
  lemma HoldsProtectEvidence(run: seq<Action>, later: seq<Action>, h: nat, r: nat)
    requires var s := Exec(Empty, run);
             h in s.holds && r in s.manifests && s.manifests[r].attempt == s.holds[h].attempt && s.manifests[r].key in s.store
    requires var s' := Exec(Exec(Empty, run), later); h in s'.holds && s'.holds[h].active
    ensures var s, s' := Exec(Empty, run), Exec(Exec(Empty, run), later);
            && r in s'.manifests && s'.manifests[r] == s.manifests[r]
            && ExistsVerified(s'.store, s.manifests[r].key, s.manifests[r].content)
  {
    EmptyIsGood();
    RunKept(Empty, run);
    RunKept(Exec(Empty, run), later);
    HoldRetains(Exec(Empty, run), later, h, r);
  }
}
