/**
 Relations between the states before and after a step: fences only go up, released holds stay
 released, identifiers are not reused, lease generations only grow, and heads only move forward.
 */
module Progress {
  import opened Leases
  import opened Catalog
  import opened Admission
  import opened Erasure
  import opened Collection
  import opened Reporting
  import opened Invariants
  import opened GenerationProofs
  import opened ErasureProofs
  import opened ReportingProofs
  import opened Lifecycle

  ghost predicate HoldsMove(holds: map<nat, Hold>, holds': map<nat, Hold>) {
    forall h :: h in holds ==>
      h in holds' && holds'[h].attempt == holds[h].attempt && (holds'[h].active ==> holds[h].active)
  }

  ghost predicate RequestsMove(deletions: map<Attempt, Deletion>, deletions': map<Attempt, Deletion>) {
    forall a :: a in deletions ==> a in deletions' && deletions[a].work.generation <= deletions'[a].work.generation
  }

  ghost predicate QueueMoves(outbox: map<nat, Outbox>, outbox': map<nat, Outbox>, nextId: nat) {
    forall i :: i in outbox' ==>
      if i in outbox then
        outbox'[i].event == outbox[i].event && outbox[i].work.generation <= outbox'[i].work.generation
      else nextId <= i
  }

  /** The head of a live attempt never goes back and never loses an input. */
  ghost predicate HeadsMove(gens': Gens, heads: map<Attempt, Head>, heads': map<Attempt, Head>) {
    forall a :: a in heads && Live(gens', a) ==>
      a in heads' && heads[a].number <= heads'[a].number && heads[a].inputs <= heads'[a].inputs
  }

  ghost predicate Moves(s: State, s': State) {
    && Advances(s.gens, s'.gens)
    && HoldsMove(s.holds, s'.holds)
    && RequestsMove(s.deletions, s'.deletions)
    && QueueMoves(s.outbox, s'.outbox, s.nextId)
    && HeadsMove(s'.gens, s.heads, s'.heads)
    && s.nextId <= s'.nextId
  }

  lemma FencesMove(s: State, f': Fences)
    requires Advances(s.gens, f'.gens) && HoldsMove(s.holds, f'.holds) && RequestsMove(s.deletions, f'.deletions)
    ensures Moves(s, WithFences(s, f'))
  {
  }

  lemma {:induction false} EntriesMove(f: Fences, entries: seq<Tombstone>)
    requires ApplyEntries(f, entries).Some?
    ensures HoldsMove(f.holds, ApplyEntries(f, entries).value.holds)
    ensures RequestsMove(f.deletions, ApplyEntries(f, entries).value.deletions)
    decreases |entries|
  {
    if entries != [] {
      EntriesMove(ApplyEntry(f, entries[0]).value, entries[1..]);
    }
  }

  ghost predicate FencesMoveOn(f: Fences, f': Fences) {
    HoldsMove(f.holds, f'.holds) && RequestsMove(f.deletions, f'.deletions)
  }

  lemma PlaceMovesOn(f: Fences, known: bool, h: nat, a: Attempt, reason: string)
    ensures FencesMoveOn(f, PlaceHold(f, known, h, a, reason))
  {
  }

  lemma ReleaseMovesOn(f: Fences, h: nat, now: nat)
    ensures FencesMoveOn(f, ReleaseHold(f, h, now))
  {
  }

  lemma DeleteMovesOn(f: Fences, a: Attempt, now: nat)
    ensures FencesMoveOn(f, DeleteAttempt(f, a, now))
  {
  }

  lemma ClaimMovesOn(f: Fences, a: Attempt, owner: string, now: nat, d: nat)
    ensures FencesMoveOn(f, ClaimDeletion(f, a, owner, now, d))
  {
  }

  lemma FailMovesOn(f: Fences, a: Attempt, t: Ticket, g: nat)
    ensures FencesMoveOn(f, FailDeletion(f, a, t, g))
  {
  }

  lemma HoldActionMoves(s: State, act: Action)
    requires Coherent(FencesOf(s)) && (act.Place? || act.Release? || act.Delete?)
    ensures Moves(s, Apply(s, act))
  {
    var f := FencesOf(s);
    match act {
      case Place(h, a, reason) =>
        var known := a in s.records || a in s.gens;
        PlaceHoldOrderly(f, known, h, a, reason);
        PlaceMovesOn(f, known, h, a, reason);
        FencesMove(s, PlaceHold(f, known, h, a, reason));
      case Release(h) =>
        ReleaseHoldOrderly(f, h, s.clock);
        ReleaseMovesOn(f, h, s.clock);
        FencesMove(s, ReleaseHold(f, h, s.clock));
      case Delete(a) =>
        DeleteAttemptOrderly(f, a, s.clock);
        DeleteMovesOn(f, a, s.clock);
        FencesMove(s, DeleteAttempt(f, a, s.clock));
    }
  }

  lemma LeaseActionMoves(s: State, act: Action)
    requires Coherent(FencesOf(s)) && (act.ClaimErasure? || act.FailErasure?)
    ensures Moves(s, Apply(s, act))
  {
    var f := FencesOf(s);
    match act {
      case ClaimErasure(a, owner, d) =>
        ClaimDeletionOrderly(f, a, owner, s.clock, d);
        ClaimMovesOn(f, a, owner, s.clock, d);
        FencesMove(s, ClaimDeletion(f, a, owner, s.clock, d));
      case FailErasure(a, t, g) =>
        FailDeletionOrderly(f, a, t, g);
        FailMovesOn(f, a, t, g);
        FencesMove(s, FailDeletion(f, a, t, g));
    }
  }

  lemma ImportMoves(s: State, b: Bundle)
    requires Inv(s)
    ensures Moves(s, Import(s, b))
  {
    if Importable(s, b) {
      ApplyEntriesOrderly(FencesOf(s), b.entries);
      EntriesMove(FencesOf(s), b.entries);
      FencesMove(s, ApplyEntries(FencesOf(s), b.entries).value);
    }
  }

  lemma ErasedMoves(s: State, a: Attempt, gone: set<Key>)
    requires a in s.deletions && Fenced(s.gens, a)
    ensures Moves(s, Erased(s, a, gone))
  {
  }

  lemma EraseMoves(s: State, a: Attempt, t: Ticket, g: nat)
    requires Inv(s)
    ensures Moves(s, Erase(s, a, t, g))
  {
    if Matches(FencesOf(s), a, t, g) {
      LeaseIsCurrent(FencesOf(s), a, t, g);
      ErasedMoves(s, a, Deletable(s, a));
    }
  }

  /** Steps that leave fences, holds, requests, the outbox and the heads alone. */
  lemma QuietMoves(s: State, s': State)
    requires s'.gens == s.gens && s'.holds == s.holds && s'.deletions == s.deletions
    requires s'.outbox == s.outbox && s'.heads == s.heads && s.nextId <= s'.nextId
    ensures Moves(s, s')
  {
  }

  lemma {:induction false} SweepQuiet(s: State, batch: seq<Range>, ttl: nat, grace: nat)
    ensures var s' := Sweep(s, batch, ttl, grace);
            s' == s.(reservations := s'.reservations, candidates := s'.candidates)
    decreases |batch|
  {
    if batch != [] {
      SweepQuiet(ExpireOne(s, batch[0], ttl, grace), batch[1..], ttl, grace);
    }
  }

  lemma WorkMoves(s: State, id: nat, w: Work)
    requires id in s.outbox && s.outbox[id].work.generation <= w.generation
    ensures Moves(s, WithWork(s, id, w))
  {
  }

  lemma ReservingMoves(s: State, u: Segment, d: Decision)
    ensures Moves(s, Reserving(s, u, d))
  {
    KnownMoves(s, u.attempt);
    if d.Accept? {
      QuietMoves(s.(gens := WithGeneration(s.gens, u.attempt)), Reserving(s, u, d));
    }
  }

  /** The first contact with an attempt moves nothing but the set of known attempts. */
  lemma KnownMoves(s: State, a: Attempt)
    ensures Moves(s, s.(gens := WithGeneration(s.gens, a)))
  {
  }

  lemma SpendingMoves(s: State, u: Segment)
    ensures Moves(s, Spending(s, u))
  {
    KnownMoves(s, u.attempt);
    QuietMoves(s.(gens := WithGeneration(s.gens, u.attempt)), Spending(s, u));
  }

  lemma AdmittingMoves(s: State, u: Segment)
    requires forall i :: i in s.outbox ==> i < s.nextId
    ensures QueueMoves(s.outbox, Admitting(s, u).outbox, s.nextId)
  {
  }

  lemma CommittingMoves(s: State, u: Segment, d: Decision)
    requires Queueing(s.outbox, s.manifests, s.normalized, s.nextId)
    ensures Moves(s, Committing(s, u, d))
  {
    match d {
      case Reject(_) => QuietMoves(s, s);
      case Replay(_) => SpendingMoves(s, u);
      case Reuse(_) => QuietMoves(s, s);
      case Accept =>
        SpendingMoves(s, u);
        AdmittingMoves(Spending(s, u), u);
    }
  }

  lemma NormalizeMoves(s: State, id: nat, t: Ticket, read: Manifest)
    requires Queueing(s.outbox, s.manifests, s.normalized, s.nextId)
    requires OwnsOutbox(s, id, t) && s.outbox[id].event.SegmentAdmitted?
    ensures Moves(s, Normalize(s, id, t, read))
  {
    NormalizeShape(s, id, t, read);
    var live := Live(s.gens, read.attempt) && s.gens[read.attempt].number == read.generation;
    var w := Settled(s.outbox[id].work, if live then Completed else Suppressed);
    WorkMoves(s, id, w);
    if live && s.outbox[id].event.receipt !in s.normalized {
      NormalizingMoves(s, id, w, s.outbox[id].event.receipt, read);
    } else if live && Clashes(s.normalized, s.outbox[id].event.receipt, read) {
      QuietMoves(s, s);
    }
  }

  lemma NormalizingMoves(s: State, id: nat, w: Work, receipt: nat, read: Manifest)
    requires forall i :: i in s.outbox ==> i < s.nextId
    requires id in s.outbox && s.outbox[id].work.generation <= w.generation
    ensures Moves(s, Normalizing(WithWork(s, id, w), receipt, read))
  {
  }

  lemma PublishingMoves(s: State, id: nat, w: Work, a: Attempt, g: nat, inputs: set<nat>)
    requires id in s.outbox && s.outbox[id].work.generation <= w.generation
    requires Live(s.gens, a) && Headed(s.gens, s.manifests, s.normalized, s.revisions, s.heads, a)
    requires g == s.gens[a].number && inputs == InputsOf(s.manifests, s.normalized, a, g)
    ensures Moves(s, Publishing(s, id, w, a, g, inputs))
  {
    if a in s.heads && s.heads[a].inputs == inputs {
      WorkMoves(s, id, w);
    } else {
      AppendingMoves(s, id, w, a, g, inputs);
    }
  }

  lemma AppendingMoves(s: State, id: nat, w: Work, a: Attempt, g: nat, inputs: set<nat>)
    requires id in s.outbox && s.outbox[id].work.generation <= w.generation
    requires a in s.heads ==> s.heads[a].generation == g && s.heads[a].inputs <= inputs
    ensures Moves(s, WithWork(Appending(s, a, g, inputs), id, w))
  {
  }

  lemma PublishMoves(s: State, id: nat, t: Ticket, inputs: set<nat>, grace: nat)
    requires Inv(s)
    ensures Moves(s, Publish(s, id, t, inputs, grace))
  {
    if OwnsOutbox(s, id, t) && s.outbox[id].event.ReportRequested? && inputs != {} {
      var a, g, w := s.outbox[id].event.attempt, s.outbox[id].event.generation, s.outbox[id].work;
      if !Live(s.gens, a) || s.gens[a].number != g {
        WorkMoves(s, id, Settled(w, Suppressed));
      } else if InputsOf(s.manifests, s.normalized, a, g) != inputs {
        WorkMoves(s, id, Settled(w, Pending));
      } else {
        PublishCurrentMoves(s, id, t, inputs, grace, a, g);
      }
    }
  }

  lemma PublishCurrentMoves(s: State, id: nat, t: Ticket, inputs: set<nat>, grace: nat, a: Attempt, g: nat)
    requires Verified(s.store, s.candidates)
    requires Charted(s.gens, s.manifests, s.normalized, s.revisions, s.heads, s.nextId)
    requires OwnsOutbox(s, id, t) && s.outbox[id].event == ReportRequested(a, g) && inputs != {}
    requires Live(s.gens, a) && s.gens[a].number == g && InputsOf(s.manifests, s.normalized, a, g) == inputs
    ensures Moves(s, Publish(s, id, t, inputs, grace))
  {
    NoOlderRevision(s, a, g, inputs);
    PublishShape(s, id, t, inputs, grace, a, g);
    assert Headed(s.gens, s.manifests, s.normalized, s.revisions, s.heads, a);
    FiledMoves(s, id, a, g, inputs, grace);
  }

  lemma FiledMoves(s: State, id: nat, a: Attempt, g: nat, inputs: set<nat>, grace: nat)
    requires id in s.outbox && Live(s.gens, a) && Headed(s.gens, s.manifests, s.normalized, s.revisions, s.heads, a)
    requires g == s.gens[a].number && inputs == InputsOf(s.manifests, s.normalized, a, g)
    ensures var s1 := WithArtifacts(s, ProjectionKeyOf(a, inputs), ReportKeyOf(a, g, inputs), grace);
            Moves(s, Publishing(s1, id, Settled(s.outbox[id].work, Completed), a, g, inputs))
  {
    var s1 := WithArtifacts(s, ProjectionKeyOf(a, inputs), ReportKeyOf(a, g, inputs), grace);
    assert s1 == s.(store := s1.store, candidates := s1.candidates);
    PublishingMoves(s1, id, Settled(s.outbox[id].work, Completed), a, g, inputs);
  }

  lemma CollectMoves(s: State, key: Key)
    ensures Moves(s, Collect(s, key))
    ensures Moves(s, CollectRolledBack(s, key))
  {
    QuietMoves(s, Collect(s, key));
    QuietMoves(s, CollectRolledBack(s, key));
  }

  lemma StoreActionMoves(s: State, act: Action)
    requires act.Tick? || act.PutObject? || act.CollectObject? || act.CollectAndRollBack?
    ensures Moves(s, Apply(s, act))
  {
    match act {
      case Tick(d) => QuietMoves(s, Ticked(s, d));
      case PutObject(key) => QuietMoves(s, Put(s, key));
      case CollectObject(key) => CollectMoves(s, key);
      case CollectAndRollBack(key) => CollectMoves(s, key);
    }
  }

  lemma SideActionMoves(s: State, act: Action)
    requires act.EraseAndRollBack? || act.SweepReservations? || act.AuditObject? || act.ReserveReport?
    ensures Moves(s, Apply(s, act))
  {
    if act.SweepReservations? {
      SweepQuiet(s, act.batch, act.ttl, act.grace);
    }
    QuietMoves(s, Apply(s, act));
  }

  lemma AdmissionActionMoves(s: State, act: Action)
    requires Queueing(s.outbox, s.manifests, s.normalized, s.nextId)
    requires act.ReserveRange? || act.CommitSegment?
    ensures Moves(s, Apply(s, act))
  {
    match act {
      case ReserveRange(u) => ReservingMoves(s, u, DecideReserve(s, u));
      case CommitSegment(u, r) => CommittingMoves(s, u, DecideCommit(s, u, r));
    }
  }

  lemma ClaimMoves(s: State, id: nat, owner: string, seconds: nat)
    ensures Moves(s, ClaimOutbox(s, id, owner, seconds))
  {
    if id in s.outbox && Claimable(s.outbox[id].work, s.clock) {
      var w := Claimed(s.outbox[id].work, owner, s.clock, seconds);
      WorkMoves(s, id, w);
      assert ClaimOutbox(s, id, owner, seconds) == WithWork(s, id, w);
    } else {
      assert ClaimOutbox(s, id, owner, seconds) == s;
    }
  }

  lemma FailMoves(s: State, id: nat, t: Ticket)
    ensures Moves(s, FailOutbox(s, id, t))
  {
    if id in s.outbox && HoldsLease(s.outbox[id].work, t) {
      var w := Retried(s.outbox[id].work, Reporting.RetryCap);
      WorkMoves(s, id, w);
      assert FailOutbox(s, id, t) == WithWork(s, id, w);
    } else {
      assert FailOutbox(s, id, t) == s;
    }
  }

  lemma QueueActionMoves(s: State, act: Action)
    requires act.ClaimRecord? || act.FailRecord?
    ensures Moves(s, Apply(s, act))
  {
    match act {
      case ClaimRecord(id, owner, d) => ClaimMoves(s, id, owner, d);
      case FailRecord(id, t) => FailMoves(s, id, t);
    }
  }

  lemma NormalizeActionMoves(s: State, act: Action)
    requires Queueing(s.outbox, s.manifests, s.normalized, s.nextId) && act.NormalizeSegment?
    ensures Moves(s, Apply(s, act))
  {
    if Readable(s, act.id, act.ticket) {
      NormalizeMoves(s, act.id, act.ticket, s.admitted[s.outbox[act.id].event.receipt]);
    }
  }

  lemma StepMoves(s: State, act: Action)
    requires Inv(s)
    ensures Moves(s, Apply(s, act))
  {
    if act.Place? || act.Release? || act.Delete? {
      HoldActionMoves(s, act);
    } else if act.ClaimErasure? || act.FailErasure? {
      LeaseActionMoves(s, act);
    } else if act.ImportTombstones? {
      ImportMoves(s, act.bundle);
    } else if act.EraseAttempt? {
      EraseMoves(s, act.attempt, act.ticket, act.generation);
    } else if act.PublishReport? {
      PublishMoves(s, act.id, act.ticket, act.inputs, act.grace);
    } else if act.ReserveRange? || act.CommitSegment? {
      AdmissionActionMoves(s, act);
    } else if act.ClaimRecord? || act.FailRecord? {
      QueueActionMoves(s, act);
    } else if act.NormalizeSegment? {
      NormalizeActionMoves(s, act);
    } else if act.Tick? || act.PutObject? || act.CollectObject? || act.CollectAndRollBack? {
      StoreActionMoves(s, act);
    } else {
      SideActionMoves(s, act);
    }
  }

  lemma MovesCompose(s: State, s': State, s'': State)
    requires Moves(s, s') && Moves(s', s'')
    requires forall i :: i in s.outbox ==> i < s.nextId
    requires forall a :: a in s.heads ==> a in s.gens
    ensures Moves(s, s'')
  {
    AdvancesCompose(s.gens, s'.gens, s''.gens);
    forall a | a in s.heads && Live(s''.gens, a)
      ensures a in s''.heads && s.heads[a].number <= s''.heads[a].number && s.heads[a].inputs <= s''.heads[a].inputs
    {
      assert a in s'.gens ==> Live(s'.gens, a);
    }
  }

  lemma {:induction false} RunMoves(s: State, run: seq<Action>)
    requires Inv(s)
    ensures Moves(s, Exec(s, run))
    decreases |run|
  {
    if run != [] {
      var s' := Apply(s, run[0]);
      StepKept(s, run[0]);
      StepMoves(s, run[0]);
      RunMoves(s', run[1..]);
      MovesCompose(s, s', Exec(s', run[1..]));
    }
  }
}
