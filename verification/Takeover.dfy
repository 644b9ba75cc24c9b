/**
 Who may take work from whom: over every run, a row that is being processed passes to another worker
 only after the clock has passed the end of its lease.
 */
module Takeover {
  import opened Prelude
  import opened Leases
  import opened Catalog
  import opened Admission
  import opened Erasure
  import opened Collection
  import opened Reporting
  import opened Invariants
  import opened ReportingProofs
  import opened Lifecycle
  import opened Progress
  import Restore

  /** The row is being processed before and after, but under another lease. */
  predicate TakenOver(w: Work, w': Work) {
    w.state == Processing && w'.state == Processing && (w'.owner != w.owner || w'.generation != w.generation)
  }

  predicate RunOut(w: Work, now: nat) {
    w.expires.Some? && w.expires.value < now
  }

  ghost predicate QueuePatient(outbox: map<nat, Outbox>, outbox': map<nat, Outbox>, now: nat) {
    forall i :: i in outbox && i in outbox' && TakenOver(outbox[i].work, outbox'[i].work) ==> RunOut(outbox[i].work, now)
  }

  ghost predicate RequestsPatient(deletions: map<Attempt, Deletion>, deletions': map<Attempt, Deletion>, now: nat) {
    forall a :: a in deletions && a in deletions' && TakenOver(deletions[a].work, deletions'[a].work) ==>
      RunOut(deletions[a].work, now)
  }

  // Records of the outbox.

  lemma ClaimPatient(s: State, id: nat, owner: string, seconds: nat)
    ensures QueuePatient(s.outbox, ClaimOutbox(s, id, owner, seconds).outbox, s.clock)
  {
  }

  lemma FailPatient(s: State, id: nat, t: Ticket)
    ensures QueuePatient(s.outbox, FailOutbox(s, id, t).outbox, s.clock)
  {
  }

  lemma SettledPatient(s: State, id: nat, state: WorkState)
    requires id in s.outbox && state != Processing
    ensures QueuePatient(s.outbox, WithWork(s, id, Settled(s.outbox[id].work, state)).outbox, s.clock)
  {
  }

  lemma NormalizePatient(s: State, id: nat, t: Ticket, read: Manifest)
    requires forall i :: i in s.outbox ==> i < s.nextId
    ensures QueuePatient(s.outbox, Normalize(s, id, t, read).outbox, s.clock)
  {
    if OwnsOutbox(s, id, t) && s.outbox[id].event.SegmentAdmitted? {
      NormalizeShape(s, id, t, read);
      SettledPatient(s, id, Completed);
      SettledPatient(s, id, Suppressed);
    }
  }

  lemma AdvancedQueue(s: State, a: Attempt, g: nat, inputs: set<nat>)
    ensures Advanced(s, a, g, inputs).outbox == s.outbox
  {
    if exists v :: SameInputs(s, v, a, g, inputs) {
    } else {
      assert Advanced(s, a, g, inputs) == Appending(s, a, g, inputs);
    }
  }

  lemma PublishedQueue(s: State, id: nat, a: Attempt, g: nat, inputs: set<nat>, grace: nat)
    requires id in s.outbox
    ensures Published(s, id, a, g, inputs, grace).outbox == Reworked(s.outbox, id, Settled(s.outbox[id].work, Completed))
  {
    var p, q := ProjectionKeyOf(a, inputs), ReportKeyOf(a, g, inputs);
    AdvancedQueue(WithWork(WithArtifacts(s, p, q, grace), id, Settled(s.outbox[id].work, Completed)), a, g, inputs);
  }

  lemma PublishPatient(s: State, id: nat, t: Ticket, inputs: set<nat>, grace: nat)
    ensures QueuePatient(s.outbox, Publish(s, id, t, inputs, grace).outbox, s.clock)
  {
    if OwnsOutbox(s, id, t) && s.outbox[id].event.ReportRequested? && inputs != {} {
      var a, g := s.outbox[id].event.attempt, s.outbox[id].event.generation;
      if !Live(s.gens, a) || s.gens[a].number != g {
        SettledPatient(s, id, Suppressed);
      } else if InputsOf(s.manifests, s.normalized, a, g) != inputs {
        SettledPatient(s, id, Pending);
      } else {
        SettledPatient(s, id, Completed);
        PublishedQueue(s, id, a, g, inputs, grace);
      }
    }
  }

  lemma NormalizeActionPatient(s: State, id: nat, t: Ticket)
    requires forall i :: i in s.outbox ==> i < s.nextId
    ensures QueuePatient(s.outbox, Apply(s, NormalizeSegment(id, t)).outbox, s.clock)
  {
    if Readable(s, id, t) {
      NormalizePatient(s, id, t, s.admitted[s.outbox[id].event.receipt]);
    }
  }

  lemma LeaseActionPatient(s: State, act: Action)
    requires act.ClaimRecord? || act.FailRecord?
    ensures QueuePatient(s.outbox, Apply(s, act).outbox, s.clock)
  {
    match act {
      case ClaimRecord(id, owner, seconds) => ClaimPatient(s, id, owner, seconds);
      case FailRecord(id, t) => FailPatient(s, id, t);
    }
  }

  lemma WorkActionPatient(s: State, act: Action)
    requires forall i :: i in s.outbox ==> i < s.nextId
    requires act.ClaimRecord? || act.FailRecord? || act.NormalizeSegment? || act.PublishReport?
    ensures QueuePatient(s.outbox, Apply(s, act).outbox, s.clock)
  {
    if act.NormalizeSegment? {
      NormalizeActionPatient(s, act.id, act.ticket);
    } else if act.PublishReport? {
      PublishPatient(s, act.id, act.ticket, act.inputs, act.grace);
    } else {
      LeaseActionPatient(s, act);
    }
  }

  lemma CommitPatient(s: State, u: Segment, d: Decision)
    requires forall i :: i in s.outbox ==> i < s.nextId
    ensures QueuePatient(s.outbox, Committing(s, u, d).outbox, s.clock)
  {
  }

  lemma ErasePatient(s: State, a: Attempt, t: Ticket, g: nat)
    ensures QueuePatient(s.outbox, Erase(s, a, t, g).outbox, s.clock)
    ensures RequestsPatient(s.deletions, Erase(s, a, t, g).deletions, s.clock)
  {
    if Matches(FencesOf(s), a, t, g) {
      ErasedPatient(s, a, Deletable(s, a));
    }
  }

  lemma ErasedPatient(s: State, a: Attempt, gone: set<Key>)
    requires a in s.deletions
    ensures QueuePatient(s.outbox, Erased(s, a, gone).outbox, s.clock)
    ensures RequestsPatient(s.deletions, Erased(s, a, gone).deletions, s.clock)
  {
  }

  lemma RequestActionQueue(s: State, act: Action)
    requires act.Place? || act.Release? || act.Delete? || act.ClaimErasure? || act.FailErasure? || act.ImportTombstones?
    ensures Apply(s, act).outbox == s.outbox
  {
  }

  lemma StoreActionQueue(s: State, act: Action)
    requires act.Tick? || act.PutObject? || act.CollectObject? || act.CollectAndRollBack? || act.AuditObject? || act.ReserveReport?
    ensures Apply(s, act).outbox == s.outbox
  {
  }

  lemma StepQueuePatient(s: State, act: Action)
    requires forall i :: i in s.outbox ==> i < s.nextId
    ensures QueuePatient(s.outbox, Apply(s, act).outbox, s.clock)
  {
    if act.ClaimRecord? || act.FailRecord? || act.NormalizeSegment? || act.PublishReport? {
      WorkActionPatient(s, act);
    } else if act.CommitSegment? {
      CommitPatient(s, act.segment, DecideCommit(s, act.segment, act.reservation));
    } else if act.EraseAttempt? {
      ErasePatient(s, act.attempt, act.ticket, act.generation);
    } else if act.SweepReservations? {
      SweepQuiet(s, act.batch, act.ttl, act.grace);
    } else if act.Place? || act.Release? || act.Delete? || act.ClaimErasure? || act.FailErasure? || act.ImportTombstones? {
      RequestActionQueue(s, act);
    } else if !act.ReserveRange? && !act.EraseAndRollBack? {
      StoreActionQueue(s, act);
    }
  }

  // Deletion requests.

  // Holds and deletions hand no request to a worker.

  lemma PlacePatient(f: Fences, known: bool, h: nat, a: Attempt, reason: string, now: nat)
    ensures RequestsPatient(f.deletions, PlaceHold(f, known, h, a, reason).deletions, now)
  {
  }

  lemma ReleasePatient(f: Fences, h: nat, now: nat)
    ensures RequestsPatient(f.deletions, ReleaseHold(f, h, now).deletions, now)
  {
  }

  lemma DeletePatient(f: Fences, a: Attempt, now: nat)
    ensures RequestsPatient(f.deletions, DeleteAttempt(f, a, now).deletions, now)
  {
  }

  lemma HoldActionPatient(s: State, act: Action)
    requires act.Place? || act.Release? || act.Delete?
    ensures RequestsPatient(s.deletions, Apply(s, act).deletions, s.clock)
  {
    var f := FencesOf(s);
    match act {
      case Place(h, a, reason) =>
        PlacePatient(f, a in s.records || a in s.gens, h, a, reason, s.clock);
        assert Apply(s, act).deletions == PlaceHold(f, a in s.records || a in s.gens, h, a, reason).deletions;
      case Release(h) =>
        ReleasePatient(f, h, s.clock);
        assert Apply(s, act).deletions == ReleaseHold(f, h, s.clock).deletions;
      case Delete(a) =>
        DeletePatient(f, a, s.clock);
        assert Apply(s, act).deletions == DeleteAttempt(f, a, s.clock).deletions;
    }
  }

  lemma ErasureLeasePatient(s: State, act: Action)
    requires act.ClaimErasure? || act.FailErasure?
    ensures RequestsPatient(s.deletions, Apply(s, act).deletions, s.clock)
  {
  }

  /** A restored request is taken from its worker, but handed to nobody. */
  lemma {:induction false} EntriesPatient(f: Fences, entries: seq<Tombstone>)
    requires ApplyEntries(f, entries).Some?
    ensures var f' := ApplyEntries(f, entries).value;
            forall a :: a in f.deletions && a in f'.deletions && f'.deletions[a].work.state == Processing ==>
              f'.deletions[a] == f.deletions[a]
    decreases |entries|
  {
    if entries != [] {
      EntriesPatient(ApplyEntry(f, entries[0]).value, entries[1..]);
    }
  }

  lemma ImportPatient(s: State, b: Bundle)
    ensures RequestsPatient(s.deletions, Import(s, b).deletions, s.clock)
  {
    if Importable(s, b) {
      EntriesPatient(FencesOf(s), b.entries);
    }
  }

  lemma StepRequestsPatient(s: State, act: Action)
    ensures RequestsPatient(s.deletions, Apply(s, act).deletions, s.clock)
  {
    if act.EraseAttempt? {
      ErasePatient(s, act.attempt, act.ticket, act.generation);
    } else if act.ImportTombstones? {
      ImportPatient(s, act.bundle);
    } else if act.Place? || act.Release? || act.Delete? {
      HoldActionPatient(s, act);
    } else if act.ClaimErasure? || act.FailErasure? {
      ErasureLeasePatient(s, act);
    } else {
      Restore.QuietStep(s, act);
    }
  }

  /** Over every run: no step hands a row that is being processed to another lease before its own has run out. */
  lemma LeasesAreRespected(run: seq<Action>, act: Action)
    ensures var s, s' := Exec(Empty, run), Exec(Empty, run + [act]);
            && (forall i :: i in s.outbox && i in s'.outbox && TakenOver(s.outbox[i].work, s'.outbox[i].work) ==>
                  RunOut(s.outbox[i].work, s.clock))
            && (forall a :: a in s.deletions && a in s'.deletions && TakenOver(s.deletions[a].work, s'.deletions[a].work) ==>
                  RunOut(s.deletions[a].work, s.clock))
  {
    EmptyIsGood();
    RunKept(Empty, run);
    ExecAppend(Empty, run, act);
    StepQueuePatient(Exec(Empty, run), act);
    StepRequestsPatient(Exec(Empty, run), act);
  }
}
