/**
 The evidence lifecycle as one transition system. Every transaction, every object write and every
 partial failure is an action; a run is any sequence of actions, so it covers all interleavings of
 uploads, workers, sweepers, operators, crashes and lease expiries.
 */
module Lifecycle {
  import opened Leases
  import opened Catalog
  import opened Admission
  import opened Erasure
  import opened Collection
  import opened Reporting
  import opened Invariants
  import opened ErasureProofs
  import opened AdmissionProofs
  import opened CollectionProofs
  import opened ReportingProofs

  datatype Action =
    | Tick(seconds: nat)
    | ReserveRange(segment: Segment)
    | PutObject(key: Key)
    | CommitSegment(segment: Segment, reservation: nat)
    | Place(hold: nat, attempt: Attempt, reason: string)
    | Release(hold: nat)
    | Delete(attempt: Attempt)
    | ClaimErasure(attempt: Attempt, owner: string, seconds: nat)
    | EraseAttempt(attempt: Attempt, ticket: Ticket, generation: nat)
    | EraseAndRollBack(attempt: Attempt, ticket: Ticket, generation: nat, gone: set<Key>)
    | FailErasure(attempt: Attempt, ticket: Ticket, generation: nat)
    | ImportTombstones(bundle: Bundle)
    | SweepReservations(batch: seq<Range>, ttl: nat, grace: nat)
    | CollectObject(key: Key)
    | CollectAndRollBack(key: Key)
    | AuditObject(key: Key, grace: nat, interval: nat)
    | ClaimRecord(id: nat, owner: string, seconds: nat)
    | FailRecord(id: nat, ticket: Ticket)
    | NormalizeSegment(id: nat, ticket: Ticket)
    | ReserveReport(projection: Key, report: Key, grace: nat)
    | PublishReport(id: nat, ticket: Ticket, inputs: set<nat>, grace: nat)

  /** The worker's first session found the manifest of this record. */
  predicate Readable(s: State, id: nat, t: Ticket) {
    OwnsOutbox(s, id, t) && s.outbox[id].event.SegmentAdmitted? && s.outbox[id].event.receipt in s.admitted
  }

  function Ticked(s: State, seconds: nat): State {
    s.(clock := s.clock + seconds)
  }

  ghost function Apply(s: State, act: Action): State {
    match act
    case Tick(d) => Ticked(s, d)
    case ReserveRange(u) => Reserve(s, u)
    case PutObject(key) => Put(s, key)
    case CommitSegment(u, r) => Commit(s, u, r)
    case Place(h, a, reason) => WithFences(s, PlaceHold(FencesOf(s), a in s.records || a in s.gens, h, a, reason))
    case Release(h) => WithFences(s, ReleaseHold(FencesOf(s), h, s.clock))
    case Delete(a) => WithFences(s, DeleteAttempt(FencesOf(s), a, s.clock))
    case ClaimErasure(a, owner, d) => WithFences(s, ClaimDeletion(FencesOf(s), a, owner, s.clock, d))
    case EraseAttempt(a, t, g) => Erase(s, a, t, g)
    case EraseAndRollBack(a, t, g, gone) => EraseRolledBack(s, a, t, g, gone)
    case FailErasure(a, t, g) => WithFences(s, FailDeletion(FencesOf(s), a, t, g))
    case ImportTombstones(b) => Import(s, b)
    case SweepReservations(batch, ttl, grace) => Sweep(s, batch, ttl, grace)
    case CollectObject(key) => Collect(s, key)
    case CollectAndRollBack(key) => CollectRolledBack(s, key)
    case AuditObject(key, grace, interval) => Audit(s, key, grace, interval)
    case ClaimRecord(id, owner, d) => ClaimOutbox(s, id, owner, d)
    case FailRecord(id, t) => FailOutbox(s, id, t)
    case NormalizeSegment(id, t) =>
      if Readable(s, id, t) then Normalize(s, id, t, s.admitted[s.outbox[id].event.receipt]) else s
    case ReserveReport(p, q, grace) => ReserveArtifacts(s, p, q, grace)
    case PublishReport(id, t, inputs, grace) => Publish(s, id, t, inputs, grace)
  }

  ghost function Exec(s: State, run: seq<Action>): State
    decreases |run|
  {
    if run == [] then s else Exec(Apply(s, run[0]), run[1..])
  }

  lemma FencesKept(s: State, f': Fences)
    requires Inv(s) && Orderly(FencesOf(s), f')
    ensures Kept(s, WithFences(s, f'))
  {
    OrderlyKeeps(s, f');
    OrderlyPurged(s, f');
  }

  lemma TickPurged(s: State, d: nat)
    requires Purged(s)
    ensures Purged(Ticked(s, d)) && forall b :: Gone(s, b) ==> Gone(Ticked(s, d), b)
  {
    var s' := Ticked(s, d);
    forall a | a in s'.deletions && s'.deletions[a].work.state == Completed
      ensures Gone(s', a)
    {
      assert Gone(s, a);
    }
  }

  lemma IndexedLater(manifests: map<nat, Manifest>, records: map<Attempt, Record>, clock: nat, clock': nat)
    requires Indexed(manifests, records, clock) && clock <= clock'
    ensures Indexed(manifests, records, clock')
  {
  }

  lemma TickKept(s: State, d: nat)
    requires Inv(s)
    ensures Kept(s, Ticked(s, d))
  {
    IndexedLater(s.manifests, s.records, s.clock, Ticked(s, d).clock);
    TickPurged(s, d);
  }

  /** A matching lease always finds the attempt fenced at the generation it is to erase, and unheld. */
  lemma LeaseIsCurrent(f: Fences, a: Attempt, t: Ticket, g: nat)
    requires Coherent(f) && Matches(f, a, t, g)
    ensures Current(f.gens, a, g) && !HasActiveHold(f.holds, a)
  {
    assert CoupledAt(f.holds, f.deletions[a], f.gens, a);
  }

  lemma EraseKept(s: State, a: Attempt, t: Ticket, g: nat)
    requires Inv(s)
    ensures Kept(s, Erase(s, a, t, g))
  {
    if Matches(FencesOf(s), a, t, g) {
      LeaseIsCurrent(FencesOf(s), a, t, g);
      ErasedKeeps(s, a);
      ErasedPurges(s, a, Deletable(s, a));
    }
  }

  lemma EraseRolledBackKept(s: State, a: Attempt, t: Ticket, g: nat, gone: set<Key>)
    requires Inv(s)
    ensures Kept(s, EraseRolledBack(s, a, t, g, gone))
  {
    var lost := Lost(s, a, t, g, gone);
    RolledBackKeeps(s, a, lost);
    StoreOnlyPurged(s, s.store - lost, s.candidates);
  }

  lemma RequestActionKept(s: State, act: Action)
    requires Inv(s)
    requires act.Place? || act.Release? || act.Delete?
    ensures Kept(s, Apply(s, act))
  {
    var f := FencesOf(s);
    match act {
      case Place(h, a, reason) =>
        PlaceHoldOrderly(f, a in s.records || a in s.gens, h, a, reason);
        FencesKept(s, PlaceHold(f, a in s.records || a in s.gens, h, a, reason));
      case Release(h) =>
        ReleaseHoldOrderly(f, h, s.clock);
        FencesKept(s, ReleaseHold(f, h, s.clock));
      case Delete(a) =>
        DeleteAttemptOrderly(f, a, s.clock);
        FencesKept(s, DeleteAttempt(f, a, s.clock));
    }
  }

  lemma LeaseActionKept(s: State, act: Action)
    requires Inv(s)
    requires act.ClaimErasure? || act.FailErasure?
    ensures Kept(s, Apply(s, act))
  {
    var f := FencesOf(s);
    match act {
      case ClaimErasure(a, owner, d) =>
        ClaimDeletionOrderly(f, a, owner, s.clock, d);
        FencesKept(s, ClaimDeletion(f, a, owner, s.clock, d));
      case FailErasure(a, t, g) =>
        FailDeletionOrderly(f, a, t, g);
        FencesKept(s, FailDeletion(f, a, t, g));
    }
  }

  lemma CollectActionKept(s: State, act: Action)
    requires Inv(s)
    requires act.CollectObject? || act.CollectAndRollBack?
    ensures Kept(s, Apply(s, act))
  {
    match act {
      case CollectObject(key) => CollectStep(s, key);
      case CollectAndRollBack(key) => CollectStep(s, key);
    }
    StoreStepKeeps(s, Apply(s, act));
  }

  lemma CandidateActionKept(s: State, act: Action)
    requires Inv(s)
    requires act.AuditObject? || act.ReserveReport?
    ensures Kept(s, Apply(s, act))
  {
    match act {
      case AuditObject(key, grace, interval) => AuditStep(s, key, grace, interval);
      case ReserveReport(p, q, grace) => ReserveArtifactsStep(s, p, q, grace);
    }
    StoreStepKeeps(s, Apply(s, act));
  }

  lemma PlainActionKept(s: State, act: Action)
    requires Inv(s)
    requires act.Tick? || act.PutObject?
    ensures Kept(s, Apply(s, act))
  {
    match act {
      case Tick(d) => TickKept(s, d);
      case PutObject(key) => PutKeeps(s, key);
    }
  }

  lemma ReserveActionKept(s: State, act: Action)
    requires Inv(s) && act.ReserveRange?
    ensures Kept(s, Apply(s, act))
  {
    ReserveKeeps(s, act.segment);
  }

  lemma CommitActionKept(s: State, act: Action)
    requires Inv(s) && act.CommitSegment?
    ensures Kept(s, Apply(s, act))
  {
    CommitKeeps(s, act.segment, act.reservation);
  }

  lemma ErasureActionKept(s: State, act: Action)
    requires Inv(s)
    requires act.EraseAttempt? || act.EraseAndRollBack? || act.ImportTombstones? || act.SweepReservations?
    ensures Kept(s, Apply(s, act))
  {
    match act {
      case EraseAttempt(a, t, g) => EraseKept(s, a, t, g);
      case EraseAndRollBack(a, t, g, gone) => EraseRolledBackKept(s, a, t, g, gone);
      case ImportTombstones(b) => ImportKeeps(s, b);
      case SweepReservations(batch, ttl, grace) => SweepKeeps(s, batch, ttl, grace);
    }
  }

  lemma QueueActionKept(s: State, act: Action)
    requires Inv(s)
    requires act.ClaimRecord? || act.FailRecord?
    ensures Kept(s, Apply(s, act))
  {
    match act {
      case ClaimRecord(id, owner, d) => ClaimOutboxKeeps(s, id, owner, d);
      case FailRecord(id, t) => FailOutboxKeeps(s, id, t);
    }
  }

  lemma PublishActionKept(s: State, act: Action)
    requires Inv(s)
    requires act.NormalizeSegment? || act.PublishReport?
    ensures Kept(s, Apply(s, act))
  {
    match act {
      case NormalizeSegment(id, t) =>
        if Readable(s, id, t) {
          NormalizeKeeps(s, id, t, s.admitted[s.outbox[id].event.receipt]);
        }
      case PublishReport(id, t, inputs, grace) => PublishKeeps(s, id, t, inputs, grace);
    }
  }

  /** Every action keeps the invariant, and none brings rows of an erased attempt back. */
  lemma StepKept(s: State, act: Action)
    requires Inv(s)
    ensures Kept(s, Apply(s, act))
  {
    if act.Tick? || act.PutObject? {
      PlainActionKept(s, act);
    } else if act.ReserveRange? {
      ReserveActionKept(s, act);
    } else if act.CommitSegment? {
      CommitActionKept(s, act);
    } else if act.Place? || act.Release? || act.Delete? {
      RequestActionKept(s, act);
    } else if act.ClaimErasure? || act.FailErasure? {
      LeaseActionKept(s, act);
    } else if act.EraseAttempt? || act.EraseAndRollBack? || act.ImportTombstones? || act.SweepReservations? {
      ErasureActionKept(s, act);
    } else if act.CollectObject? || act.CollectAndRollBack? {
      CollectActionKept(s, act);
    } else if act.AuditObject? || act.ReserveReport? {
      CandidateActionKept(s, act);
    } else if act.ClaimRecord? || act.FailRecord? {
      QueueActionKept(s, act);
    } else {
      PublishActionKept(s, act);
    }
  }

  lemma {:induction false} RunKept(s: State, run: seq<Action>)
    requires Inv(s)
    ensures Kept(s, Exec(s, run))
    decreases |run|
  {
    if run != [] {
      StepKept(s, run[0]);
      RunKept(Apply(s, run[0]), run[1..]);
    }
  }

  lemma EmptyIsGood()
    ensures Inv(Empty)
  {
    forall a
      ensures RequestIds(Empty.outbox, a) == {} && NormalizedOf(Empty.manifests, Empty.normalized, a) == {}
    {
    }
  }

  lemma {:induction false} ExecAppend(s: State, run: seq<Action>, act: Action)
    ensures Exec(s, run + [act]) == Apply(Exec(s, run), act)
    decreases |run|
  {
    if run == [] {
      assert run + [act] == [act];
    } else {
      assert (run + [act])[0] == run[0] && (run + [act])[1..] == run[1..] + [act];
      ExecAppend(Apply(s, run[0]), run[1..], act);
    }
  }
}
