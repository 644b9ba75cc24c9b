/**
 Two-phase admission. The first transaction reserves a sequence range, the payload is written to
 the object store outside any transaction, and the second transaction commits the manifest.
 A rejected transaction rolls back, so it leaves the state as it found it.
 */
module Admission {
  import opened Prelude
  import opened Leases
  import opened Catalog

  /** What a transaction of the admission protocol decides before it writes anything. */
  datatype Decision =
    | Reject(reason: string)
    | Replay(receipt: nat)
    | Reuse(reservation: nat)
    | Accept

  /** The first contact with an attempt creates its generation row. */
  function WithGeneration(gens: map<Attempt, Generation>, a: Attempt): map<Attempt, Generation> {
    if a in gens then gens else gens[a := Generation(0, None)]
  }

  predicate SameRange(manifests: map<nat, Manifest>, r: nat, u: Upload) {
    r in manifests && manifests[r].range == RangeOf(u)
  }

  predicate Overlapped(manifests: map<nat, Manifest>, u: Upload) {
    exists r :: r in manifests && Overlap(manifests[r].range, RangeOf(u))
  }

  ghost function DecideReserve(s: State, u: Segment): Decision {
    var generation := WithGeneration(s.gens, u.attempt)[u.attempt];
    var range := RangeOf(u);
    if generation.deletedAt.Some? then Reject("attempt_deleted")
    else if generation.number != u.generation then Reject("stale_deletion_generation")
    else if exists r :: SameRange(s.manifests, r, u) then
      var r :| SameRange(s.manifests, r, u);
      if s.manifests[r].content != u.content then Reject("range_digest_conflict") else Replay(r)
    else if Overlapped(s.manifests, u) then Reject("sequence_overlap")
    else if range in s.reservations && s.reservations[range].state == Committed then Reject("catalog_inconsistent")
    else if range in s.reservations && s.reservations[range].state == Reserved then
      if s.reservations[range].content != u.content then Reject("reservation_digest_conflict")
      else Reuse(s.reservations[range].id)
    else Accept
  }

  function ReservationOf(s: State, u: Segment): Reservation {
    Reservation(s.nextId, u.attempt, u.content, KeyOf(u), u.generation, Reserved, s.clock)
  }

  function ReservedRanges(s: State, u: Segment, d: Decision): map<Range, Reservation> {
    if d.Accept? then s.reservations[RangeOf(u) := ReservationOf(s, u)] else s.reservations
  }

  /** An accepted reservation takes a new identity, also where it replaces an expired one. */
  function Reserving(s: State, u: Segment, d: Decision): State {
    s.(
      gens := if d.Reject? then s.gens else WithGeneration(s.gens, u.attempt),
      reservations := ReservedRanges(s, u, d),
      nextId := if d.Accept? then s.nextId + 1 else s.nextId)
  }

  ghost function Reserve(s: State, u: Segment): State {
    Reserving(s, u, DecideReserve(s, u))
  }

  /** The object write between the two transactions; it may land at any time, or after a rollback. */
  function Put(s: State, key: Key): State {
    s.(store := PutVerified(s.store, key, key.content))
  }

  function Merged(known: Option<string>, supplied: Option<string>): Option<string> {
    if known.None? then supplied else known
  }

  predicate Agrees(known: Option<string>, supplied: Option<string>) {
    known.Some? && supplied.Some? ==> known == supplied
  }

  /** Whether another attempt of the cluster already holds this scheduler identity. */
  predicate IdentityTaken(records: map<Attempt, Record>, a: Attempt, scheduler: Option<string>) {
    scheduler.Some? && exists b ::
      && b in records && b != a && b.tenant == a.tenant && b.cluster == a.cluster
      && records[b].bindings.scheduler == scheduler
  }

  predicate CanRecord(records: map<Attempt, Record>, u: Upload) {
    if u.attempt !in records then !IdentityTaken(records, u.attempt, u.bindings.scheduler)
    else
      var known := records[u.attempt].bindings;
      && Agrees(known.workflow, u.bindings.workflow)
      && Agrees(known.logicalCase, u.bindings.logicalCase)
      && Agrees(known.scheduler, u.bindings.scheduler)
      && !IdentityTaken(records, u.attempt, Merged(known.scheduler, u.bindings.scheduler))
  }

  /** The incremental index over an attempt's manifests, kept by every admission. */
  function Recorded(records: map<Attempt, Record>, u: Upload, now: nat): Record {
    if u.attempt !in records then Record(u.bindings, now, now, 1, u.records)
    else
      var known := records[u.attempt];
      Record(
        Bindings(
          Merged(known.bindings.workflow, u.bindings.workflow),
          Merged(known.bindings.logicalCase, u.bindings.logicalCase),
          Merged(known.bindings.scheduler, u.bindings.scheduler)),
        known.first, now, known.segments + 1, known.records + u.records)
  }

  function ManifestOf(s: State, u: Segment): Manifest {
    Manifest(u.attempt, RangeOf(u), u.records, u.content, KeyOf(u), u.generation, s.clock)
  }

  ghost function DecideCommit(s: State, u: Segment, reservation: nat): Decision {
    var generation := WithGeneration(s.gens, u.attempt)[u.attempt];
    var range := RangeOf(u);
    if generation.deletedAt.Some? then Reject("attempt_deleted")
    else if range !in s.reservations || s.reservations[range].id != reservation
            || s.reservations[range].state != Reserved then Reject("reservation_expired")
    else if generation.number != s.reservations[range].generation || generation.number != u.generation then
      Reject("deletion_fenced_admission")
    else if !ExistsVerified(s.store, KeyOf(u), u.content) then Reject("object_missing")
    else if exists r :: SameRange(s.manifests, r, u) && s.manifests[r].content == u.content then
      var r :| SameRange(s.manifests, r, u) && s.manifests[r].content == u.content;
      Replay(r)
    else if Overlapped(s.manifests, u) then Reject("sequence_overlap")
    else if !CanRecord(s.records, u) then Reject("attempt_identity_conflict")
    else Accept
  }

  /** The reservation is spent, whether the range is new or was admitted meanwhile. */
  function Spending(s: State, u: Segment): State {
    var range := RangeOf(u);
    s.(
      gens := WithGeneration(s.gens, u.attempt),
      reservations :=
        if range in s.reservations then s.reservations[range := s.reservations[range].(state := Committed)]
        else s.reservations)
  }

  function WithManifest(s: State, u: Segment): map<nat, Manifest> {
    s.manifests[s.nextId := ManifestOf(s, u)]
  }

  function WithAdmission(s: State): map<nat, Outbox> {
    s.outbox[s.nextId + 1 := Outbox(SegmentAdmitted(s.nextId), Queued())]
  }

  /** The manifest, its outbox record and the attempt's index entry appear together. */
  function Admitting(s: State, u: Segment): State {
    s.(
      manifests := WithManifest(s, u),
      admitted := s.admitted[s.nextId := ManifestOf(s, u)],
      records := s.records[u.attempt := Recorded(s.records, u, s.clock)],
      outbox := WithAdmission(s),
      nextId := s.nextId + 2)
  }

  function Committing(s: State, u: Segment, d: Decision): State {
    match d
    case Reject(_) => s
    case Replay(_) => Spending(s, u)
    case Reuse(_) => s
    case Accept => Admitting(Spending(s, u), u)
  }

  ghost function Commit(s: State, u: Segment, reservation: nat): State {
    Committing(s, u, DecideCommit(s, u, reservation))
  }
}
