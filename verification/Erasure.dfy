/**
 Retention holds, deletion fencing, leased physical erasure and the restore of tombstones.
 */
module Erasure {
  import opened Prelude
  import opened Leases
  import opened Catalog
  import opened Tombstones

  const RetryCap := 5

  /** The tables that holds, deletion requests and tombstone imports read and write. */
  datatype Fences = Fences(
    gens: map<Attempt, Generation>,
    holds: map<nat, Hold>,
    deletions: map<Attempt, Deletion>)

  function FencesOf(s: State): Fences {
    Fences(s.gens, s.holds, s.deletions)
  }

  function WithFences(s: State, f: Fences): State {
    s.(gens := f.gens, holds := f.holds, deletions := f.deletions)
  }

  function Parked(d: Deletion): Deletion {
    d.(work := Settled(d.work, Held), completedAt := None)
  }

  function Requeued(d: Deletion, generation: nat): Deletion {
    d.(
      generation := generation,
      work := Settled(d.work, Pending).(attempts := 0),
      completedAt := None)
  }

  function Fresh(generation: nat, state: WorkState, now: nat): Deletion {
    Deletion(generation, Queued().(state := state), now, None)
  }

  /** Fences an attempt; an attempt that is already fenced keeps its generation. */
  function Fence(gens: map<Attempt, Generation>, a: Attempt, now: nat): map<Attempt, Generation> {
    if a !in gens then gens[a := Generation(1, Some(now))]
    else if gens[a].deletedAt.Some? then gens
    else gens[a := Generation(gens[a].number + 1, Some(now))]
  }

  /** `known` says whether the attempt has telemetry or a generation row. */
  function PlaceHold(f: Fences, known: bool, id: nat, a: Attempt, reason: string): Fences {
    if !known then f
    else if a in f.deletions && f.deletions[a].work.state == Completed then f
    else if id in f.holds then f
    else f.(
      holds := f.holds[id := Hold(a, reason, true)],
      deletions := if a in f.deletions then f.deletions[a := Parked(f.deletions[a])] else f.deletions)
  }

  function ReleaseHold(f: Fences, id: nat, now: nat): Fences {
    if id !in f.holds || !f.holds[id].active then f
    else
      var a := f.holds[id].attempt;
      var holds := f.holds[id := f.holds[id].(active := false)];
      if HasActiveHold(holds, a) || a !in f.deletions || f.deletions[a].work.state != Held then f.(holds := holds)
      else
        var gens := Fence(f.gens, a, now);
        Fences(gens, holds, f.deletions[a := Requeued(f.deletions[a], gens[a].number)])
  }

  function DeleteAttempt(f: Fences, a: Attempt, now: nat): Fences {
    if HasActiveHold(f.holds, a) then
      var gens := if a in f.gens then f.gens else f.gens[a := Generation(0, None)];
      if a !in f.deletions then
        f.(gens := gens, deletions := f.deletions[a := Fresh(gens[a].number, Held, now)])
      else if f.deletions[a].work.state != Completed then
        f.(gens := gens, deletions := f.deletions[a := Parked(f.deletions[a])])
      else f.(gens := gens)
    else
      var gens := Fence(f.gens, a, now);
      if a !in f.deletions then
        f.(gens := gens, deletions := f.deletions[a := Fresh(gens[a].number, Pending, gens[a].deletedAt.value)])
      else if f.deletions[a].generation != gens[a].number then
        f.(
          gens := gens,
          deletions := f.deletions[a := Requeued(f.deletions[a], gens[a].number).(requestedAt := gens[a].deletedAt.value)])
      else f.(gens := gens)
  }

  function WithRequest(f: Fences, a: Attempt, w: Work): Fences
    requires a in f.deletions
  {
    f.(deletions := f.deletions[a := f.deletions[a].(work := w)])
  }

  function ClaimDeletion(f: Fences, a: Attempt, owner: string, now: nat, seconds: nat): Fences {
    if a !in f.deletions || !Claimable(f.deletions[a].work, now) then f
    else WithRequest(f, a, Claimed(f.deletions[a].work, owner, now, seconds))
  }

  /** The lease a worker presents: its ticket and the generation it was asked to erase. */
  predicate Matches(f: Fences, a: Attempt, t: Ticket, generation: nat) {
    a in f.deletions && Owns(f.deletions[a].work, t) && f.deletions[a].generation == generation
  }

  function FailDeletion(f: Fences, a: Attempt, t: Ticket, generation: nat): Fences {
    if !Matches(f, a, t, generation) then f
    else WithRequest(f, a, Retried(f.deletions[a].work, RetryCap))
  }

  /** The fence that physical erasure relies on. */
  predicate Current(gens: map<Attempt, Generation>, a: Attempt, generation: nat) {
    Fenced(gens, a) && gens[a].number == generation
  }

  predicate SharedKey(s: State, a: Attempt, key: Key) {
    || (exists r :: r in s.manifests && s.manifests[r].key == key && s.manifests[r].attempt != a)
    || (exists x :: x in s.reservations && s.reservations[x].key == key && s.reservations[x].attempt != a
                    && s.reservations[x].state != Expired)
  }

  /** The objects erasing the attempt removes: its own segments and every report artifact. */
  function Deletable(s: State, a: Attempt): set<Key> {
    (set r | r in s.manifests && s.manifests[r].attempt == a && !SharedKey(s, a, s.manifests[r].key)
       :: s.manifests[r].key)
    + (set v | v in s.revisions && s.revisions[v].attempt == a :: s.revisions[v].reportKey)
    + (set v | v in s.revisions && s.revisions[v].attempt == a :: s.revisions[v].projectionKey)
  }

  predicate Concerns(manifests: map<nat, Manifest>, e: Event, a: Attempt) {
    match e
    case SegmentAdmitted(r) => r in manifests && manifests[r].attempt == a
    case ReportRequested(b, _) => b == a
  }

  function Concluded(d: Deletion, now: nat): Deletion {
    d.(work := Settled(d.work, Completed), completedAt := Some(now))
  }

  function OutboxWithout(outbox: map<nat, Outbox>, manifests: map<nat, Manifest>, a: Attempt): map<nat, Outbox> {
    map i | i in outbox && !Concerns(manifests, outbox[i].event, a) :: outbox[i]
  }

  function RevisionsWithout(revisions: map<nat, Revision>, a: Attempt): map<nat, Revision> {
    map v | v in revisions && revisions[v].attempt != a :: revisions[v]
  }

  function ReservationsWithout(reservations: map<Range, Reservation>, a: Attempt): map<Range, Reservation> {
    map x | x in reservations && reservations[x].attempt != a :: reservations[x]
  }

  /** Removes every row of the attempt and marks its request completed. */
  function Erased(s: State, a: Attempt, gone: set<Key>): State
    requires a in s.deletions
  {
    s.(
      outbox := OutboxWithout(s.outbox, s.manifests, a),
      normalized := s.normalized - ReceiptsOf(s.manifests, a),
      revisions := RevisionsWithout(s.revisions, a),
      heads := s.heads - {a},
      manifests := s.manifests - ReceiptsOf(s.manifests, a),
      reservations := ReservationsWithout(s.reservations, a),
      records := s.records - {a},
      candidates := s.candidates - gone,
      store := s.store - gone,
      deletions := s.deletions[a := Concluded(s.deletions[a], s.clock)])
  }

  ghost function Erase(s: State, a: Attempt, t: Ticket, generation: nat): State {
    if !Matches(FencesOf(s), a, t, generation) then s
    else if HasActiveHold(s.holds, a) then
      WithFences(s, WithRequest(FencesOf(s), a, Settled(s.deletions[a].work, Held)))
    else if !Current(s.gens, a, generation) then s
    else Erased(s, a, Deletable(s, a))
  }

  /** The objects an erasure may have removed before its transaction rolled back. */
  ghost function Lost(s: State, a: Attempt, t: Ticket, generation: nat, gone: set<Key>): set<Key> {
    if Matches(FencesOf(s), a, t, generation) && !HasActiveHold(s.holds, a) && Current(s.gens, a, generation)
    then gone * Deletable(s, a)
    else {}
  }

  ghost function EraseRolledBack(s: State, a: Attempt, t: Ticket, generation: nat, gone: set<Key>): State {
    s.(store := s.store - Lost(s, a, t, generation, gone))
  }

  // Restore of completed deletions into a catalog brought back from a backup.

  /** A tombstone that a newer live generation contradicts makes the whole import fail. */
  predicate Contradicted(f: Fences, t: Tombstone) {
    t.attempt in f.gens && f.gens[t.attempt].number > t.generation && f.gens[t.attempt].deletedAt.None?
  }

  /** A tombstone older than the fence already in place is counted as stale and skipped. */
  predicate Stale(f: Fences, t: Tombstone) {
    t.attempt in f.gens && f.gens[t.attempt].number > t.generation && f.gens[t.attempt].deletedAt.Some?
  }

  function ReleasedFor(holds: map<nat, Hold>, a: Attempt): map<nat, Hold> {
    map h | h in holds :: if holds[h].attempt == a then holds[h].(active := false) else holds[h]
  }

  function Reinstated(f: Fences, t: Tombstone): Fences {
    var a := t.attempt;
    Fences(
      f.gens[a := Generation(t.generation, Some(t.completedAt))],
      ReleasedFor(f.holds, a),
      f.deletions[a :=
        if a in f.deletions then
          var d := f.deletions[a];
          Deletion(t.generation, Work(Pending, 0, None, d.work.generation + 1, None), t.requestedAt, None)
        else Fresh(t.generation, Pending, t.requestedAt)])
  }

  function ApplyEntry(f: Fences, t: Tombstone): Option<Fences> {
    if Contradicted(f, t) then None
    else if Stale(f, t) then Some(f)
    else Some(Reinstated(f, t))
  }

  function ApplyEntries(f: Fences, entries: seq<Tombstone>): Option<Fences>
    decreases |entries|
  {
    if entries == [] then Some(f) else
    var next := ApplyEntry(f, entries[0]);
    if next.None? then None else ApplyEntries(next.value, entries[1..])
  }

  /** A bundle is applied if it is valid, new, and contradicted by no live attempt. */
  predicate Importable(s: State, b: Bundle) {
    Acceptable(b) && b !in s.imports && ApplyEntries(FencesOf(s), b.entries).Some?
  }

  function Imported(s: State, b: Bundle): Fences {
    if Importable(s, b) then ApplyEntries(FencesOf(s), b.entries).value else FencesOf(s)
  }

  function ImportsWith(s: State, b: Bundle): set<Bundle> {
    if Importable(s, b) then s.imports + {b} else s.imports
  }

  /** A refused bundle changes nothing; one already imported is acknowledged without change. */
  function Import(s: State, b: Bundle): State {
    WithFences(s, Imported(s, b)).(imports := ImportsWith(s, b))
  }
}
