/**
 What every step of the evidence lifecycle keeps. Each predicate speaks of a few tables only, so
 that a step which leaves those tables alone keeps it without further argument.
 */
module Invariants {
  import opened Prelude
  import opened Leases
  import opened Catalog

  type Gens = map<Attempt, Generation>

  /** Generations count deletions: a live attempt is at 0, a fenced one past it. */
  ghost predicate Numbered(gens: Gens) {
    forall a :: a in gens ==> (gens[a].deletedAt.None? <==> gens[a].number == 0)
  }

  /** A request is held exactly while a hold is active; otherwise it is for the current fence. */
  ghost predicate CoupledAt(holds: map<nat, Hold>, d: Deletion, gens: Gens, a: Attempt) {
    && Sound(d.work)
    && (d.work.state == Held <==> HasActiveHold(holds, a))
    && (d.work.state != Held ==> Fenced(gens, a) && gens[a].number == d.generation)
    && (d.completedAt.Some? <==> d.work.state == Completed)
  }

  ghost predicate Coupled(holds: map<nat, Hold>, deletions: map<Attempt, Deletion>, gens: Gens) {
    forall a :: a in deletions ==> CoupledAt(holds, deletions[a], gens, a)
  }

  ghost predicate Ranged(manifests: map<nat, Manifest>) {
    && (forall r :: r in manifests ==> manifests[r].range.first <= manifests[r].range.last)
    && (forall r, q :: r in manifests && q in manifests && r != q ==> !Overlap(manifests[r].range, manifests[q].range))
  }

  ghost predicate Verified(store: map<Key, Content>, candidates: map<Key, Candidate>) {
    && (forall k :: k in store ==> store[k] == k.content)
    && Faithful(candidates)
  }

  ghost predicate Faithful(candidates: map<Key, Candidate>) {
    forall k :: k in candidates ==> candidates[k].content == k.content
  }

  /** Live evidence is in the store, under the keys its digests determine. */
  ghost predicate SegmentsStored(gens: Gens, manifests: map<nat, Manifest>, store: map<Key, Content>) {
    forall r :: r in manifests ==>
      && manifests[r].key == SegmentKey(manifests[r].attempt.tenant, manifests[r].attempt.cluster, manifests[r].content)
      && (Live(gens, manifests[r].attempt) ==> manifests[r].key in store)
  }

  ghost predicate ArtifactsStored(gens: Gens, revisions: map<nat, Revision>, store: map<Key, Content>) {
    forall v :: v in revisions ==>
      && revisions[v].reportKey == ReportKeyOf(revisions[v].attempt, revisions[v].generation, revisions[v].inputs)
      && revisions[v].projectionKey == ProjectionKeyOf(revisions[v].attempt, revisions[v].inputs)
      && (Live(gens, revisions[v].attempt) ==> revisions[v].reportKey in store && revisions[v].projectionKey in store)
  }

  /** Reservation keys are segment keys of their own content. */
  ghost predicate Reservable(reservations: map<Range, Reservation>) {
    forall x :: x in reservations ==>
      reservations[x].key.SegmentKey? && reservations[x].key.content == reservations[x].content
  }

  /** Manifests are never changed, and only leave the table with their attempt. */
  ghost predicate Remembered(gens: Gens, manifests: map<nat, Manifest>, admitted: map<nat, Manifest>, nextId: nat) {
    && (forall r :: r in manifests ==> r in admitted && admitted[r] == manifests[r])
    && (forall r :: r in admitted ==>
          && r < nextId
          && admitted[r].attempt in gens
          && (Live(gens, admitted[r].attempt) ==>
                r in manifests && admitted[r].generation == gens[admitted[r].attempt].number))
  }

  predicate SameAdmission(x: Event, y: Event) {
    x.SegmentAdmitted? && x == y
  }

  ghost predicate HasAdmission(outbox: map<nat, Outbox>, r: nat) {
    exists i :: i in outbox && outbox[i].event == SegmentAdmitted(r)
  }

  /** Every manifest has exactly one admission record, and only manifests are normalized. */
  ghost predicate Queueing(outbox: map<nat, Outbox>, manifests: map<nat, Manifest>, normalized: map<nat, Normalized>, nextId: nat) {
    && (forall i :: i in outbox ==> i < nextId && Sound(outbox[i].work))
    && (forall i :: i in outbox && outbox[i].event.SegmentAdmitted? ==> outbox[i].event.receipt in manifests)
    && (forall i, j :: i in outbox && j in outbox && SameAdmission(outbox[i].event, outbox[j].event) ==> i == j)
    && (forall r {:trigger HasAdmission(outbox, r)} :: r in manifests ==> HasAdmission(outbox, r))
    && (forall r :: r in normalized ==> r in manifests && r < nextId && normalized[r].content == manifests[r].content)
  }

  function RequestIds(outbox: map<nat, Outbox>, a: Attempt): set<nat> {
    set i | i in outbox && outbox[i].event.ReportRequested? && outbox[i].event.attempt == a
  }

  function NormalizedOf(manifests: map<nat, Manifest>, normalized: map<nat, Normalized>, a: Attempt): set<nat> {
    set r | r in normalized && r in manifests && manifests[r].attempt == a
  }

  /** Nobody needs the record any more: its attempt has been fenced. */
  ghost predicate Abandoned(gens: Gens, manifests: map<nat, Manifest>, e: Event) {
    match e
    case SegmentAdmitted(r) => r in manifests ==> !Live(gens, manifests[r].attempt)
    case ReportRequested(a, _) => !Live(gens, a)
  }

  /** A live attempt has as many report requests as normalized segments, and none was suppressed. */
  ghost predicate Requested(gens: Gens, outbox: map<nat, Outbox>, manifests: map<nat, Manifest>, normalized: map<nat, Normalized>) {
    && (forall i :: i in outbox && outbox[i].event.ReportRequested? ==>
          && outbox[i].event.attempt in gens
          && (Live(gens, outbox[i].event.attempt) ==> outbox[i].event.generation == gens[outbox[i].event.attempt].number))
    && (forall i :: i in outbox && outbox[i].work.state == Suppressed ==> Abandoned(gens, manifests, outbox[i].event))
    && (forall a :: Live(gens, a) ==> |RequestIds(outbox, a)| == |NormalizedOf(manifests, normalized, a)|)
  }

  predicate RevisionOf(revisions: map<nat, Revision>, v: nat, a: Attempt) {
    v in revisions && revisions[v].attempt == a
  }

  /** Revisions of one attempt are numbered 1 to n over strictly growing inputs. */
  ghost predicate Chained(revisions: map<nat, Revision>, a: Attempt, n: nat) {
    && (forall v :: RevisionOf(revisions, v, a) ==> 1 <= revisions[v].number <= n)
    && (forall k :: 1 <= k <= n ==> HasNumber(revisions, a, k))
    && (forall v, w :: RevisionOf(revisions, v, a) && RevisionOf(revisions, w, a) ==> Ordered(revisions[v], revisions[w]) || v == w)
  }

  /** Two different revisions differ in number, and the later one has strictly more inputs. */
  predicate Ordered(x: Revision, y: Revision) {
    || (x.number < y.number && x.inputs < y.inputs)
    || (y.number < x.number && y.inputs < x.inputs)
  }

  ghost predicate HasNumber(revisions: map<nat, Revision>, a: Attempt, k: nat) {
    exists v :: RevisionOf(revisions, v, a) && revisions[v].number == k
  }

  /** The head is the last revision, and its inputs are among the normalized segments. */
  ghost predicate Headed(
    gens: Gens, manifests: map<nat, Manifest>, normalized: map<nat, Normalized>,
    revisions: map<nat, Revision>, heads: map<Attempt, Head>, a: Attempt)
  {
    && (forall v :: RevisionOf(revisions, v, a) ==> a in heads && a in gens && revisions[v].generation == gens[a].number)
    && (a in heads ==>
          && a in gens
          && heads[a].generation == gens[a].number
          && heads[a].revision in revisions
          && revisions[heads[a].revision] == Revision(a, heads[a].generation, heads[a].number, heads[a].inputs,
               ReportKeyOf(a, heads[a].generation, heads[a].inputs), ProjectionKeyOf(a, heads[a].inputs))
          && Chained(revisions, a, heads[a].number)
          && heads[a].inputs <= InputsOf(manifests, normalized, a, heads[a].generation))
  }

  ghost predicate Charted(
    gens: Gens, manifests: map<nat, Manifest>, normalized: map<nat, Normalized>,
    revisions: map<nat, Revision>, heads: map<Attempt, Head>, nextId: nat)
  {
    && (forall v :: v in revisions ==> v < nextId && revisions[v].attempt in gens)
    && (forall a :: a in heads ==> a in gens)
    && (forall a :: Live(gens, a) ==> Headed(gens, manifests, normalized, revisions, heads, a))
  }

  /** Queued, under way, or given up after too many tries. */
  predicate Open(w: Work) {
    w.state == Pending || w.state == Processing || w.state == Failed
  }

  /** A report request of the attempt that still has to be served. */
  ghost predicate Outstanding(outbox: map<nat, Outbox>, a: Attempt) {
    exists i :: i in outbox && outbox[i].event.ReportRequested? && outbox[i].event.attempt == a
                && Open(outbox[i].work)
  }

  /** The head covers every normalized segment unless a report request is outstanding. */
  ghost predicate Covered(
    gens: Gens, manifests: map<nat, Manifest>, normalized: map<nat, Normalized>,
    heads: map<Attempt, Head>, outbox: map<nat, Outbox>)
  {
    forall a :: Live(gens, a) ==>
      || InputsOf(manifests, normalized, a, gens[a].number) == {}
      || (a in heads && heads[a].inputs == InputsOf(manifests, normalized, a, gens[a].number))
      || Outstanding(outbox, a)
  }

  /** `first` and `last` are the MIN and the MAX of the commit times of `rows`. */
  ghost predicate Spans(first: nat, last: nat, manifests: map<nat, Manifest>, rows: set<nat>) {
    && (forall r :: r in rows ==> r in manifests && first <= manifests[r].committedAt <= last)
    && CommittedAt(manifests, rows, first)
    && CommittedAt(manifests, rows, last)
  }

  ghost predicate CommittedAt(manifests: map<nat, Manifest>, rows: set<nat>, time: nat) {
    exists r :: r in rows && r in manifests && manifests[r].committedAt == time
  }

  /** MIN, MAX, COUNT and SUM over the attempt's manifests. */
  ghost predicate Summarizes(record: Record, manifests: map<nat, Manifest>, a: Attempt) {
    var rows := ReceiptsOf(manifests, a);
    && Spans(record.first, record.last, manifests, rows)
    && record.segments == |rows|
    && record.records == Total(rows, RecordsIn(manifests))
  }

  ghost function RecordsIn(manifests: map<nat, Manifest>): nat -> nat {
    r => if r in manifests then manifests[r].records else 0
  }

  ghost predicate Indexed(manifests: map<nat, Manifest>, records: map<Attempt, Record>, clock: nat) {
    && (forall r :: r in manifests ==> manifests[r].committedAt <= clock && manifests[r].attempt in records)
    && (forall a {:trigger Summarizes(records[a], manifests, a)} :: a in records ==> Summarizes(records[a], manifests, a))
  }

  predicate SameJob(a: Attempt, x: Record, b: Attempt, y: Record) {
    && a.tenant == b.tenant && a.cluster == b.cluster
    && x.bindings.scheduler.Some? && x.bindings.scheduler == y.bindings.scheduler
  }

  /** No two attempts of one cluster are bound to the same scheduler job. */
  ghost predicate Identified(records: map<Attempt, Record>) {
    forall a, b :: a in records && b in records && a != b ==> !SameJob(a, records[a], b, records[b])
  }

  /** No row of the attempt is left in any table. */
  ghost predicate Clean(s: State, a: Attempt) {
    && (forall r :: r in s.manifests ==> s.manifests[r].attempt != a)
    && (forall x :: x in s.reservations ==> s.reservations[x].attempt != a)
    && (forall i :: i in s.outbox && s.outbox[i].event.ReportRequested? ==> s.outbox[i].event.attempt != a)
    && (forall v :: v in s.revisions ==> s.revisions[v].attempt != a)
    && a !in s.heads
    && a !in s.records
  }

  /** Fenced for good and without rows: what a completed erasure leaves behind. */
  ghost predicate Gone(s: State, a: Attempt) {
    Fenced(s.gens, a) && Clean(s, a)
  }

  ghost predicate Purged(s: State) {
    forall a :: a in s.deletions && s.deletions[a].work.state == Completed ==> Gone(s, a)
  }

  ghost predicate Inv(s: State) {
    && Numbered(s.gens)
    && Coupled(s.holds, s.deletions, s.gens)
    && Ranged(s.manifests)
    && Verified(s.store, s.candidates)
    && SegmentsStored(s.gens, s.manifests, s.store)
    && ArtifactsStored(s.gens, s.revisions, s.store)
    && Reservable(s.reservations)
    && Remembered(s.gens, s.manifests, s.admitted, s.nextId)
    && Queueing(s.outbox, s.manifests, s.normalized, s.nextId)
    && Requested(s.gens, s.outbox, s.manifests, s.normalized)
    && Charted(s.gens, s.manifests, s.normalized, s.revisions, s.heads, s.nextId)
    && Covered(s.gens, s.manifests, s.normalized, s.heads, s.outbox)
    && Indexed(s.manifests, s.records, s.clock)
    && Identified(s.records)
    && Purged(s)
  }

  /** What one step owes: the invariant again, and no row of an erased attempt back. */
  ghost predicate Kept(s: State, s': State) {
    Inv(s') && forall b :: Gone(s, b) ==> Gone(s', b)
  }
}
