/**
 The service as it runs: one object whose fields are the catalog tables and the object store, and
 whose methods are the transactions. Each method is proved to compute the next state that the
 specification of its transaction gives, including what a rolled-back transaction leaves behind.
 */
module Service {
  import opened Prelude
  import opened Leases
  import opened Catalog
  import opened Tombstones
  import opened Admission
  import opened Erasure
  import opened Collection
  import opened Reporting
  import opened Invariants

  lemma SameRangeOnce(manifests: map<nat, Manifest>, u: Segment, r: nat, q: nat)
    requires Ranged(manifests) && SameRange(manifests, r, u) && SameRange(manifests, q, u)
    ensures r == q
  {
    assert Overlap(manifests[r].range, manifests[q].range);
  }

  /** Every table of the attempt's rows is cut down as erasing it demands. */
  ghost predicate RowsGone(s: State, s': State, a: Attempt, gone: set<Key>) {
    && s'.outbox == OutboxWithout(s.outbox, s.manifests, a)
    && s'.normalized == s.normalized - ReceiptsOf(s.manifests, a)
    && s'.manifests == s.manifests - ReceiptsOf(s.manifests, a)
    && s'.revisions == RevisionsWithout(s.revisions, a) && s'.heads == s.heads - {a}
    && s'.reservations == ReservationsWithout(s.reservations, a) && s'.records == s.records - {a}
    && s'.candidates == s.candidates - gone
  }

  lemma ErasedByParts(s: State, s': State, a: Attempt, gone: set<Key>)
    requires a in s.deletions && RowsGone(s, s', a, gone)
    requires s'.deletions == s.deletions[a := Concluded(s.deletions[a], s.clock)]
    requires s' == s.(
      outbox := s'.outbox, normalized := s'.normalized, manifests := s'.manifests, revisions := s'.revisions,
      heads := s'.heads, reservations := s'.reservations, records := s'.records, candidates := s'.candidates,
      deletions := s'.deletions)
    ensures s' == Erased(s, a, gone).(store := s.store)
  {
  }

  /** Making both rows usable and then protecting them is the same as shielding each. */
  lemma ShieldedByParts(candidates: map<Key, Candidate>, p: Key, q: Key, notBefore: nat, now: nat)
    ensures var c := WithCandidate(WithCandidate(candidates, p, notBefore), q, notBefore);
            var d := c[p := c[p].(state := Protected, completedAt := Some(now))];
            d[q := d[q].(state := Protected, completedAt := Some(now))] == Shielded(candidates, p, q, notBefore, now)
  {
    var c := WithCandidate(candidates, p, notBefore);
    assert p != q ==> WithCandidate(c, q, notBefore)[q] == WithCandidate(candidates, q, notBefore)[q];
    assert p != q ==> WithCandidate(c, q, notBefore)[p] == c[p];
  }

  predicate AlikeRevisions(x: Revision, y: Revision) {
    x.attempt == y.attempt && x.generation == y.generation && x.inputs == y.inputs
  }

  /** A live attempt has one revision per input set, as the catalog's unique constraint demands. */
  ghost predicate SameInputsOnce(revisions: map<nat, Revision>, gens: Gens) {
    forall v, w :: v in revisions && w in revisions && Live(gens, revisions[v].attempt) && v != w ==>
      !AlikeRevisions(revisions[v], revisions[w])
  }

  /** Some object does not have the content its digest promises. */
  predicate Corrupted(store: map<Key, Content>, keys: set<Key>) {
    exists k :: k in keys && k in store && store[k] != k.content
  }

  /** A record of the kind a worker serves, which it may claim now. */
  predicate Waits(o: Outbox, admissions: bool, now: nat) {
    o.event.SegmentAdmitted? == admissions && Claimable(o.work, now)
  }

  /** How a leased erasure ends; `Outdated` and `RolledBack` are then reported as failures. */
  datatype Outcome = Skipped | Blocked | Outdated | RolledBack | Finished

  /** Applies the entries in order to a working copy of the tables, until one is contradicted. */
  method Restore(f: Fences, entries: seq<Tombstone>) returns (r: Option<Fences>)
    ensures r == ApplyEntries(f, entries)
  {
    var g, i := f, 0;
    while i < |entries|
      invariant 0 <= i <= |entries|
      invariant ApplyEntries(g, entries[i..]) == ApplyEntries(f, entries)
    {
      var t := entries[i];
      assert entries[i..][0] == t && entries[i..][1..] == entries[i + 1..];
      if t.attempt in g.gens && g.gens[t.attempt].number > t.generation {
        if g.gens[t.attempt].deletedAt.None? {
          return None;
        }
      } else {
        g := Reinstated(g, t);
      }
      i := i + 1;
    }
    return Some(g);
  }

  class EvidenceService {
    var gens: map<Attempt, Generation>
    var holds: map<nat, Hold>
    var deletions: map<Attempt, Deletion>
    var reservations: map<Range, Reservation>
    var manifests: map<nat, Manifest>
    var outbox: map<nat, Outbox>
    var normalized: map<nat, Normalized>
    var revisions: map<nat, Revision>
    var heads: map<Attempt, Head>
    var records: map<Attempt, Record>
    var candidates: map<Key, Candidate>
    var imports: set<Bundle>
    var store: map<Key, Content>
    var admitted: map<nat, Manifest>
    var nextId: nat
    var clock: nat

    function View(): State
      reads this
    {
      State(gens, holds, deletions, reservations, manifests, outbox, normalized, revisions, heads, records,
            candidates, imports, store, admitted, nextId, clock)
    }

    constructor ()
      ensures View() == Empty
    {
      gens, holds, deletions, reservations, manifests := map[], map[], map[], map[], map[];
      outbox, normalized, revisions, heads, records := map[], map[], map[], map[], map[];
      candidates, imports, store, admitted, nextId, clock := map[], {}, map[], map[], 0, 0;
    }

    method Wait(seconds: nat)
      modifies this`clock
      ensures clock == old(clock) + seconds
    {
      clock := clock + seconds;
    }

    /** The checks of the first admission transaction, in the order in which they can fail. */
    method CheckReserve(u: Segment) returns (d: Decision)
      requires Ranged(manifests)
      ensures d == DecideReserve(View(), u)
    {
      var generation := if u.attempt in gens then gens[u.attempt] else Generation(0, None);
      var range := RangeOf(u);
      if generation.deletedAt.Some? {
        return Reject("attempt_deleted");
      }
      if generation.number != u.generation {
        return Reject("stale_deletion_generation");
      }
      if r :| r in manifests && SameRange(manifests, r, u) {
        forall q | SameRange(manifests, q, u) ensures q == r { SameRangeOnce(manifests, u, q, r); }
        return if manifests[r].content != u.content then Reject("range_digest_conflict") else Replay(r);
      }
      if Overlapped(manifests, u) {
        return Reject("sequence_overlap");
      }
      if range in reservations && reservations[range].state == Committed {
        return Reject("catalog_inconsistent");
      }
      if range in reservations && reservations[range].state == Reserved {
        return if reservations[range].content != u.content then Reject("reservation_digest_conflict")
          else Reuse(reservations[range].id);
      }
      return Accept;
    }

    /** The first transaction of an admission. */
    method Reserve(u: Segment) returns (d: Decision)
      requires Ranged(manifests)
      modifies this`gens, this`reservations, this`nextId
      ensures d == DecideReserve(old(View()), u) && View() == Reserving(old(View()), u, d)
    {
      d := CheckReserve(u);
      if d.Reject? {
        return;
      }
      if u.attempt !in gens {
        gens := gens[u.attempt := Generation(0, None)];
      }
      if d.Accept? {
        reservations := reservations[RangeOf(u) :=
          Reservation(nextId, u.attempt, u.content, KeyOf(u), u.generation, Reserved, clock)];
        nextId := nextId + 1;
      }
    }

    /** Writes an object; content that differs from what the key already holds is refused. */
    method Write(key: Key) returns (ok: bool)
      modifies this`store
      ensures ok == CanPut(old(store), key, key.content)
      ensures View() == Put(old(View()), key)
    {
      ok := key !in store || store[key] == key.content;
      if ok {
        store := store[key := key.content];
      }
    }

    /** The checks of the second admission transaction. */
    method CheckCommit(u: Segment, reservation: nat) returns (d: Decision)
      requires Ranged(manifests)
      ensures d == DecideCommit(View(), u, reservation)
    {
      var generation := if u.attempt in gens then gens[u.attempt] else Generation(0, None);
      var range := RangeOf(u);
      if generation.deletedAt.Some? {
        return Reject("attempt_deleted");
      }
      if range !in reservations || reservations[range].id != reservation || reservations[range].state != Reserved {
        return Reject("reservation_expired");
      }
      if generation.number != reservations[range].generation || generation.number != u.generation {
        return Reject("deletion_fenced_admission");
      }
      if !ExistsVerified(store, KeyOf(u), u.content) {
        return Reject("object_missing");
      }
      if r :| r in manifests && SameRange(manifests, r, u) && manifests[r].content == u.content {
        forall q | SameRange(manifests, q, u) ensures q == r { SameRangeOnce(manifests, u, q, r); }
        return Replay(r);
      }
      if Overlapped(manifests, u) {
        return Reject("sequence_overlap");
      }
      return if CanRecord(records, u) then Accept else Reject("attempt_identity_conflict");
    }

    method Spend(u: Segment)
      modifies this`gens, this`reservations
      ensures View() == Spending(old(View()), u)
    {
      if u.attempt !in gens {
        gens := gens[u.attempt := Generation(0, None)];
      }
      var range := RangeOf(u);
      if range in reservations {
        reservations := reservations[range := reservations[range].(state := Committed)];
      }
    }

    /** Enters the segment into the attempt's index, filling in identities that were not known. */
    method RecordAdmission(u: Segment)
      modifies this`records
      ensures records == old(records)[u.attempt := Recorded(old(records), u, clock)]
    {
      if u.attempt !in records {
        records := records[u.attempt := Record(u.bindings, clock, clock, 1, u.records)];
        return;
      }
      var row := records[u.attempt];
      if row.bindings.workflow.None? {
        row := row.(bindings := row.bindings.(workflow := u.bindings.workflow));
      }
      if row.bindings.logicalCase.None? {
        row := row.(bindings := row.bindings.(logicalCase := u.bindings.logicalCase));
      }
      if row.bindings.scheduler.None? {
        row := row.(bindings := row.bindings.(scheduler := u.bindings.scheduler));
      }
      row := row.(last := clock, segments := row.segments + 1, records := row.records + u.records);
      records := records[u.attempt := row];
    }

    /** Writes the manifest and its outbox record. */
    method AddManifest(u: Segment)
      modifies this`manifests, this`admitted, this`outbox, this`nextId
      ensures manifests == old(manifests)[old(nextId) := ManifestOf(old(View()), u)]
      ensures admitted == old(admitted)[old(nextId) := ManifestOf(old(View()), u)]
      ensures outbox == WithAdmission(old(View())) && nextId == old(nextId) + 2
    {
      var m := Manifest(u.attempt, RangeOf(u), u.records, u.content, KeyOf(u), u.generation, clock);
      manifests := manifests[nextId := m];
      admitted := admitted[nextId := m];
      outbox := outbox[nextId + 1 := Outbox(SegmentAdmitted(nextId), Queued())];
      nextId := nextId + 2;
    }

    method Admit(u: Segment)
      modifies this`manifests, this`admitted, this`records, this`outbox, this`nextId
      ensures View() == Admitting(old(View()), u)
    {
      AddManifest(u);
      RecordAdmission(u);
    }

    /** The second transaction of an admission. */
    method Commit(u: Segment, reservation: nat) returns (d: Decision)
      requires Ranged(manifests)
      modifies this`gens, this`reservations, this`manifests, this`admitted, this`records, this`outbox, this`nextId
      ensures d == DecideCommit(old(View()), u, reservation) && View() == Committing(old(View()), u, d)
    {
      d := CheckCommit(u, reservation);
      if d.Replay? || d.Accept? {
        Spend(u);
      }
      if d.Accept? {
        Admit(u);
      }
    }

    // Holds, deletion requests and physical erasure.

    function Fencing(): Fences
      reads this
    {
      Fences(gens, holds, deletions)
    }

    /** Parks a request that a hold blocks; the lease of a worker on it is withdrawn. */
    method Park(a: Attempt)
      modifies this`deletions
      ensures deletions == if a in old(deletions) then old(deletions)[a := Parked(old(deletions)[a])] else old(deletions)
    {
      if a in deletions {
        var row := deletions[a];
        row := row.(work := row.work.(state := Held, owner := None, expires := None), completedAt := None);
        deletions := deletions[a := row];
      }
    }

    method PlaceHold(id: nat, a: Attempt, reason: string) returns (placed: bool)
      modifies this`holds, this`deletions
      ensures Fencing() == Erasure.PlaceHold(old(Fencing()), a in records || a in gens, id, a, reason)
      ensures placed <==> id !in old(holds) && id in holds
    {
      if a !in records && a !in gens {
        return false;
      }
      if a in deletions && deletions[a].work.state == Completed {
        return false;
      }
      if id in holds {
        return false;
      }
      holds := holds[id := Hold(a, reason, true)];
      Park(a);
      return true;
    }

    /** Fences the attempt unless it is fenced already. */
    method Fence(a: Attempt)
      modifies this`gens
      ensures gens == Erasure.Fence(old(gens), a, clock)
    {
      var row := if a in gens then gens[a] else Generation(0, None);
      if row.deletedAt.None? {
        gens := gens[a := Generation(row.number + 1, Some(clock))];
      }
    }

    method ReleaseHold(id: nat) returns (released: bool)
      modifies this`gens, this`holds, this`deletions
      ensures Fencing() == Erasure.ReleaseHold(old(Fencing()), id, clock)
      ensures released <==> id in old(holds) && old(holds)[id].active
    {
      if id !in holds || !holds[id].active {
        return false;
      }
      var a := holds[id].attempt;
      holds := holds[id := holds[id].(active := false)];
      if !HasActiveHold(holds, a) && a in deletions && deletions[a].work.state == Held {
        Fence(a);
        deletions := deletions[a := Requeued(deletions[a], gens[a].number)];
      }
      return true;
    }

    /** Asks for the deletion of an attempt; a hold leaves the request parked and the attempt live. */
    method DeleteAttempt(a: Attempt) returns (queued: bool)
      modifies this`gens, this`deletions
      ensures Fencing() == Erasure.DeleteAttempt(old(Fencing()), a, clock)
      ensures queued <==> !HasActiveHold(holds, a)
    {
      if HasActiveHold(holds, a) {
        if a !in gens {
          gens := gens[a := Generation(0, None)];
        }
        if a !in deletions {
          deletions := deletions[a := Deletion(gens[a].number, Queued().(state := Held), clock, None)];
        } else if deletions[a].work.state != Completed {
          Park(a);
        }
        return false;
      }
      Fence(a);
      if a !in deletions {
        deletions := deletions[a := Deletion(gens[a].number, Queued(), gens[a].deletedAt.value, None)];
      } else if deletions[a].generation != gens[a].number {
        deletions := deletions[a :=
          Requeued(deletions[a], gens[a].number).(requestedAt := gens[a].deletedAt.value)];
      }
      return true;
    }

    method ClaimDeletion(a: Attempt, owner: string, seconds: nat) returns (lease: Option<Ticket>)
      modifies this`deletions
      ensures Fencing() == Erasure.ClaimDeletion(old(Fencing()), a, owner, clock, seconds)
      ensures lease.Some? ==> a in deletions && Matches(Fencing(), a, lease.value, deletions[a].generation)
      ensures lease.None? <==> a !in old(deletions) || !Claimable(old(deletions)[a].work, clock)
    {
      if a !in deletions || !Claimable(deletions[a].work, clock) {
        return None;
      }
      var w := deletions[a].work;
      w := w.(
        state := Processing, attempts := w.attempts + 1, owner := Some(owner),
        generation := w.generation + 1, expires := Some(clock + seconds));
      deletions := deletions[a := deletions[a].(work := w)];
      return Some(Ticket(owner, w.generation));
    }

    /** The claimable request that has waited longest. */
    method OldestDeletion() returns (oldest: Option<Attempt>)
      ensures oldest.None? <==> forall a :: a in deletions ==> !Claimable(deletions[a].work, clock)
      ensures oldest.Some? ==> oldest.value in deletions && Claimable(deletions[oldest.value].work, clock)
      ensures oldest.Some? ==> forall a :: a in deletions && Claimable(deletions[a].work, clock) ==>
                deletions[oldest.value].requestedAt <= deletions[a].requestedAt
    {
      oldest := None;
      var todo := deletions.Keys;
      while todo != {}
        invariant todo <= deletions.Keys
        invariant oldest.Some? ==> oldest.value in deletions && Claimable(deletions[oldest.value].work, clock)
        invariant forall a :: a in deletions && a !in todo && Claimable(deletions[a].work, clock) ==>
          oldest.Some? && deletions[oldest.value].requestedAt <= deletions[a].requestedAt
        decreases |todo|
      {
        var a :| a in todo;
        if Claimable(deletions[a].work, clock)
          && (oldest.None? || deletions[a].requestedAt < deletions[oldest.value].requestedAt) {
          oldest := Some(a);
        }
        todo := todo - {a};
      }
    }

    /** Claims the oldest request there is to claim. */
    method ClaimNextDeletion(owner: string, seconds: nat) returns (a: Option<Attempt>, lease: Option<Ticket>)
      modifies this`deletions
      ensures a.None? <==> forall b :: b in old(deletions) ==> !Claimable(old(deletions)[b].work, clock)
      ensures a.Some? <==> lease.Some?
      ensures a.Some? ==> a.value in old(deletions) && Claimable(old(deletions)[a.value].work, clock)
      ensures a.Some? ==> forall b :: b in old(deletions) && Claimable(old(deletions)[b].work, clock) ==>
                old(deletions)[a.value].requestedAt <= old(deletions)[b].requestedAt
      ensures Fencing() == if a.Some? then Erasure.ClaimDeletion(old(Fencing()), a.value, owner, clock, seconds) else old(Fencing())
    {
      a := OldestDeletion();
      lease := None;
      if a.Some? {
        lease := ClaimDeletion(a.value, owner, seconds);
      }
    }

    method FailDeletion(a: Attempt, t: Ticket, generation: nat)
      modifies this`deletions
      ensures Fencing() == Erasure.FailDeletion(old(Fencing()), a, t, generation)
    {
      if Matches(Fencing(), a, t, generation) {
        var w := deletions[a].work;
        w := w.(state := if w.attempts >= 5 then Failed else Pending, owner := None, expires := None);
        deletions := deletions[a := deletions[a].(work := w)];
      }
    }

    /** Deletes the objects one by one. `budget` is how many deletes happen before the process dies. */
    method DeleteObjects(keys: set<Key>, budget: nat) returns (done: bool, ghost gone: set<Key>)
      modifies this`store
      ensures gone <= keys && store == old(store) - gone
      ensures if done then gone == keys else budget < |keys| || Corrupted(old(store), keys)
    {
      var todo, left := keys, budget;
      gone := {};
      while todo != {}
        invariant gone !! todo && gone + todo == keys && store == old(store) - gone
        invariant left + |gone| == budget
        decreases |todo|
      {
        var key :| key in todo;
        assert |keys| == |gone| + |todo|;
        if left == 0 || (key in store && store[key] != key.content) {
          return false, gone;
        }
        store := store - {key};
        gone, todo, left := gone + {key}, todo - {key}, left - 1;
      }
      return true, gone;
    }

    /** Deletes the admission records of the receipts at once, then the report requests one by one. */
    method DeleteOutbox(a: Attempt, receipts: set<nat>)
      requires receipts == ReceiptsOf(manifests, a)
      modifies this`outbox
      ensures outbox == OutboxWithout(old(outbox), manifests, a)
    {
      outbox := map i | i in outbox && !(outbox[i].event.SegmentAdmitted? && outbox[i].event.receipt in receipts)
        :: outbox[i];
      var requests := set i | i in outbox && outbox[i].event.ReportRequested? && outbox[i].event.attempt == a;
      while requests != {}
        invariant forall i :: i in outbox <==> i in requests || i in OutboxWithout(old(outbox), manifests, a)
        invariant forall i :: i in outbox ==> i in old(outbox) && outbox[i] == old(outbox)[i]
        invariant forall i :: i in requests ==> i !in OutboxWithout(old(outbox), manifests, a)
        decreases |requests|
      {
        var id :| id in requests;
        outbox := outbox - {id};
        requests := requests - {id};
      }
    }

    /** Removes every row of the attempt, and the collector's rows of the deleted objects. */
    method DeleteRows(a: Attempt, gone: set<Key>)
      modifies this`outbox, this`normalized, this`revisions, this`heads, this`manifests, this`reservations,
        this`records, this`candidates
      ensures RowsGone(old(View()), View(), a, gone)
    {
      var receipts := ReceiptsOf(manifests, a);
      DeleteOutbox(a, receipts);
      normalized := normalized - receipts;
      revisions := RevisionsWithout(revisions, a);
      heads := heads - {a};
      manifests := manifests - receipts;
      reservations := ReservationsWithout(reservations, a);
      records := records - {a};
      candidates := candidates - gone;
    }

    method Conclude(a: Attempt)
      requires a in deletions
      modifies this`deletions
      ensures deletions == old(deletions)[a := Concluded(old(deletions)[a], clock)]
    {
      var row := deletions[a];
      row := row.(work := row.work.(state := Completed, owner := None, expires := None), completedAt := Some(clock));
      deletions := deletions[a := row];
    }

    method EraseRows(a: Attempt, keys: set<Key>)
      requires a in deletions
      modifies this`outbox, this`normalized, this`revisions, this`heads, this`manifests, this`reservations,
        this`records, this`candidates, this`deletions
      ensures View() == Erased(old(View()), a, keys).(store := old(store))
    {
      DeleteRows(a, keys);
      Conclude(a);
      ErasedByParts(old(View()), View(), a, keys);
    }

    method EraseEvidence(a: Attempt, keys: set<Key>, budget: nat) returns (done: bool, ghost gone: set<Key>)
      requires a in deletions
      modifies this`outbox, this`normalized, this`revisions, this`heads, this`manifests, this`reservations,
        this`records, this`candidates, this`store, this`deletions
      ensures gone <= keys && (done || budget < |keys| || Corrupted(old(store), keys))
      ensures View() == if done then Erased(old(View()), a, keys) else old(View()).(store := old(store) - gone)
    {
      done, gone := DeleteObjects(keys, budget);
      if done {
        EraseRows(a, keys);
      }
    }

    /**
     One leased erasure. Objects go first and stay gone when the transaction rolls back; the rows
     go only if every object went.
     */
    method Execute(a: Attempt, t: Ticket, generation: nat, budget: nat) returns (outcome: Outcome, ghost gone: set<Key>)
      modifies this`outbox, this`normalized, this`revisions, this`heads, this`manifests, this`reservations,
        this`records, this`candidates, this`store, this`deletions
      ensures outcome == RolledBack ==> View() == EraseRolledBack(old(View()), a, t, generation, gone)
      ensures outcome != RolledBack ==> View() == Erase(old(View()), a, t, generation)
      ensures outcome == RolledBack ==>
                budget < |Deletable(old(View()), a)| || Corrupted(old(store), Deletable(old(View()), a))
    {
      gone := {};
      if !Matches(Fencing(), a, t, generation) {
        return Skipped, gone;
      }
      var row := deletions[a];
      if HasActiveHold(holds, a) {
        deletions := deletions[a := row.(work := row.work.(state := Held, owner := None, expires := None))];
        return Blocked, gone;
      }
      if !Current(gens, a, generation) {
        return Outdated, gone;
      }
      var done;
      done, gone := EraseEvidence(a, Deletable(View(), a), budget);
      outcome := if done then Finished else RolledBack;
    }

    /**
     Restores tombstones. The tables are only written back once no entry is contradicted, so a
     refused bundle leaves no trace; a bundle seen before is acknowledged without change.
     */
    method ApplyTombstones(b: Bundle) returns (accepted: bool)
      modifies this`gens, this`holds, this`deletions, this`imports
      ensures Fencing() == Imported(old(View()), b) && imports == ImportsWith(old(View()), b)
      ensures accepted <==> b in imports
    {
      if b in imports {
        return true;
      }
      if !Acceptable(b) {
        return false;
      }
      var next := Restore(Fencing(), b.entries);
      if next.None? {
        return false;
      }
      gens, holds, deletions := next.value.gens, next.value.holds, next.value.deletions;
      imports := imports + {b};
      return true;
    }

    // Reservation expiry and object collection.

    method Expire(x: Range, ttl: nat, grace: nat)
      modifies this`reservations, this`candidates
      ensures reservations == Lapsed(old(View()), x, ttl) && candidates == Marked(old(View()), x, ttl, grace)
    {
      if Expirable(View(), x, ttl) {
        var row := reservations[x];
        reservations := reservations[x := row.(state := Expired)];
        if row.key !in candidates {
          candidates := candidates[row.key := Candidate(row.content, Waiting, clock + grace, 0, None)];
        }
      }
    }

    method SweepReservations(batch: seq<Range>, ttl: nat, grace: nat)
      modifies this`reservations, this`candidates
      ensures View() == Sweep(old(View()), batch, ttl, grace)
    {
      var i := 0;
      while i < |batch|
        invariant 0 <= i <= |batch|
        invariant Sweep(View(), batch[i..], ttl, grace) == Sweep(old(View()), batch, ttl, grace)
      {
        assert batch[i..][0] == batch[i] && batch[i..][1..] == batch[i + 1..];
        Expire(batch[i], ttl, grace);
        i := i + 1;
      }
    }

    /** Reclaims one candidate; if the transaction does not commit, a delete still counts. */
    method CollectObject(key: Key, commits: bool)
      modifies this`store, this`candidates
      ensures store == Collected(old(View()), key)
      ensures candidates == if commits then Judged(old(View()), key) else old(candidates)
    {
      if !Due(View(), key) {
        return;
      }
      var row := candidates[key];
      row := row.(attempts := row.attempts + 1);
      if Referenced(View(), key) {
        row := row.(state := Protected, completedAt := Some(clock));
      } else if key !in store {
        row := row.(state := Missing, completedAt := Some(clock));
      } else if store[key] == row.content {
        store := store - {key};
        row := row.(state := Deleted, completedAt := Some(clock));
      } else if row.attempts >= 5 {
        row := row.(state := Quarantined, completedAt := Some(clock));
      } else {
        row := row.(notBefore := clock + Min(3600, 30 * Pow2(row.attempts - 1)));
      }
      if commits {
        candidates := candidates[key := row];
      }
    }

    method AuditObject(key: Key, grace: nat, interval: nat)
      modifies this`candidates
      ensures candidates == Audited(old(View()), key, grace, interval)
    {
      if !Auditable(View(), key, interval) {
        return;
      }
      var row := candidates[key];
      if key in store && store[key] != row.content {
        row := row.(state := Quarantined, notBefore := clock + interval, completedAt := Some(clock));
      } else if Referenced(View(), key) {
        row := row.(
          state := if key in store then Protected else Quarantined, notBefore := clock + interval, completedAt := Some(clock));
      } else if key in store {
        row := row.(state := Waiting, attempts := 0, notBefore := clock + grace, completedAt := None);
      } else {
        row := row.(state := Missing, completedAt := Some(clock));
      }
      candidates := candidates[key := row];
    }

    // Normalization and publication.

    method ClaimRecord(id: nat, owner: string, seconds: nat) returns (lease: Option<Ticket>)
      modifies this`outbox
      ensures View() == ClaimOutbox(old(View()), id, owner, seconds)
      ensures lease.Some? ==> OwnsOutbox(View(), id, lease.value)
      ensures lease.None? <==> id !in old(outbox) || !Claimable(old(outbox)[id].work, clock)
    {
      if id !in outbox || !Claimable(outbox[id].work, clock) {
        return None;
      }
      var w := outbox[id].work;
      w := w.(
        state := Processing, attempts := w.attempts + 1, owner := Some(owner),
        generation := w.generation + 1, expires := Some(clock + seconds));
      outbox := outbox[id := outbox[id].(work := w)];
      return Some(Ticket(owner, w.generation));
    }

    /** The claimable record of one kind that was written first; records are numbered as they are written. */
    method FirstRecord(admissions: bool) returns (first: Option<nat>)
      ensures first.None? <==> forall i :: i in outbox ==> !Waits(outbox[i], admissions, clock)
      ensures first.Some? ==> first.value in outbox && Waits(outbox[first.value], admissions, clock)
      ensures first.Some? ==> forall i :: i in outbox && Waits(outbox[i], admissions, clock) ==> first.value <= i
    {
      first := None;
      var todo := outbox.Keys;
      while todo != {}
        invariant todo <= outbox.Keys
        invariant first.Some? ==> first.value in outbox && Waits(outbox[first.value], admissions, clock)
        invariant forall i :: i in outbox && i !in todo && Waits(outbox[i], admissions, clock) ==> first.Some? && first.value <= i
        decreases |todo|
      {
        var i :| i in todo;
        if Waits(outbox[i], admissions, clock) && (first.None? || i < first.value) {
          first := Some(i);
        }
        todo := todo - {i};
      }
    }

    /** Claims the first record of the kind a worker serves. */
    method ClaimNextRecord(admissions: bool, owner: string, seconds: nat) returns (id: Option<nat>, lease: Option<Ticket>)
      modifies this`outbox
      ensures id.None? <==> forall i :: i in old(outbox) ==> !Waits(old(outbox)[i], admissions, clock)
      ensures id.Some? <==> lease.Some?
      ensures id.Some? ==> id.value in old(outbox) && Waits(old(outbox)[id.value], admissions, clock)
      ensures id.Some? ==> forall i :: i in old(outbox) && Waits(old(outbox)[i], admissions, clock) ==> id.value <= i
      ensures View() == if id.Some? then ClaimOutbox(old(View()), id.value, owner, seconds) else old(View())
    {
      id := FirstRecord(admissions);
      lease := None;
      if id.Some? {
        lease := ClaimRecord(id.value, owner, seconds);
      }
    }

    method FailRecord(id: nat, t: Ticket)
      modifies this`outbox
      ensures View() == FailOutbox(old(View()), id, t)
    {
      if id in outbox && HoldsLease(outbox[id].work, t) {
        var w := outbox[id].work;
        w := w.(state := if w.attempts >= 5 then Failed else Pending, owner := None, expires := None);
        outbox := outbox[id := outbox[id].(work := w)];
      }
    }

    /** Leaves the processing state and gives the lease up. */
    method Settle(id: nat, state: WorkState)
      requires id in outbox && state != Processing
      modifies this`outbox
      ensures View() == WithWork(old(View()), id, Settled(old(outbox)[id].work, state))
    {
      var row := outbox[id];
      outbox := outbox[id := row.(work := row.work.(state := state, owner := None, expires := None))];
    }

    method AddNormalized(receipt: nat, read: Manifest)
      modifies this`outbox, this`normalized, this`nextId
      ensures View() == Normalizing(old(View()), receipt, read)
    {
      normalized := normalized[receipt := Normalized(read.records, read.content)];
      outbox := outbox[nextId := Outbox(ReportRequested(read.attempt, read.generation), Queued())];
      nextId := nextId + 1;
    }

    method NormalizeOnce(id: nat, receipt: nat, read: Manifest)
      requires id in outbox
      modifies this`outbox, this`normalized, this`nextId
      ensures View() == NormalizedOnce(old(View()), id, receipt, read)
    {
      Settle(id, Completed);
      if receipt !in normalized {
        AddNormalized(receipt, read);
      }
    }

    method NormalizeSegment(id: nat, t: Ticket, read: Manifest) returns (done: bool)
      modifies this`outbox, this`normalized, this`nextId
      ensures View() == Normalize(old(View()), id, t, read)
    {
      if !OwnsOutbox(View(), id, t) || !outbox[id].event.SegmentAdmitted? {
        return false;
      }
      var receipt, a := outbox[id].event.receipt, read.attempt;
      done := Live(gens, a) && gens[a].number == read.generation;
      if !done {
        Settle(id, Suppressed);
      } else if Clashes(normalized, receipt, read) {
        done := false;
      } else {
        NormalizeOnce(id, receipt, read);
      }
    }

    /** Makes sure the collector has a usable row for an artifact. */
    method EnsureCandidate(key: Key, notBefore: nat)
      modifies this`candidates
      ensures candidates == WithCandidate(old(candidates), key, notBefore)
    {
      if key !in candidates {
        candidates := candidates[key := Candidate(key.content, Waiting, notBefore, 0, None)];
      } else if candidates[key].state in {Deleted, Missing, Quarantined} {
        candidates := candidates[key := candidates[key].(
          state := Waiting, notBefore := notBefore, attempts := 0, completedAt := None)];
      }
    }

    method ReserveArtifacts(p: Key, q: Key, grace: nat) returns (ok: bool)
      modifies this`candidates
      ensures View() == Reporting.ReserveArtifacts(old(View()), p, q, grace)
    {
      if !Agreed(View(), p) || !Agreed(View(), q) {
        return false;
      }
      EnsureCandidate(p, clock + grace);
      EnsureCandidate(q, clock + grace);
      return true;
    }

    method Protect(key: Key)
      requires key in candidates
      modifies this`candidates
      ensures candidates == old(candidates)[key := old(candidates)[key].(state := Protected, completedAt := Some(clock))]
    {
      candidates := candidates[key := candidates[key].(state := Protected, completedAt := Some(clock))];
    }

    /** Writes both artifacts and takes them out of the collector's reach. */
    method WriteArtifacts(p: Key, q: Key, grace: nat)
      requires CanPut(store, p, p.content) && CanPut(store, q, q.content)
      modifies this`store, this`candidates
      ensures store == Filed(old(store), p, q)
      ensures candidates == Shielded(old(candidates), p, q, clock + grace, clock)
    {
      ShieldedByParts(candidates, p, q, clock + grace, clock);
      EnsureCandidate(p, clock + grace);
      EnsureCandidate(q, clock + grace);
      store := store[p := p.content];
      store := store[q := q.content];
      Protect(p);
      Protect(q);
    }

    method AddRevision(a: Attempt, g: nat, inputs: set<nat>)
      modifies this`revisions, this`heads, this`nextId
      ensures View() == Appending(old(View()), a, g, inputs)
    {
      var number := if a in heads && heads[a].generation == g then heads[a].number + 1 else 1;
      revisions := revisions[nextId :=
        Revision(a, g, number, inputs, ReportKeyOf(a, g, inputs), ProjectionKeyOf(a, inputs))];
      heads := heads[a := Head(g, number, nextId, inputs)];
      nextId := nextId + 1;
    }

    /** Advances the head, writing a new revision unless one over these inputs exists. */
    method Advance(a: Attempt, g: nat, inputs: set<nat>)
      requires Live(gens, a) && SameInputsOnce(revisions, gens)
      modifies this`revisions, this`heads, this`nextId
      ensures View() == Advanced(old(View()), a, g, inputs)
    {
      if v :| v in revisions && SameInputs(View(), v, a, g, inputs) {
        assert forall w :: SameInputs(View(), w, a, g, inputs) ==> AlikeRevisions(revisions[v], revisions[w]);
        heads := heads[a := Head(g, revisions[v].number, v, inputs)];
      } else {
        AddRevision(a, g, inputs);
      }
    }

    method Serve(id: nat, p: Key, q: Key, grace: nat)
      requires id in outbox && CanPut(store, p, p.content) && CanPut(store, q, q.content)
      modifies this`outbox, this`store, this`candidates
      ensures View() == WithWork(WithArtifacts(old(View()), p, q, grace), id, Settled(old(outbox)[id].work, Completed))
    {
      WriteArtifacts(p, q, grace);
      assert View() == WithArtifacts(old(View()), p, q, grace);
      Settle(id, Completed);
    }

    /** Publishes the artifacts and completes the request. */
    method PublishArtifacts(id: nat, a: Attempt, g: nat, inputs: set<nat>, grace: nat)
      requires id in outbox && Live(gens, a) && SameInputsOnce(revisions, gens)
      requires var p, q := ProjectionKeyOf(a, inputs), ReportKeyOf(a, g, inputs);
               CanPut(store, p, p.content) && CanPut(store, q, q.content)
      modifies this`outbox, this`store, this`candidates, this`revisions, this`heads, this`nextId
      ensures View() == Published(old(View()), id, a, g, inputs, grace)
    {
      Serve(id, ProjectionKeyOf(a, inputs), ReportKeyOf(a, g, inputs), grace);
      if !(a in heads && heads[a].generation == g && heads[a].inputs == inputs) {
        Advance(a, g, inputs);
      }
    }

    /** The publishing transaction; the inputs the artifacts were built from are read again. */
    method PublishReport(id: nat, t: Ticket, inputs: set<nat>, grace: nat) returns (done: bool)
      requires SameInputsOnce(revisions, gens)
      modifies this`outbox, this`store, this`candidates, this`revisions, this`heads, this`nextId
      ensures View() == Publish(old(View()), id, t, inputs, grace)
    {
      done := false;
      if OwnsOutbox(View(), id, t) && outbox[id].event.ReportRequested? && inputs != {} {
        var a, g := outbox[id].event.attempt, outbox[id].event.generation;
        var p, q := ProjectionKeyOf(a, inputs), ReportKeyOf(a, g, inputs);
        if !Live(gens, a) || gens[a].number != g {
          Settle(id, Suppressed);
        } else if InputsOf(manifests, normalized, a, g) != inputs {
          Settle(id, Pending);
        } else if Agreed(View(), p) && Agreed(View(), q) && CanPut(store, p, p.content) && CanPut(store, q, q.content) {
          PublishArtifacts(id, a, g, inputs, grace);
          done := true;
        }
      }
    }
  }
}
