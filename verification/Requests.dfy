/**
 What becomes of a request to delete an attempt, in any state that a run can reach: it fences at once or
 waits for the last hold, it is never forgotten, and restored tombstones queue the erasure again.
 */
module Requests {
  import opened Prelude
  import opened Leases
  import opened Catalog
  import opened Tombstones
  import opened Erasure
  import opened Invariants
  import opened GenerationProofs
  import opened ErasureProofs
  import opened Lifecycle
  import opened Progress
  import Recovery

  /** Only the three tables of requests changed, and in them only what is about the attempt. */
  ghost predicate Concerns(s: State, s': State, a: Attempt) {
    && s' == s.(gens := s'.gens, holds := s'.holds, deletions := s'.deletions)
    && OnlyAt(FencesOf(s), FencesOf(s'), a)
  }

  /** The attempt is fenced, and a worker may claim its erasure now. */
  ghost predicate Ready(s: State, a: Attempt) {
    && Fenced(s.gens, a) && a in s.deletions
    && s.deletions[a].generation == s.gens[a].number
    && s.deletions[a].work.state == Pending && s.deletions[a].work.attempts == 0
    && Sound(s.deletions[a].work) && s.deletions[a].completedAt.None?
    && Claimable(s.deletions[a].work, s.clock)
  }

  /** Fenced now, under the first generation after the live one; a fence that was there stays. */
  ghost predicate FencedBy(s: State, s': State, a: Attempt) {
    && a in s'.gens
    && s'.gens[a] == if Fenced(s.gens, a) then s.gens[a] else Generation(1, Some(s.clock))
  }

  lemma FenceFacts(run: seq<Action>)
    ensures Coherent(FencesOf(Exec(Empty, run)))
  {
    EmptyIsGood();
    RunKept(Empty, run);
  }

  lemma LaterFenceFacts(run: seq<Action>, later: seq<Action>)
    ensures Coherent(FencesOf(Exec(Exec(Empty, run), later)))
  {
    EmptyIsGood();
    RunKept(Empty, run);
    RunKept(Exec(Empty, run), later);
  }

  lemma ExecDelete(run: seq<Action>, a: Attempt)
    ensures var s := Exec(Empty, run);
            Exec(Empty, run + [Delete(a)]) == WithFences(s, DeleteAttempt(FencesOf(s), a, s.clock))
  {
    ExecAppend(Empty, run, Delete(a));
  }

  lemma ApplyRelease(s: State, h: nat)
    ensures Apply(s, Release(h)) == WithFences(s, ReleaseHold(FencesOf(s), h, s.clock))
  {
  }

  // Deletion requests.

  /** Without a hold, the attempt is fenced at once and its erasure queued; asking again changes nothing. */
  ghost predicate Queues(s: State, s': State, a: Attempt) {
    if a in s.deletions then s' == s && Fenced(s.gens, a) && s.deletions[a].generation == s.gens[a].number
    else
      && Concerns(s, s', a) && s'.holds == s.holds
      && FencedBy(s, s', a) && Ready(s', a)
      && s'.deletions[a].requestedAt == s'.gens[a].deletedAt.value
  }

  lemma DeletionsFence(run: seq<Action>, a: Attempt)
    requires !HasActiveHold(Exec(Empty, run).holds, a)
    ensures Queues(Exec(Empty, run), Exec(Empty, run + [Delete(a)]), a)
  {
    FenceFacts(run);
    ExecDelete(run, a);
    DeletionQueues(Exec(Empty, run), a);
  }

  lemma DeletionQueues(s: State, a: Attempt)
    requires Coherent(FencesOf(s)) && !HasActiveHold(s.holds, a)
    ensures Queues(s, WithFences(s, DeleteAttempt(FencesOf(s), a, s.clock)), a)
  {
    if a in s.deletions {
      assert CoupledAt(s.holds, s.deletions[a], s.gens, a);
    }
  }

  /**
   A request from before the current fence would be renewed for it, whatever became of it. By `DeletionsFence`
   no run meets one: without a hold, a request always is for the fence in place.
   */
  lemma OutdatedRequestsAreRenewed(f: Fences, a: Attempt, now: nat)
    requires !HasActiveHold(f.holds, a) && Fenced(f.gens, a)
    requires a in f.deletions && f.deletions[a].generation != f.gens[a].number
    ensures var fence, lease := f.gens[a], f.deletions[a].work.generation;
            DeleteAttempt(f, a, now) == f.(deletions :=
              f.deletions[a := Deletion(fence.number, Work(Pending, 0, None, lease, None), fence.deletedAt.value, None)])
  {
  }

  /** Whatever the tables hold: under a hold, a request that is already completed stays so, and any other is parked. */
  lemma HeldRequestsArePutOff(f: Fences, a: Attempt, now: nat)
    requires HasActiveHold(f.holds, a) && a in f.gens && a in f.deletions
    ensures var d := f.deletions[a];
            DeleteAttempt(f, a, now) ==
              if d.work.state == Completed then f
              else f.(deletions :=
                f.deletions[a := Deletion(d.generation, Work(Held, d.work.attempts, None, d.work.generation, None), d.requestedAt, None)])
  {
  }

  /** Under a hold, the request is kept and parked, and the attempt stays as live as it was. */
  ghost predicate Parks(s: State, s': State, a: Attempt) {
    && a in s'.deletions && s'.deletions[a].work.state == Held && Sound(s'.deletions[a].work)
    && s'.gens == (if a in s.gens then s.gens else s.gens[a := Generation(0, None)])
    && s'.deletions == (if a in s.deletions then s.deletions else s.deletions[a := s'.deletions[a]])
    && (a !in s.deletions ==> s'.deletions[a].requestedAt == s.clock && s'.deletions[a].completedAt.None?)
    && s' == s.(gens := s'.gens, deletions := s'.deletions)
  }

  lemma DeletionsWaitForHolds(run: seq<Action>, a: Attempt)
    requires HasActiveHold(Exec(Empty, run).holds, a)
    ensures Parks(Exec(Empty, run), Exec(Empty, run + [Delete(a)]), a)
  {
    FenceFacts(run);
    ExecDelete(run, a);
    DeletionParks(Exec(Empty, run), a);
  }

  lemma DeletionParks(s: State, a: Attempt)
    requires Coherent(FencesOf(s)) && HasActiveHold(s.holds, a)
    ensures Parks(s, WithFences(s, DeleteAttempt(FencesOf(s), a, s.clock)), a)
  {
    if a in s.deletions {
      assert CoupledAt(s.holds, s.deletions[a], s.gens, a);
      var d := s.deletions[a];
      assert Parked(d) == d;
    }
  }

  // Holds.

  /** A hold can be placed on a known attempt that is not erased, under a number that is not in use. */
  predicate Holdable(s: State, h: nat, a: Attempt) {
    && (a in s.records || a in s.gens) && h !in s.holds
    && !(a in s.deletions && s.deletions[a].work.state == Completed)
  }

  /** The hold is there, and a request of the attempt is parked with its lease withdrawn. */
  ghost predicate Holds(s: State, s': State, h: nat, a: Attempt, reason: string) {
    && s' == s.(holds := s.holds[h := Hold(a, reason, true)], deletions := s'.deletions)
    && (forall b :: b != a ==> (b in s'.deletions <==> b in s.deletions))
    && (forall b :: b != a && b in s.deletions ==> s'.deletions[b] == s.deletions[b])
    && (a in s'.deletions <==> a in s.deletions)
    && (a in s.deletions ==>
          var d, d' := s.deletions[a], s'.deletions[a];
          && d'.work.state == Held && Sound(d'.work) && d'.work.generation == d.work.generation
          && d'.generation == d.generation && d'.requestedAt == d.requestedAt && d'.completedAt.None?)
  }

  lemma HoldsArePlaced(run: seq<Action>, h: nat, a: Attempt, reason: string)
    ensures var s, s' := Exec(Empty, run), Exec(Empty, run + [Place(h, a, reason)]);
            if Holdable(s, h, a) then Holds(s, s', h, a, reason) else s' == s
  {
    ExecAppend(Empty, run, Place(h, a, reason));
  }

  predicate LastHold(holds: map<nat, Hold>, h: nat) {
    && h in holds && holds[h].active
    && forall k :: k in holds && k != h && holds[k].attempt == holds[h].attempt ==> !holds[k].active
  }

  /** The last hold lets a parked request through; any other release only ends the hold. */
  ghost predicate Releases(s: State, s': State, h: nat) {
    if h !in s.holds || !s.holds[h].active then s' == s
    else
      var a := s.holds[h].attempt;
      && s'.holds == s.holds[h := s.holds[h].(active := false)]
      && (if LastHold(s.holds, h) && a in s.deletions then
            && Concerns(s, s', a) && FencedBy(s, s', a) && Ready(s', a)
            && s'.deletions[a].requestedAt == s.deletions[a].requestedAt
          else s' == s.(holds := s'.holds))
  }

  lemma ReleasesLetDeletionsThrough(run: seq<Action>, h: nat)
    ensures Releases(Exec(Empty, run), Exec(Empty, run + [Release(h)]), h)
  {
    FenceFacts(run);
    ExecAppend(Empty, run, Release(h));
    ApplyRelease(Exec(Empty, run), h);
    ReleaseLetsThrough(Exec(Empty, run), h);
  }

  lemma LastHoldDecides(holds: map<nat, Hold>, h: nat)
    requires h in holds && holds[h].active
    ensures LastHold(holds, h) <==> !HasActiveHold(holds[h := holds[h].(active := false)], holds[h].attempt)
  {
    var holds' := holds[h := holds[h].(active := false)];
    if !LastHold(holds, h) {
      var k :| k in holds && k != h && holds[k].attempt == holds[h].attempt && holds[k].active;
      assert k in holds' && holds'[k] == holds[k];
    }
  }

  lemma ReleaseLetsThrough(s: State, h: nat)
    requires Coherent(FencesOf(s))
    ensures Releases(s, WithFences(s, ReleaseHold(FencesOf(s), h, s.clock)), h)
  {
    if h in s.holds && s.holds[h].active {
      if LastHold(s.holds, h) && s.holds[h].attempt in s.deletions {
        LastReleaseQueues(s, h, s.holds[h].attempt);
      } else {
        OtherReleaseOnlyEnds(s, h);
      }
    }
  }

  lemma OtherReleaseOnlyEnds(s: State, h: nat)
    requires h in s.holds && s.holds[h].active && !(LastHold(s.holds, h) && s.holds[h].attempt in s.deletions)
    ensures WithFences(s, ReleaseHold(FencesOf(s), h, s.clock)) == s.(holds := s.holds[h := s.holds[h].(active := false)])
  {
    LastHoldDecides(s.holds, h);
  }

  lemma LastReleaseQueues(s: State, h: nat, a: Attempt)
    requires Coherent(FencesOf(s)) && LastHold(s.holds, h) && s.holds[h].attempt == a && a in s.deletions
    ensures var s' := WithFences(s, ReleaseHold(FencesOf(s), h, s.clock));
            && s'.holds == s.holds[h := s.holds[h].(active := false)]
            && Concerns(s, s', a) && FencedBy(s, s', a) && Ready(s', a)
            && s'.deletions[a].requestedAt == s.deletions[a].requestedAt
  {
    assert HasActiveHold(s.holds, a);
    assert CoupledAt(s.holds, s.deletions[a], s.gens, a);
    LastHoldDecides(s.holds, h);
  }

  // No request is forgotten.

  /** Whatever happens after a request, it is still there: parked under a hold, or in force. */
  lemma RequestsAreNotForgotten(run: seq<Action>, later: seq<Action>, a: Attempt)
    ensures var s := Exec(Exec(Empty, run + [Delete(a)]), later);
            && a in s.deletions
            && (if HasActiveHold(s.holds, a) then s.deletions[a].work.state == Held
                else Fenced(s.gens, a) && s.deletions[a].generation == s.gens[a].number)
  {
    DeletionIsNoted(run, a);
    RequestsStayKnown(run + [Delete(a)], later, a);
    LaterFenceFacts(run + [Delete(a)], later);
    RequestCoupled(Exec(Exec(Empty, run + [Delete(a)]), later), a);
  }

  lemma RequestsStayKnown(run: seq<Action>, later: seq<Action>, a: Attempt)
    requires a in Exec(Empty, run).deletions
    ensures a in Exec(Exec(Empty, run), later).deletions
  {
    EmptyIsGood();
    RunKept(Empty, run);
    RunMoves(Exec(Empty, run), later);
  }

  lemma DeletionIsNoted(run: seq<Action>, a: Attempt)
    ensures a in Exec(Empty, run + [Delete(a)]).deletions
  {
    ExecDelete(run, a);
  }

  lemma RequestCoupled(s: State, a: Attempt)
    requires Coherent(FencesOf(s)) && a in s.deletions
    ensures if HasActiveHold(s.holds, a) then s.deletions[a].work.state == Held
            else Fenced(s.gens, a) && s.deletions[a].generation == s.gens[a].number
  {
    assert CoupledAt(s.holds, s.deletions[a], s.gens, a);
  }

  /** An attempt deleted under a hold is fenced and queued for erasure as soon as its last hold is released. */
  lemma LastReleaseDeletes(run: seq<Action>, later: seq<Action>, a: Attempt, h: nat)
    requires var s := Exec(Exec(Empty, run + [Delete(a)]), later); LastHold(s.holds, h) && s.holds[h].attempt == a
    ensures var s := Exec(Exec(Empty, run + [Delete(a)]), later); Ready(Apply(s, Release(h)), a)
  {
    RequestsAreNotForgotten(run, later, a);
    LaterFenceFacts(run + [Delete(a)], later);
    ApplyRelease(Exec(Exec(Empty, run + [Delete(a)]), later), h);
    LastReleaseQueues(Exec(Exec(Empty, run + [Delete(a)]), later), h, a);
  }

  // Leases on erasures.

  ghost predicate Reworks(s: State, s': State, a: Attempt) {
    && a in s.deletions && a in s'.deletions
    && s' == s.(deletions := s.deletions[a := s.deletions[a].(work := s'.deletions[a].work)])
  }

  /** A claimable request is leased for exactly the time asked for, and any other claim does nothing. */
  lemma ErasuresAreLeased(run: seq<Action>, a: Attempt, owner: string, seconds: nat)
    ensures var s, s' := Exec(Empty, run), Exec(Empty, run + [ClaimErasure(a, owner, seconds)]);
            if a in s.deletions && Claimable(s.deletions[a].work, s.clock) then
              && Reworks(s, s', a)
              && var w, w' := s.deletions[a].work, s'.deletions[a].work;
                 && Owns(w', Ticket(owner, w.generation + 1)) && w'.attempts == w.attempts + 1
                 && forall later: nat :: Claimable(w', later) <==> s.clock + seconds < later
            else s' == s
  {
    ExecAppend(Empty, run, ClaimErasure(a, owner, seconds));
  }

  /** A failed erasure is queued again exactly if fewer than five tries were made. */
  lemma ErasuresAreRetried(run: seq<Action>, a: Attempt, t: Ticket, g: nat)
    ensures var s, s' := Exec(Empty, run), Exec(Empty, run + [FailErasure(a, t, g)]);
            if a in s.deletions && Owns(s.deletions[a].work, t) && s.deletions[a].generation == g then
              && Reworks(s, s', a) && Sound(s'.deletions[a].work)
              && s'.deletions[a].work.attempts == s.deletions[a].work.attempts
              && s'.deletions[a].work.state == if s.deletions[a].work.attempts < 5 then Pending else Failed
            else s' == s
  {
    ExecAppend(Empty, run, FailErasure(a, t, g));
  }

  // Restored tombstones.

  /** Fences, holds and requests of the attempt are the same. */
  ghost predicate SameAt(f: Fences, f': Fences, a: Attempt) {
    && (a in f'.gens <==> a in f.gens) && (a in f.gens ==> f'.gens[a] == f.gens[a])
    && (a in f'.deletions <==> a in f.deletions) && (a in f.deletions ==> f'.deletions[a] == f.deletions[a])
    && (forall h :: h in f'.holds <==> h in f.holds)
    && (forall h :: h in f.holds ==> f'.holds[h].attempt == f.holds[h].attempt)
    && (forall h :: h in f.holds && f.holds[h].attempt == a ==> f'.holds[h] == f.holds[h])
  }

  /** The tombstone is in force and its erasure queued under a new lease generation, with no hold left. */
  ghost predicate Restored(f: Fences, f': Fences, t: Tombstone) {
    var a := t.attempt;
    && a in f'.gens && f'.gens[a] == Generation(t.generation, Some(t.completedAt))
    && !HasActiveHold(f'.holds, a)
    && a in f'.deletions
    && var d := f'.deletions[a];
       && d.generation == t.generation && d.requestedAt == t.requestedAt && d.completedAt.None?
       && d.work.state == Pending && d.work.attempts == 0 && Sound(d.work)
       && (a in f.deletions ==> f.deletions[a].work.generation < d.work.generation)
  }

  /** A tombstone behind the fence in place is passed over; any other is restored. */
  ghost predicate Accounted(f: Fences, f': Fences, t: Tombstone) {
    if t.attempt in f.gens && t.generation < f.gens[t.attempt].number then SameAt(f, f', t.attempt)
    else Restored(f, f', t)
  }

  predicate Unlisted(entries: seq<Tombstone>, a: Attempt) {
    forall i :: 0 <= i < |entries| ==> entries[i].attempt != a
  }

  /** The bundle is logged, each of its tombstones accounted for, and no other attempt touched. */
  ghost predicate Imports(s: State, s': State, b: Bundle) {
    && s' == s.(gens := s'.gens, holds := s'.holds, deletions := s'.deletions, imports := s.imports + {b})
    && (forall i :: 0 <= i < |b.entries| ==> Accounted(FencesOf(s), FencesOf(s'), b.entries[i]))
    && (forall a :: Unlisted(b.entries, a) ==> SameAt(FencesOf(s), FencesOf(s'), a))
  }

  lemma {:induction false} EntriesElsewhere(f: Fences, entries: seq<Tombstone>, a: Attempt)
    requires ApplyEntries(f, entries).Some?
    requires Unlisted(entries, a)
    ensures SameAt(f, ApplyEntries(f, entries).value, a)
    decreases |entries|
  {
    if entries != [] {
      EntriesElsewhere(ApplyEntry(f, entries[0]).value, entries[1..], a);
    }
  }

  lemma EntryAccounted(f: Fences, t: Tombstone)
    requires !Contradicted(f, t)
    ensures Accounted(f, ApplyEntry(f, t).value, t)
  {
  }

  lemma AccountedLater(f: Fences, f1: Fences, f2: Fences, t: Tombstone)
    requires Accounted(f, f1, t) && SameAt(f1, f2, t.attempt)
    ensures Accounted(f, f2, t)
  {
  }

  lemma AccountedBefore(f: Fences, f1: Fences, f2: Fences, t: Tombstone)
    requires SameAt(f, f1, t.attempt) && Accounted(f1, f2, t)
    ensures Accounted(f, f2, t)
  {
  }

  lemma {:induction false} EntriesAccounted(f: Fences, entries: seq<Tombstone>)
    requires Canonical(entries) && ApplyEntries(f, entries).Some?
    ensures forall i :: 0 <= i < |entries| ==> Accounted(f, ApplyEntries(f, entries).value, entries[i])
    decreases |entries|
  {
    if entries != [] {
      var t, f1, f2 := entries[0], ApplyEntry(f, entries[0]).value, ApplyEntries(f, entries).value;
      forall i | 1 <= i < |entries|
        ensures entries[i].attempt != t.attempt
      {
        Recovery.BeforeTrichotomy(t.attempt, entries[i].attempt);
      }
      EntryAccounted(f, t);
      EntriesElsewhere(f1, entries[1..], t.attempt);
      AccountedLater(f, f1, f2, t);
      EntriesAccounted(f1, entries[1..]);
      forall i | 1 <= i < |entries|
        ensures Accounted(f, f2, entries[i])
      {
        EntriesElsewhere(f, [t], entries[i].attempt);
        assert entries[1..][i - 1] == entries[i];
        AccountedBefore(f, f1, f2, entries[i]);
      }
    }
  }

  lemma ImportAccounts(s: State, b: Bundle)
    requires Numbered(s.gens) && Acceptable(b) && b !in s.imports
    ensures Imports(s, Import(s, b), b)
  {
    var f := FencesOf(s);
    NeverContradicted(f, b.entries);
    var f' := ApplyEntries(f, b.entries).value;
    assert FencesOf(Import(s, b)) == f';
    EntriesAccounted(f, b.entries);
    UnlistedElsewhere(f, b.entries);
  }

  lemma UnlistedElsewhere(f: Fences, entries: seq<Tombstone>)
    requires ApplyEntries(f, entries).Some?
    ensures forall a :: Unlisted(entries, a) ==> SameAt(f, ApplyEntries(f, entries).value, a)
  {
    forall a | Unlisted(entries, a)
      ensures SameAt(f, ApplyEntries(f, entries).value, a)
    {
      EntriesElsewhere(f, entries, a);
    }
  }

  lemma {:induction false} NeverContradicted(f: Fences, entries: seq<Tombstone>)
    requires Numbered(f.gens) && forall i :: 0 <= i < |entries| ==> Portable(entries[i])
    ensures ApplyEntries(f, entries).Some?
    decreases |entries|
  {
    if entries != [] {
      NeverContradicted(ApplyEntry(f, entries[0]).value, entries[1..]);
    }
  }

  /** Importing a new valid bundle restores every tombstone that is not behind, and touches no other attempt. */
  lemma ImportsQueueErasures(run: seq<Action>, b: Bundle)
    requires Acceptable(b) && b !in Exec(Empty, run).imports
    ensures Imports(Exec(Empty, run), Exec(Empty, run + [ImportTombstones(b)]), b)
  {
    FenceFacts(run);
    ExecAppend(Empty, run, ImportTombstones(b));
    ImportAccounts(Exec(Empty, run), b);
  }
}
