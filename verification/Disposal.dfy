/**
 What leaves the object store and when, in any state that a run can reach: which objects a completed
 erasure takes with it, what the collector and the auditor decide, and what expiry hands to the collector.
 */
module Disposal {
  import opened Prelude
  import opened Leases
  import opened Catalog
  import opened Erasure
  import opened Collection
  import opened Reporting
  import opened Invariants
  import opened ErasureProofs
  import opened Lifecycle
  import opened Progress
  import Restore

  lemma DisposalFacts(run: seq<Action>)
    ensures var s := Exec(Empty, run);
            && Coherent(FencesOf(s))
            && Verified(s.store, s.candidates)
            && Reservable(s.reservations)
  {
    EmptyIsGood();
    RunKept(Empty, run);
  }

  // Erasure.

  /** No manifest and no unexpired reservation of another attempt names the object. */
  ghost predicate Exclusive(s: State, a: Attempt, key: Key) {
    && (forall r :: r in s.manifests && s.manifests[r].key == key ==> s.manifests[r].attempt == a)
    && (forall x :: x in s.reservations && s.reservations[x].key == key && s.reservations[x].state != Expired ==>
          s.reservations[x].attempt == a)
  }

  /** The object is a payload of the attempt that nobody shares, or an artifact of one of its revisions. */
  ghost predicate Disposable(s: State, a: Attempt, key: Key) {
    || (exists r :: r in s.manifests && s.manifests[r].attempt == a && s.manifests[r].key == key && Exclusive(s, a, key))
    || (exists v :: v in s.revisions && s.revisions[v].attempt == a
                    && (s.revisions[v].reportKey == key || s.revisions[v].projectionKey == key))
  }

  lemma DeletableIsDisposable(s: State, a: Attempt, key: Key)
    ensures key in Deletable(s, a) <==> Disposable(s, a, key)
  {
    assert SharedKey(s, a, key) <==> !Exclusive(s, a, key);
  }

  /** Exactly the disposable objects left the store, with the collector's rows about them. */
  ghost predicate DisposesObjects(s: State, s': State, a: Attempt) {
    && (forall k :: k in s'.store <==> k in s.store && !Disposable(s, a, k))
    && (forall k :: k in s'.store ==> s'.store[k] == s.store[k])
    && (forall k :: k in s'.candidates <==> k in s.candidates && !Disposable(s, a, k))
    && (forall k :: k in s'.candidates ==> s'.candidates[k] == s.candidates[k])
  }

  /** Exactly the rows of the attempt left their tables. */
  ghost predicate DisposesRows(s: State, s': State, a: Attempt) {
    && (forall r :: r in s'.manifests <==> r in s.manifests && s.manifests[r].attempt != a)
    && (forall r :: r in s'.manifests ==> s'.manifests[r] == s.manifests[r])
    && (forall x :: x in s'.reservations <==> x in s.reservations && s.reservations[x].attempt != a)
    && (forall x :: x in s'.reservations ==> s'.reservations[x] == s.reservations[x])
    && (forall v :: v in s'.revisions <==> v in s.revisions && s.revisions[v].attempt != a)
    && (forall v :: v in s'.revisions ==> s'.revisions[v] == s.revisions[v])
    && (forall b :: b in s'.heads <==> b in s.heads && b != a)
    && (forall b :: b in s'.heads ==> s'.heads[b] == s.heads[b])
    && (forall b :: b in s'.records <==> b in s.records && b != a)
    && (forall b :: b in s'.records ==> s'.records[b] == s.records[b])
  }

  /** Exactly the queued work about the attempt, and its normalized segments, are gone. */
  ghost predicate DisposesWork(s: State, s': State, a: Attempt) {
    && (forall r :: r in s'.normalized <==> r in s.normalized && !(r in s.manifests && s.manifests[r].attempt == a))
    && (forall r :: r in s'.normalized ==> s'.normalized[r] == s.normalized[r])
    && (forall i :: i in s'.outbox <==> i in s.outbox && !About(s, s.outbox[i].event, a))
    && (forall i :: i in s'.outbox ==> s'.outbox[i] == s.outbox[i])
  }

  ghost predicate About(s: State, e: Event, a: Attempt) {
    || (e.ReportRequested? && e.attempt == a)
    || (e.SegmentAdmitted? && e.receipt in s.manifests && s.manifests[e.receipt].attempt == a)
  }

  /** The request is completed now, and nothing else changed in the remaining tables. */
  ghost predicate Finishes(s: State, s': State, a: Attempt) {
    && a in s.deletions && a in s'.deletions
    && s'.deletions == s.deletions[a := s'.deletions[a]]
    && s'.deletions[a].work.state == Completed && Sound(s'.deletions[a].work)
    && s'.deletions[a].generation == s.deletions[a].generation
    && s'.deletions[a].requestedAt == s.deletions[a].requestedAt
    && s'.deletions[a].completedAt == Some(s.clock)
    && s'.gens == s.gens && s'.holds == s.holds && s'.imports == s.imports && s'.admitted == s.admitted
    && s'.nextId == s.nextId && s'.clock == s.clock
  }

  lemma ErasedDisposesObjects(s: State, a: Attempt)
    requires a in s.deletions
    ensures DisposesObjects(s, Erased(s, a, Deletable(s, a)), a)
  {
    forall k
      ensures k in Deletable(s, a) <==> Disposable(s, a, k)
    {
      DeletableIsDisposable(s, a, k);
    }
  }

  lemma ErasedDisposesRows(s: State, a: Attempt, gone: set<Key>)
    requires a in s.deletions
    ensures DisposesRows(s, Erased(s, a, gone), a)
  {
  }

  lemma ErasedDisposesWork(s: State, a: Attempt, gone: set<Key>)
    requires a in s.deletions
    ensures DisposesWork(s, Erased(s, a, gone), a) && Finishes(s, Erased(s, a, gone), a)
  {
  }

  ghost predicate Completes(s: State, s': State, a: Attempt) {
    && a in s'.deletions && s'.deletions[a].work.state == Completed
    && !(a in s.deletions && s.deletions[a].work.state == Completed)
  }

  lemma FencingCompletesNothing(s: State, act: Action, a: Attempt)
    requires Coherent(FencesOf(s))
    requires act.Place? || act.Release? || act.Delete? || act.ClaimErasure? || act.FailErasure?
    ensures !Completes(s, Apply(s, act), a)
  {
    if act.ClaimErasure? || act.FailErasure? {
      LeasingCompletesNothing(s, act, a);
    } else {
      HoldingCompletesNothing(s, act, a);
    }
  }

  lemma HoldingCompletesNothing(s: State, act: Action, a: Attempt)
    requires Coherent(FencesOf(s)) && (act.Place? || act.Release? || act.Delete?)
    ensures !Completes(s, Apply(s, act), a)
  {
    var f := FencesOf(s);
    match act {
      case Place(h, b, reason) => PlaceHoldOrderly(f, b in s.records || b in s.gens, h, b, reason);
      case Release(h) => ReleaseHoldOrderly(f, h, s.clock);
      case Delete(b) => DeleteAttemptOrderly(f, b, s.clock);
    }
  }

  lemma LeasingCompletesNothing(s: State, act: Action, a: Attempt)
    requires Coherent(FencesOf(s)) && (act.ClaimErasure? || act.FailErasure?)
    ensures !Completes(s, Apply(s, act), a)
  {
    var f := FencesOf(s);
    match act {
      case ClaimErasure(b, owner, d) => ClaimDeletionOrderly(f, b, owner, s.clock, d);
      case FailErasure(b, t, g) => FailDeletionOrderly(f, b, t, g);
    }
  }

  lemma ImportCompletesNothing(s: State, b: Bundle, a: Attempt)
    requires Coherent(FencesOf(s))
    ensures !Completes(s, Import(s, b), a)
  {
    if Importable(s, b) {
      ApplyEntriesOrderly(FencesOf(s), b.entries);
    }
  }

  /** Only an erasure under a matching lease completes a request. */
  lemma CompletingStep(s: State, act: Action, a: Attempt)
    requires Coherent(FencesOf(s)) && Completes(s, Apply(s, act), a)
    ensures a in s.deletions && Apply(s, act) == Erased(s, a, Deletable(s, a))
  {
    if act.EraseAttempt? {
      var t, g := act.ticket, act.generation;
      if Matches(FencesOf(s), act.attempt, t, g) {
        LeaseIsCurrent(FencesOf(s), act.attempt, t, g);
      }
    } else if act.ImportTombstones? {
      ImportCompletesNothing(s, act.bundle, a);
    } else if Restore.Fencing(act) {
      FencingCompletesNothing(s, act, a);
    } else {
      Restore.QuietStep(s, act);
    }
  }

  /**
   Whatever step completes the deletion of an attempt, in any run: every payload that no other attempt
   names and both artifacts of every revision are out of the store, nothing else left it, and the rows
   that went are exactly those of the attempt.
   */
  lemma CompletedErasuresDispose(run: seq<Action>, act: Action, a: Attempt)
    requires Completes(Exec(Empty, run), Exec(Empty, run + [act]), a)
    ensures var s, s' := Exec(Empty, run), Exec(Empty, run + [act]);
            DisposesObjects(s, s', a) && DisposesRows(s, s', a) && DisposesWork(s, s', a) && Finishes(s, s', a)
  {
    DisposalFacts(run);
    ExecAppend(Empty, run, act);
    var s := Exec(Empty, run);
    CompletingStep(s, act, a);
    ErasedDisposesObjects(s, a);
    ErasedDisposesRows(s, a, Deletable(s, a));
    ErasedDisposesWork(s, a, Deletable(s, a));
  }

  /** A worker under its lease always completes, unless its transaction rolls back. */
  lemma ErasuresComplete(run: seq<Action>, a: Attempt, t: Ticket, g: nat)
    requires Matches(FencesOf(Exec(Empty, run)), a, t, g)
    ensures Completes(Exec(Empty, run), Exec(Empty, run + [EraseAttempt(a, t, g)]), a)
  {
    DisposalFacts(run);
    ExecAppend(Empty, run, EraseAttempt(a, t, g));
    LeaseIsCurrent(FencesOf(Exec(Empty, run)), a, t, g);
  }

  /**
   Whatever the tables hold: under a hold an erasure deletes nothing and parks the request. By
   `ErasuresComplete` no run gets there, since placing a hold withdraws the lease.
   */
  lemma HeldErasuresPark(s: State, a: Attempt, t: Ticket, g: nat)
    requires Matches(FencesOf(s), a, t, g) && HasActiveHold(s.holds, a)
    ensures var d := s.deletions[a];
            Erase(s, a, t, g) == s.(deletions :=
              s.deletions[a := d.(work := Work(Held, d.work.attempts, None, d.work.generation, None))])
    ensures forall gone: set<Key> :: EraseRolledBack(s, a, t, g, gone) == s
  {
    assert s.store - {} == s.store;
  }

  /** An erasure that rolls back has deleted those of the same objects that it came to, and changes nothing else. */
  lemma RolledBackErasuresKeepRows(run: seq<Action>, a: Attempt, t: Ticket, g: nat, gone: set<Key>)
    ensures var s, s' := Exec(Empty, run), Exec(Empty, run + [EraseAndRollBack(a, t, g, gone)]);
            && s' == s.(store := s'.store)
            && (forall k :: k in s'.store ==> k in s.store && s'.store[k] == s.store[k])
            && (forall k :: k in s.store && k !in s'.store <==>
                  k in s.store && k in gone && Disposable(s, a, k) && Matches(FencesOf(s), a, t, g))
  {
    DisposalFacts(run);
    ExecAppend(Empty, run, EraseAndRollBack(a, t, g, gone));
    var s := Exec(Empty, run);
    if Matches(FencesOf(s), a, t, g) {
      LeaseIsCurrent(FencesOf(s), a, t, g);
    }
    forall k
      ensures k in Deletable(s, a) <==> Disposable(s, a, k)
    {
      DeletableIsDisposable(s, a, k);
    }
  }

  // Collection and audit.

  /** Some manifest, unexpired reservation or revision names the object. */
  ghost predicate Named(s: State, key: Key) {
    || (exists r :: r in s.manifests && s.manifests[r].key == key)
    || (exists x :: x in s.reservations && s.reservations[x].key == key
                    && (s.reservations[x].state == Reserved || s.reservations[x].state == Committed))
    || (exists v :: v in s.revisions && (s.revisions[v].reportKey == key || s.revisions[v].projectionKey == key))
  }

  lemma NamedIsReferenced(s: State, key: Key)
    ensures Named(s, key) <==> Referenced(s, key)
  {
    if x :| x in s.reservations && s.reservations[x].key == key && s.reservations[x].state != Expired {
      assert s.reservations[x].state == Reserved || s.reservations[x].state == Committed;
    }
  }

  /** Only the row about the object changed; it still is about the same content. */
  ghost predicate OnlyCandidate(s: State, s': State, key: Key) {
    && key in s.candidates && key in s'.candidates
    && s'.candidates == s.candidates[key := s'.candidates[key]]
    && s'.candidates[key].content == s.candidates[key].content
    && s' == s.(candidates := s'.candidates, store := s'.store)
  }

  ghost predicate Judges(s: State, s': State, key: Key, state: CandidateState) {
    && OnlyCandidate(s, s', key)
    && s'.candidates[key] == s.candidates[key].(
         state := state, attempts := s.candidates[key].attempts + 1, completedAt := Some(s.clock))
  }

  /**
   The collector reclaims an object exactly if its time has come, nothing names it and it is there;
   otherwise the object stays, and the row says why.
   */
  lemma CollectorDecides(run: seq<Action>, key: Key)
    ensures var s, s' := Exec(Empty, run), Exec(Empty, run + [CollectObject(key)]);
            if !(key in s.candidates && s.candidates[key].state == Waiting && s.candidates[key].notBefore <= s.clock) then s' == s
            else if Named(s, key) then s'.store == s.store && Judges(s, s', key, Protected)
            else if key in s.store then s'.store == s.store - {key} && Judges(s, s', key, Deleted)
            else s'.store == s.store && Judges(s, s', key, Missing)
  {
    DisposalFacts(run);
    ExecAppend(Empty, run, CollectObject(key));
    NamedIsReferenced(Exec(Empty, run), key);
  }

  /** If the collector's transaction rolls back, the object is gone all the same and the row is as it was. */
  lemma RolledBackCollections(run: seq<Action>, key: Key)
    ensures var s := Exec(Empty, run);
            Exec(Empty, run + [CollectAndRollBack(key)]) == s.(store := Exec(Empty, run + [CollectObject(key)]).store)
  {
    ExecAppend(Empty, run, CollectObject(key));
    ExecAppend(Empty, run, CollectAndRollBack(key));
    OnlyTheStoreIsLost(Exec(Empty, run), key);
  }

  lemma OnlyTheStoreIsLost(s: State, key: Key)
    ensures Apply(s, CollectAndRollBack(key)) == s.(store := Apply(s, CollectObject(key)).store)
  {
  }

  /** An unreferenced object with foreign content is kept: retried after 30, 60, 120 and 240 seconds, then set aside. */
  lemma CorruptObjectsAreKept(s: State, key: Key)
    requires Due(s, key) && !Referenced(s, key)
    requires key in s.store && s.store[key] != s.candidates[key].content
    ensures var s', n := Collect(s, key), s.candidates[key].attempts;
            && s'.store == s.store && OnlyCandidate(s, s', key) && s'.candidates[key].attempts == n + 1
            && (n < 4 ==>
                  s'.candidates[key].state == Waiting
                  && s'.candidates[key].notBefore == s.clock + [30, 60, 120, 240][n])
            && (4 <= n ==> s'.candidates[key].state == Quarantined && s'.candidates[key].completedAt == Some(s.clock))
  {
    assert Pow2(0) == 1 && Pow2(1) == 2 && Pow2(2) == 4 && Pow2(3) == 8;
  }

  /** Under audit is a protected object whose time has come, or one set aside an interval ago. */
  ghost predicate UnderAudit(s: State, key: Key, interval: nat) {
    && key in s.candidates
    && (|| (s.candidates[key].state == Protected && s.candidates[key].notBefore <= s.clock)
        || (s.candidates[key].state == Quarantined && s.candidates[key].completedAt.Some?
            && s.candidates[key].completedAt.value + interval <= s.clock))
  }

  /** The auditor decides by two facts: whether a row names the object, and whether it is there. */
  lemma AuditorDecides(run: seq<Action>, key: Key, grace: nat, interval: nat)
    ensures var s, s' := Exec(Empty, run), Exec(Empty, run + [AuditObject(key, grace, interval)]);
            if !UnderAudit(s, key, interval) then s' == s
            else
              && OnlyCandidate(s, s', key) && s'.store == s.store
              && var c, c' := s.candidates[key], s'.candidates[key];
                 if Named(s, key) then
                   c' == c.(state := if key in s.store then Protected else Quarantined,
                            notBefore := s.clock + interval, completedAt := Some(s.clock))
                 else if key in s.store then
                   c' == c.(state := Waiting, attempts := 0, notBefore := s.clock + grace, completedAt := None)
                 else c' == c.(state := Missing, completedAt := Some(s.clock))
  {
    DisposalFacts(run);
    ExecAppend(Empty, run, AuditObject(key, grace, interval));
    NamedIsReferenced(Exec(Empty, run), key);
  }

  // Expiry.

  /** The reservation is abandoned: still open more than `ttl` after it was made. */
  ghost predicate Overdue(s: State, x: Range, ttl: nat) {
    x in s.reservations && s.reservations[x].state == Reserved && s.reservations[x].createdAt + ttl < s.clock
  }

  /** Some abandoned reservation of the batch is for the object. */
  ghost predicate Released(s: State, batch: seq<Range>, ttl: nat, key: Key) {
    exists x :: x in batch && Overdue(s, x, ttl) && s.reservations[x].key == key
  }

  /** Exactly the abandoned reservations of the batch expire, and the collector learns of their objects. */
  ghost predicate Sweeps(s: State, s': State, batch: seq<Range>, ttl: nat, grace: nat) {
    && s' == s.(reservations := s'.reservations, candidates := s'.candidates)
    && SweepsRanges(s, s', batch, ttl)
    && SweepsObjects(s, s', batch, ttl, grace)
  }

  ghost predicate SweepsRanges(s: State, s': State, batch: seq<Range>, ttl: nat) {
    && s'.reservations.Keys == s.reservations.Keys
    && (forall x :: x in s.reservations ==>
          s'.reservations[x] == if x in batch && Overdue(s, x, ttl) then s.reservations[x].(state := Expired) else s.reservations[x])
  }

  ghost predicate SweepsObjects(s: State, s': State, batch: seq<Range>, ttl: nat, grace: nat) {
    && (forall k :: k in s'.candidates <==> k in s.candidates || Released(s, batch, ttl, k))
    && (forall k :: k in s'.candidates ==>
          s'.candidates[k] == if k in s.candidates then s.candidates[k] else Candidate(k.content, Waiting, s.clock + grace, 0, None))
  }

  lemma OneSwept(s: State, x: Range, ttl: nat, grace: nat)
    requires Reservable(s.reservations)
    ensures Sweeps(s, ExpireOne(s, x, ttl, grace), [x], ttl, grace) && Reservable(ExpireOne(s, x, ttl, grace).reservations)
  {
    assert forall k :: Released(s, [x], ttl, k) <==> Overdue(s, x, ttl) && s.reservations[x].key == k;
  }

  lemma OverdueInTurn(s: State, s1: State, x: Range, y: Range, ttl: nat)
    requires SweepsRanges(s, s1, [x], ttl) && s1.clock == s.clock
    ensures Overdue(s1, y, ttl) <==> Overdue(s, y, ttl) && y != x
    ensures y in s.reservations ==> s1.reservations[y].key == s.reservations[y].key
  {
    assert y in [x] <==> y == x;
  }

  lemma RangesInTurn(s: State, s1: State, s2: State, batch: seq<Range>, ttl: nat)
    requires batch != [] && s1.clock == s.clock
    requires SweepsRanges(s, s1, [batch[0]], ttl) && SweepsRanges(s1, s2, batch[1..], ttl)
    ensures SweepsRanges(s, s2, batch, ttl)
  {
    forall y | y in s.reservations
      ensures s2.reservations[y] == if y in batch && Overdue(s, y, ttl) then s.reservations[y].(state := Expired) else s.reservations[y]
    {
      OverdueInTurn(s, s1, batch[0], y, ttl);
      assert y in batch <==> y == batch[0] || y in batch[1..];
    }
  }

  lemma ReleasedInTurn(s: State, s1: State, batch: seq<Range>, ttl: nat, k: Key)
    requires batch != [] && s1.clock == s.clock && SweepsRanges(s, s1, [batch[0]], ttl)
    ensures Released(s, batch, ttl, k) <==> Released(s, [batch[0]], ttl, k) || Released(s1, batch[1..], ttl, k)
  {
    if Released(s, batch, ttl, k) {
      var x :| x in batch && Overdue(s, x, ttl) && s.reservations[x].key == k;
      OverdueInTurn(s, s1, batch[0], x, ttl);
      assert x == batch[0] || x in batch[1..];
    }
    if Released(s1, batch[1..], ttl, k) {
      var x :| x in batch[1..] && Overdue(s1, x, ttl) && s1.reservations[x].key == k;
      OverdueInTurn(s, s1, batch[0], x, ttl);
    }
  }

  lemma ObjectsInTurn(s: State, s1: State, s2: State, batch: seq<Range>, ttl: nat, grace: nat)
    requires batch != [] && s1.clock == s.clock && SweepsRanges(s, s1, [batch[0]], ttl)
    requires SweepsObjects(s, s1, [batch[0]], ttl, grace) && SweepsObjects(s1, s2, batch[1..], ttl, grace)
    ensures SweepsObjects(s, s2, batch, ttl, grace)
  {
    forall k
      ensures Released(s, batch, ttl, k) <==> Released(s, [batch[0]], ttl, k) || Released(s1, batch[1..], ttl, k)
    {
      ReleasedInTurn(s, s1, batch, ttl, k);
    }
  }

  lemma {:induction false} SweepSweeps(s: State, batch: seq<Range>, ttl: nat, grace: nat)
    requires Reservable(s.reservations)
    ensures Sweeps(s, Sweep(s, batch, ttl, grace), batch, ttl, grace)
    decreases |batch|
  {
    if batch != [] {
      var s1 := ExpireOne(s, batch[0], ttl, grace);
      OneSwept(s, batch[0], ttl, grace);
      SweepSweeps(s1, batch[1..], ttl, grace);
      RangesInTurn(s, s1, Sweep(s, batch, ttl, grace), batch, ttl);
      ObjectsInTurn(s, s1, Sweep(s, batch, ttl, grace), batch, ttl, grace);
    }
  }

  lemma SweepsExpire(run: seq<Action>, batch: seq<Range>, ttl: nat, grace: nat)
    ensures Sweeps(Exec(Empty, run), Exec(Empty, run + [SweepReservations(batch, ttl, grace)]), batch, ttl, grace)
  {
    DisposalFacts(run);
    ExecAppend(Empty, run, SweepReservations(batch, ttl, grace));
    SweepSweeps(Exec(Empty, run), batch, ttl, grace);
  }

  /** An abandoned upload is reclaimed: swept, and collected once the grace period is over. */
  lemma AbandonedUploadsAreReclaimed(run: seq<Action>, x: Range, ttl: nat, grace: nat)
    requires var s := Exec(Empty, run);
             && Overdue(s, x, ttl) && s.reservations[x].key !in s.candidates
             && (forall y :: y in s.reservations && y != x && s.reservations[y].key == s.reservations[x].key ==>
                   s.reservations[y].state == Expired)
             && (forall r :: r in s.manifests ==> s.manifests[r].key != s.reservations[x].key)
             && (forall v :: v in s.revisions ==>
                   s.revisions[v].reportKey != s.reservations[x].key && s.revisions[v].projectionKey != s.reservations[x].key)
    ensures var key := Exec(Empty, run).reservations[x].key;
            key !in Exec(Exec(Empty, run), [SweepReservations([x], ttl, grace), Tick(grace), CollectObject(key)]).store
  {
    DisposalFacts(run);
    Reclaimed(Exec(Empty, run), x, ttl, grace);
  }

  lemma Reclaimed(s: State, x: Range, ttl: nat, grace: nat)
    requires Verified(s.store, s.candidates) && Reservable(s.reservations)
    requires Overdue(s, x, ttl) && s.reservations[x].key !in s.candidates
    requires forall y :: y in s.reservations && y != x && s.reservations[y].key == s.reservations[x].key ==>
               s.reservations[y].state == Expired
    requires forall r :: r in s.manifests ==> s.manifests[r].key != s.reservations[x].key
    requires forall v :: v in s.revisions ==>
               s.revisions[v].reportKey != s.reservations[x].key && s.revisions[v].projectionKey != s.reservations[x].key
    ensures var key := s.reservations[x].key;
            key !in Exec(s, [SweepReservations([x], ttl, grace), Tick(grace), CollectObject(key)]).store
  {
    var key := s.reservations[x].key;
    SweptIsCollected(s, Sweep(s, [x], ttl, grace), x, ttl, grace, key);
    SweepWaitCollect(s, x, ttl, grace, key);
  }

  lemma SweepWaitCollect(s: State, x: Range, ttl: nat, grace: nat, key: Key)
    ensures Exec(s, [SweepReservations([x], ttl, grace), Tick(grace), CollectObject(key)])
         == Collect(Ticked(Sweep(s, [x], ttl, grace), grace), key)
  {
    ThreeSteps(s, SweepReservations([x], ttl, grace), Tick(grace), CollectObject(key));
  }

  lemma SweptIsCollected(s: State, s1: State, x: Range, ttl: nat, grace: nat, key: Key)
    requires Verified(s.store, s.candidates) && Reservable(s.reservations)
    requires Overdue(s, x, ttl) && s.reservations[x].key == key && key !in s.candidates
    requires forall y :: y in s.reservations && y != x && s.reservations[y].key == key ==> s.reservations[y].state == Expired
    requires forall r :: r in s.manifests ==> s.manifests[r].key != key
    requires forall v :: v in s.revisions ==> s.revisions[v].reportKey != key && s.revisions[v].projectionKey != key
    requires s1 == Sweep(s, [x], ttl, grace)
    ensures key !in Collect(Ticked(s1, grace), key).store
  {
    SweepSweeps(s, [x], ttl, grace);
    assert Released(s, [x], ttl, key);
    SweptIsUnnamed(s, s1, x, ttl, grace, key);
    UnnamedIsCollected(Ticked(s1, grace), key);
  }

  lemma UnnamedIsCollected(s: State, key: Key)
    requires Due(s, key) && !Referenced(s, key) && s.candidates[key].content == key.content
    requires key in s.store ==> s.store[key] == key.content
    ensures key !in Collect(s, key).store
  {
  }

  lemma SweptIsUnnamed(s: State, s1: State, x: Range, ttl: nat, grace: nat, key: Key)
    requires SweepsRanges(s, s1, [x], ttl) && s1.manifests == s.manifests && s1.revisions == s.revisions
    requires Overdue(s, x, ttl) && s.reservations[x].key == key
    requires forall y :: y in s.reservations && y != x && s.reservations[y].key == key ==> s.reservations[y].state == Expired
    requires forall r :: r in s.manifests ==> s.manifests[r].key != key
    requires forall v :: v in s.revisions ==> s.revisions[v].reportKey != key && s.revisions[v].projectionKey != key
    ensures !Referenced(Ticked(s1, grace), key)
  {
    assert forall y :: y in [x] <==> y == x;
  }

  lemma ThreeSteps(s: State, x: Action, y: Action, z: Action)
    ensures Exec(s, [x, y, z]) == Apply(Apply(Apply(s, x), y), z)
  {
    var s1 := Apply(s, x);
    assert [x, y, z][1..] == [y, z] && [y, z][1..] == [z] && [z][1..] == [];
    assert Exec(s, [x, y, z]) == Exec(s1, [y, z]);
    assert Exec(s1, [y, z]) == Exec(Apply(s1, y), [z]);
    assert Exec(Apply(s1, y), [z]) == Exec(Apply(Apply(s1, y), z), []);
  }

  // Artifacts that are about to be written.

  /** A new or spent row waits from now on for the grace period; a row in use is left alone. */
  ghost predicate Expected(candidates: map<Key, Candidate>, candidates': map<Key, Candidate>, key: Key, notBefore: nat) {
    && key in candidates'
    && (if key in candidates && (candidates[key].state == Waiting || candidates[key].state == Protected)
        then candidates'[key] == candidates[key]
        else candidates'[key] == Candidate(key.content, Waiting, notBefore, 0, None))
  }

  /** Only the two artifacts are affected. */
  ghost predicate Expects(s: State, s': State, p: Key, q: Key, notBefore: nat) {
    && s' == s.(candidates := s'.candidates)
    && Expected(s.candidates, s'.candidates, p, notBefore)
    && Expected(s.candidates, s'.candidates, q, notBefore)
    && (forall k :: k != p && k != q ==> (k in s'.candidates <==> k in s.candidates))
    && (forall k :: k != p && k != q && k in s.candidates ==> s'.candidates[k] == s.candidates[k])
  }

  lemma ArtifactsAreExpected(run: seq<Action>, p: Key, q: Key, grace: nat)
    ensures var s := Exec(Empty, run);
            Expects(s, Exec(Empty, run + [ReserveReport(p, q, grace)]), p, q, s.clock + grace)
  {
    ExecReserveReport(run, p, q, grace);
    CandidatesAreFaithful(run);
    BothExpected(Exec(Empty, run), p, q, grace);
  }

  lemma CandidatesAreFaithful(run: seq<Action>)
    ensures Faithful(Exec(Empty, run).candidates)
  {
    DisposalFacts(run);
  }

  lemma ExecReserveReport(run: seq<Action>, p: Key, q: Key, grace: nat)
    ensures Exec(Empty, run + [ReserveReport(p, q, grace)]) == Reporting.ReserveArtifacts(Exec(Empty, run), p, q, grace)
  {
    ExecAppend(Empty, run, ReserveReport(p, q, grace));
  }

  lemma OneExpected(candidates: map<Key, Candidate>, key: Key, notBefore: nat)
    requires Faithful(candidates)
    ensures Expected(candidates, WithCandidate(candidates, key, notBefore), key, notBefore)
    ensures forall k :: k != key ==> (k in WithCandidate(candidates, key, notBefore) <==> k in candidates)
    ensures forall k :: k != key && k in candidates ==> WithCandidate(candidates, key, notBefore)[k] == candidates[k]
    ensures Faithful(WithCandidate(candidates, key, notBefore))
  {
  }

  lemma ExpectedInTurn(candidates: map<Key, Candidate>, p: Key, q: Key, notBefore: nat)
    requires Faithful(candidates)
    ensures var candidates' := WithCandidates(candidates, p, q, notBefore);
            && Expected(candidates, candidates', p, notBefore)
            && Expected(candidates, candidates', q, notBefore)
            && (forall k :: k != p && k != q ==> (k in candidates' <==> k in candidates))
            && (forall k :: k != p && k != q && k in candidates ==> candidates'[k] == candidates[k])
  {
    OneExpected(candidates, p, notBefore);
    OneExpected(WithCandidate(candidates, p, notBefore), q, notBefore);
  }

  lemma BothExpected(s: State, p: Key, q: Key, grace: nat)
    requires Faithful(s.candidates)
    ensures Expects(s, Reporting.ReserveArtifacts(s, p, q, grace), p, q, s.clock + grace)
  {
    ExpectedInTurn(s.candidates, p, q, s.clock + grace);
    assert Reporting.ReserveArtifacts(s, p, q, grace) == s.(candidates := WithCandidates(s.candidates, p, q, s.clock + grace));
  }
}
