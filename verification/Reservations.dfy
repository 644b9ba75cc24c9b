/**
 Committed reservations and the manifests behind them. A reservation is found by its range and not by
 its attempt, so one attempt may commit the reservation of another, and lose the manifest with it.
 */
module Reservations {
  import opened Prelude
  import opened Leases
  import opened Catalog
  import opened Admission
  import opened Erasure
  import opened Collection
  import opened Reporting
  import opened Invariants
  import opened GenerationProofs
  import opened ReportingProofs
  import opened Lifecycle
  import opened Progress

  /** The segment behind a committed range is there, or went with another attempt that was deleted. */
  ghost predicate Behind(s: State, x: Range, r: nat) {
    && x in s.reservations && r in s.admitted && s.admitted[r].range == x
    && (r in s.manifests || (Fenced(s.gens, s.admitted[r].attempt) && s.admitted[r].attempt != s.reservations[x].attempt))
  }

  ghost predicate Backed(s: State) {
    forall x :: x in s.reservations && s.reservations[x].state == Committed ==> exists r :: Behind(s, x, r)
  }

  /** Manifests and their history are kept, fences stay, and no range becomes committed. */
  ghost predicate Steady(s: State, s': State) {
    && Advances(s.gens, s'.gens)
    && (forall r :: r in s.manifests && r in s.admitted ==> r in s'.manifests)
    && (forall r :: r in s.admitted ==> r in s'.admitted && s'.admitted[r] == s.admitted[r])
    && (forall x :: x in s'.reservations && s'.reservations[x].state == Committed ==>
          x in s.reservations && s'.reservations[x] == s.reservations[x])
  }

  lemma SteadyBacked(s: State, s': State)
    requires Backed(s) && Steady(s, s')
    ensures Backed(s')
  {
    forall x | x in s'.reservations && s'.reservations[x].state == Committed
      ensures exists r :: Behind(s', x, r)
    {
      var r :| Behind(s, x, r);
      assert Behind(s', x, r);
    }
  }

  /** Steps that leave admitted and reserved ranges, and the index over them, alone. */
  ghost predicate Aside(s: State, s': State) {
    && s'.reservations == s.reservations && s'.manifests == s.manifests && s'.admitted == s.admitted
    && s'.records == s.records
  }

  lemma StoreActionAside(s: State, act: Action)
    requires act.Tick? || act.PutObject? || act.CollectObject? || act.CollectAndRollBack? || act.AuditObject?
    ensures Aside(s, Apply(s, act))
  {
  }

  lemma SideActionAside(s: State, act: Action)
    requires act.EraseAndRollBack? || act.ReserveReport? || act.ImportTombstones?
    ensures Aside(s, Apply(s, act))
  {
  }

  lemma RequestActionAside(s: State, act: Action)
    requires act.Place? || act.Release? || act.Delete? || act.ClaimErasure? || act.FailErasure?
    ensures Aside(s, Apply(s, act))
  {
  }

  lemma AdvancedAside(s: State, a: Attempt, g: nat, inputs: set<nat>)
    ensures Aside(s, Advanced(s, a, g, inputs))
  {
    if exists v :: SameInputs(s, v, a, g, inputs) {
    } else {
      assert Advanced(s, a, g, inputs) == Appending(s, a, g, inputs);
    }
  }

  lemma PublishedAside(s: State, id: nat, a: Attempt, g: nat, inputs: set<nat>, grace: nat)
    requires id in s.outbox
    ensures Aside(s, Published(s, id, a, g, inputs, grace))
  {
    var p, q, w := ProjectionKeyOf(a, inputs), ReportKeyOf(a, g, inputs), Settled(s.outbox[id].work, Completed);
    AdvancedAside(WithWork(WithArtifacts(s, p, q, grace), id, w), a, g, inputs);
  }

  lemma PublishAside(s: State, id: nat, t: Ticket, inputs: set<nat>, grace: nat)
    ensures Aside(s, Publish(s, id, t, inputs, grace))
  {
    if OwnsOutbox(s, id, t) && s.outbox[id].event.ReportRequested? && inputs != {} {
      var a, g, w := s.outbox[id].event.attempt, s.outbox[id].event.generation, s.outbox[id].work;
      if !Live(s.gens, a) || s.gens[a].number != g {
        WrittenAside(s, id, Settled(w, Suppressed));
      } else if InputsOf(s.manifests, s.normalized, a, g) != inputs {
        WrittenAside(s, id, Settled(w, Pending));
      } else {
        PublishedAside(s, id, a, g, inputs, grace);
      }
    }
  }

  lemma WrittenAside(s: State, id: nat, w: Work)
    ensures Aside(s, WithWork(s, id, w))
  {
  }

  lemma NormalizeAside(s: State, id: nat, t: Ticket, read: Manifest)
    ensures Aside(s, Normalize(s, id, t, read))
  {
    if OwnsOutbox(s, id, t) && s.outbox[id].event.SegmentAdmitted? {
      NormalizeShape(s, id, t, read);
    }
  }

  lemma WorkActionAside(s: State, act: Action)
    requires act.ClaimRecord? || act.FailRecord? || act.NormalizeSegment? || act.PublishReport?
    ensures Aside(s, Apply(s, act))
  {
    match act {
      case ClaimRecord(_, _, _) =>
      case FailRecord(_, _) =>
      case NormalizeSegment(id, t) =>
        if Readable(s, id, t) {
          NormalizeAside(s, id, t, s.admitted[s.outbox[id].event.receipt]);
        }
      case PublishReport(id, t, inputs, grace) => PublishAside(s, id, t, inputs, grace);
    }
  }

  /** Expiry never touches a committed reservation. */
  lemma {:induction false} SweepSpares(s: State, batch: seq<Range>, ttl: nat, grace: nat)
    ensures var s' := Sweep(s, batch, ttl, grace);
            forall x :: x in s'.reservations && s'.reservations[x].state == Committed ==>
              x in s.reservations && s'.reservations[x] == s.reservations[x]
    decreases |batch|
  {
    if batch != [] {
      SweepSpares(ExpireOne(s, batch[0], ttl, grace), batch[1..], ttl, grace);
    }
  }

  lemma ReserveSteady(s: State, u: Segment)
    ensures var s' := Reserve(s, u);
            && s'.manifests == s.manifests && s'.admitted == s.admitted
            && forall x :: x in s'.reservations && s'.reservations[x].state == Committed ==>
                 x in s.reservations && s'.reservations[x] == s.reservations[x]
  {
  }

  lemma SpendingBacked(s: State, u: Segment, r: nat)
    requires Backed(s) && Remembered(s.gens, s.manifests, s.admitted, s.nextId)
    requires SameRange(s.manifests, r, u)
    ensures Backed(Spending(s, u))
  {
    var s' := Spending(s, u);
    forall x | x in s'.reservations && s'.reservations[x].state == Committed
      ensures exists q :: Behind(s', x, q)
    {
      if x == RangeOf(u) {
        assert Behind(s', x, r);
      } else {
        var q :| Behind(s, x, q);
        assert Behind(s', x, q);
      }
    }
  }

  lemma AdmittingBacked(s: State, u: Segment)
    requires Backed(s) && Remembered(s.gens, s.manifests, s.admitted, s.nextId)
    ensures Backed(Admitting(Spending(s, u), u))
  {
    var s' := Admitting(Spending(s, u), u);
    forall x | x in s'.reservations && s'.reservations[x].state == Committed
      ensures exists q :: Behind(s', x, q)
    {
      if x == RangeOf(u) {
        assert Behind(s', x, s.nextId);
      } else {
        var q :| Behind(s, x, q);
        assert Behind(s', x, q);
      }
    }
  }

  lemma CommitBacked(s: State, u: Segment, reservation: nat)
    requires Backed(s) && Remembered(s.gens, s.manifests, s.admitted, s.nextId)
    ensures Backed(Commit(s, u, reservation))
  {
    var d := DecideCommit(s, u, reservation);
    match d {
      case Reject(_) =>
      case Replay(r) => SpendingBacked(s, u, r);
      case Reuse(_) =>
      case Accept => AdmittingBacked(s, u);
    }
  }

  /** What an erased attempt committed for others stays behind as the trace of a fenced attempt. */
  lemma ErasedBacked(s: State, a: Attempt, gone: set<Key>)
    requires Backed(s) && Remembered(s.gens, s.manifests, s.admitted, s.nextId) && a in s.deletions && Fenced(s.gens, a)
    ensures Backed(Erased(s, a, gone))
  {
    var s' := Erased(s, a, gone);
    forall x | x in s'.reservations && s'.reservations[x].state == Committed
      ensures exists q :: Behind(s', x, q)
    {
      var q :| Behind(s, x, q);
      assert Behind(s', x, q);
    }
  }

  lemma EraseBacked(s: State, a: Attempt, t: Ticket, g: nat)
    requires Backed(s) && Remembered(s.gens, s.manifests, s.admitted, s.nextId)
    ensures Backed(Erase(s, a, t, g))
  {
    if Matches(FencesOf(s), a, t, g) {
      if HasActiveHold(s.holds, a) {
        SteadyBacked(s, Erase(s, a, t, g));
      } else if Current(s.gens, a, g) {
        ErasedBacked(s, a, Deletable(s, a));
        assert Erase(s, a, t, g) == Erased(s, a, Deletable(s, a));
      }
    }
  }

  lemma AsideStep(s: State, act: Action)
    requires !act.ReserveRange? && !act.CommitSegment? && !act.EraseAttempt? && !act.SweepReservations?
    ensures Aside(s, Apply(s, act))
  {
    if act.Tick? || act.PutObject? || act.CollectObject? || act.CollectAndRollBack? || act.AuditObject? {
      StoreActionAside(s, act);
    } else if act.EraseAndRollBack? || act.ReserveReport? || act.ImportTombstones? {
      SideActionAside(s, act);
    } else if act.Place? || act.Release? || act.Delete? || act.ClaimErasure? || act.FailErasure? {
      RequestActionAside(s, act);
    } else {
      WorkActionAside(s, act);
    }
  }

  lemma RangeActionSteady(s: State, act: Action)
    requires act.ReserveRange? || act.SweepReservations?
    requires Advances(s.gens, Apply(s, act).gens)
    ensures Steady(s, Apply(s, act))
  {
    if act.ReserveRange? {
      ReserveSteady(s, act.segment);
    } else {
      SweepQuiet(s, act.batch, act.ttl, act.grace);
      SweepSpares(s, act.batch, act.ttl, act.grace);
    }
  }

  lemma StepBacked(s: State, act: Action)
    requires Inv(s) && Backed(s)
    ensures Backed(Apply(s, act))
  {
    if act.CommitSegment? {
      CommitBacked(s, act.segment, act.reservation);
    } else if act.EraseAttempt? {
      EraseBacked(s, act.attempt, act.ticket, act.generation);
    } else {
      StepMoves(s, act);
      if act.ReserveRange? || act.SweepReservations? {
        RangeActionSteady(s, act);
      } else {
        AsideStep(s, act);
      }
      SteadyBacked(s, Apply(s, act));
    }
  }

  lemma {:induction false} RunBacked(s: State, run: seq<Action>)
    requires Inv(s) && Backed(s)
    ensures Backed(Exec(s, run))
    decreases |run|
  {
    if run != [] {
      StepBacked(s, run[0]);
      StepKept(s, run[0]);
      RunBacked(Apply(s, run[0]), run[1..]);
    }
  }

  /**
   In every reachable state, a committed reservation without a manifest is what is left of a segment
   that another attempt committed, and that attempt has been deleted since.
   */
  lemma OrphansComeFromDeletedAttempts(run: seq<Action>, x: Range)
    requires var s := Exec(Empty, run);
             && x in s.reservations && s.reservations[x].state == Committed
             && forall r :: r in s.manifests ==> s.manifests[r].range != x
    ensures var s := Exec(Empty, run);
            exists r :: r in s.admitted && s.admitted[r].range == x
                        && Fenced(s.gens, s.admitted[r].attempt) && s.admitted[r].attempt != s.reservations[x].attempt
  {
    EmptyIsGood();
    RunKept(Empty, run);
    RunBacked(Empty, run);
    OrphanIsBehind(Exec(Empty, run), x);
  }

  lemma OrphanIsBehind(s: State, x: Range)
    requires Backed(s) && Remembered(s.gens, s.manifests, s.admitted, s.nextId)
    requires x in s.reservations && s.reservations[x].state == Committed
    requires forall r :: r in s.manifests ==> s.manifests[r].range != x
    ensures exists r :: r in s.admitted && s.admitted[r].range == x
                        && Fenced(s.gens, s.admitted[r].attempt) && s.admitted[r].attempt != s.reservations[x].attempt
  {
    var r :| Behind(s, x, r);
  }

  /** So is every upload that is refused because the catalog is inconsistent. */
  lemma InconsistencyComesFromDeletion(run: seq<Action>, u: Segment)
    requires DecideReserve(Exec(Empty, run), u) == Reject("catalog_inconsistent")
    ensures var s := Exec(Empty, run);
            && RangeOf(u) in s.reservations
            && exists r :: r in s.admitted && s.admitted[r].range == RangeOf(u)
                           && Fenced(s.gens, s.admitted[r].attempt) && s.admitted[r].attempt != s.reservations[RangeOf(u)].attempt
  {
    InconsistentRange(Exec(Empty, run), u);
    OrphansComeFromDeletedAttempts(run, RangeOf(u));
  }

  lemma InconsistentRange(s: State, u: Segment)
    requires DecideReserve(s, u) == Reject("catalog_inconsistent")
    ensures RangeOf(u) in s.reservations && s.reservations[RangeOf(u)].state == Committed
    ensures forall r :: r in s.manifests ==> s.manifests[r].range != RangeOf(u)
  {
    assert forall r :: r in s.manifests && s.manifests[r].range == RangeOf(u) ==> SameRange(s.manifests, r, u);
  }

  /** Conversely, erasing the attempt that committed another's reservation shuts the range for good uploads. */
  lemma ErasureMakesOrphans(run: seq<Action>, a: Attempt, t: Ticket, g: nat, r: nat, u: Segment)
    requires var s := Exec(Empty, run);
             && Matches(FencesOf(s), a, t, g)
             && r in s.manifests && s.manifests[r].attempt == a && s.manifests[r].range == RangeOf(u)
             && RangeOf(u) in s.reservations && s.reservations[RangeOf(u)].state == Committed
             && s.reservations[RangeOf(u)].attempt != a
             && Live(s.gens, u.attempt) && s.gens[u.attempt].number == u.generation
    ensures DecideReserve(Erase(Exec(Empty, run), a, t, g), u) == Reject("catalog_inconsistent")
  {
    EmptyIsGood();
    RunKept(Empty, run);
    var s := Exec(Empty, run);
    LeaseIsCurrent(FencesOf(s), a, t, g);
    ErasureShutsTheRange(s, a, t, g, r, u);
  }

  lemma ErasureShutsTheRange(s: State, a: Attempt, t: Ticket, g: nat, r: nat, u: Segment)
    requires Matches(FencesOf(s), a, t, g) && Current(s.gens, a, g) && !HasActiveHold(s.holds, a) && Ranged(s.manifests)
    requires r in s.manifests && s.manifests[r].attempt == a && s.manifests[r].range == RangeOf(u)
    requires RangeOf(u) in s.reservations && s.reservations[RangeOf(u)].state == Committed
    requires s.reservations[RangeOf(u)].attempt != a
    requires Live(s.gens, u.attempt) && s.gens[u.attempt].number == u.generation
    ensures DecideReserve(Erase(s, a, t, g), u) == Reject("catalog_inconsistent")
  {
    var s' := Erase(s, a, t, g);
    assert s' == Erased(s, a, Deletable(s, a));
    forall q | q in s'.manifests
      ensures !Overlap(s'.manifests[q].range, RangeOf(u)) && !SameRange(s'.manifests, q, u)
    {
      assert !Overlap(s.manifests[q].range, s.manifests[r].range);
    }
  }

  // It does happen: one attempt reserves a range, another commits it and is deleted.

  const Mine: Segment := Upload(
    Attempt("t", "c", "a"), "p", "e", "s", 0, 0, 1, Telemetry("x"), 0, Bindings(None, None, None))
  const Yours: Segment := Mine.(attempt := Attempt("t", "c", "b"))

  /** The reservation of the one attempt, in a catalog with nothing else but generation rows. */
  ghost predicate Prepared(s: State, state: ReservationState) {
    && s.reservations == map[RangeOf(Mine) := Reservation(0, Mine.attempt, Mine.content, KeyOf(Mine), 0, state, 0)]
    && s.holds == map[] && s.clock == 0
  }

  ghost predicate Untouched(s: State) {
    s.manifests == map[] && s.records == map[] && s.deletions == map[]
  }

  ghost predicate BothLive(gens: Gens) {
    gens == map[Mine.attempt := Generation(0, None), Yours.attempt := Generation(0, None)]
  }

  lemma MineIsReserved(s: State)
    requires s == Empty
    ensures var s' := Reserve(s, Mine);
            Prepared(s', Reserved) && Untouched(s') && s'.gens == map[Mine.attempt := Generation(0, None)]
  {
    assert DecideReserve(s, Mine) == Accept;
  }

  lemma YoursReusesIt(s: State)
    requires Prepared(s, Reserved) && Untouched(s) && s.gens == map[Mine.attempt := Generation(0, None)]
    ensures var s' := Reserve(s, Yours); Prepared(s', Reserved) && Untouched(s') && BothLive(s'.gens)
  {
    assert RangeOf(Yours) == RangeOf(Mine);
    assert DecideReserve(s, Yours) == Reuse(0);
  }

  /** The manifest is the other attempt's, the committed reservation is not. */
  ghost predicate Crossed(s: State) {
    && Prepared(s, Committed)
    && exists r :: r in s.manifests && s.manifests[r].attempt == Yours.attempt && s.manifests[r].range == RangeOf(Mine)
  }

  lemma YoursIsCommitted(s: State)
    requires Prepared(s, Reserved) && Untouched(s) && BothLive(s.gens) && ExistsVerified(s.store, KeyOf(Mine), Mine.content)
    ensures var s' := Commit(s, Yours, 0); Crossed(s') && BothLive(s'.gens) && s'.deletions == map[]
  {
    assert RangeOf(Yours) == RangeOf(Mine) && KeyOf(Yours) == KeyOf(Mine);
    assert DecideCommit(s, Yours, 0) == Accept;
    var s' := Commit(s, Yours, 0);
    assert s'.manifests[s.nextId].attempt == Yours.attempt;
  }

  lemma YoursIsDeleted(s: State)
    requires Crossed(s) && BothLive(s.gens) && s.deletions == map[]
    ensures var s' := WithFences(s, DeleteAttempt(FencesOf(s), Yours.attempt, s.clock));
            && Crossed(s') && Live(s'.gens, Mine.attempt) && s'.gens[Mine.attempt].number == 0
            && s'.deletions == map[Yours.attempt := Deletion(1, Queued(), 0, None)]
  {
    assert !HasActiveHold(s.holds, Yours.attempt);
  }

  lemma YoursIsClaimed(s: State)
    requires Crossed(s) && Live(s.gens, Mine.attempt) && s.gens[Mine.attempt].number == 0
    requires s.deletions == map[Yours.attempt := Deletion(1, Queued(), 0, None)]
    ensures var s' := WithFences(s, ClaimDeletion(FencesOf(s), Yours.attempt, "w", s.clock, 60));
            && Crossed(s') && Live(s'.gens, Mine.attempt) && s'.gens[Mine.attempt].number == 0
            && Matches(FencesOf(s'), Yours.attempt, Ticket("w", 1), 1)
  {
  }

  lemma ReservedTwice() returns (run: seq<Action>)
    ensures var s := Exec(Empty, run); Prepared(s, Reserved) && Untouched(s) && BothLive(s.gens)
  {
    var first: seq<Action> := [] + [ReserveRange(Mine)];
    ExecAppend(Empty, [], ReserveRange(Mine));
    MineIsReserved(Empty);
    run := first + [ReserveRange(Yours)];
    ExecAppend(Empty, first, ReserveRange(Yours));
    YoursReusesIt(Exec(Empty, first));
  }

  lemma Uploaded() returns (run: seq<Action>)
    ensures var s := Exec(Empty, run);
            Prepared(s, Reserved) && Untouched(s) && BothLive(s.gens) && ExistsVerified(s.store, KeyOf(Mine), Mine.content)
  {
    var before := ReservedTwice();
    EmptyIsGood();
    RunKept(Empty, before);
    run := before + [PutObject(KeyOf(Mine))];
    ExecAppend(Empty, before, PutObject(KeyOf(Mine)));
  }

  lemma CommittedAcross() returns (run: seq<Action>)
    ensures var s := Exec(Empty, run); Crossed(s) && BothLive(s.gens) && s.deletions == map[]
  {
    var before := Uploaded();
    run := before + [CommitSegment(Yours, 0)];
    ExecAppend(Empty, before, CommitSegment(Yours, 0));
    YoursIsCommitted(Exec(Empty, before));
  }

  lemma DeletedAcross() returns (run: seq<Action>)
    ensures var s := Exec(Empty, run);
            && Crossed(s) && Live(s.gens, Mine.attempt) && s.gens[Mine.attempt].number == 0
            && s.deletions == map[Yours.attempt := Deletion(1, Queued(), 0, None)]
  {
    var before := CommittedAcross();
    run := before + [Delete(Yours.attempt)];
    ExecAppend(Empty, before, Delete(Yours.attempt));
    YoursIsDeleted(Exec(Empty, before));
  }

  lemma ClaimedAcross() returns (run: seq<Action>)
    ensures var s := Exec(Empty, run);
            && Crossed(s) && Live(s.gens, Mine.attempt) && s.gens[Mine.attempt].number == 0
            && Matches(FencesOf(s), Yours.attempt, Ticket("w", 1), 1)
  {
    var before := DeletedAcross();
    run := before + [ClaimErasure(Yours.attempt, "w", 60)];
    ExecAppend(Empty, before, ClaimErasure(Yours.attempt, "w", 60));
    YoursIsClaimed(Exec(Empty, before));
  }

  /** A run after which a live attempt's upload is refused because the catalog is inconsistent. */
  lemma InconsistencyIsReachable() returns (run: seq<Action>)
    ensures DecideReserve(Exec(Empty, run), Mine) == Reject("catalog_inconsistent")
  {
    var before := ClaimedAcross();
    var s, a, t := Exec(Empty, before), Yours.attempt, Ticket("w", 1);
    var r :| r in s.manifests && s.manifests[r].attempt == a && s.manifests[r].range == RangeOf(Mine);
    ErasureMakesOrphans(before, a, t, 1, r, Mine);
    run := before + [EraseAttempt(a, t, 1)];
    ExecErase(before, a, t, 1);
  }

  lemma ExecErase(run: seq<Action>, a: Attempt, t: Ticket, g: nat)
    ensures Exec(Empty, run + [EraseAttempt(a, t, g)]) == Erase(Exec(Empty, run), a, t, g)
  {
    ExecAppend(Empty, run, EraseAttempt(a, t, g));
  }
}
