/**
 What restoring tombstones guarantees over whole runs: imported deletions stay in force, rejected and
 repeated bundles change nothing, and rows that a catalog completes can be exported again.
 */
module Restore {
  import opened Prelude
  import opened Leases
  import opened Catalog
  import opened Tombstones
  import opened Admission
  import opened Erasure
  import opened Reporting
  import opened Invariants
  import opened GenerationProofs
  import opened ErasureProofs
  import opened ReportingProofs
  import opened Lifecycle
  import opened Progress
  import Recovery

  // When an import is refused.

  /** Applying one entry does not touch the generation of another attempt. */
  lemma {:induction false} RefusedExactly(f: Fences, entries: seq<Tombstone>)
    requires Canonical(entries)
    ensures ApplyEntries(f, entries).None? <==> exists i :: 0 <= i < |entries| && Contradicted(f, entries[i])
    decreases |entries|
  {
    if entries != [] && !Contradicted(f, entries[0]) {
      var next := ApplyEntry(f, entries[0]).value;
      RefusedExactly(next, entries[1..]);
      forall i | 1 <= i < |entries|
        ensures Contradicted(next, entries[1..][i - 1]) <==> Contradicted(f, entries[i])
      {
        Recovery.BeforeTrichotomy(entries[0].attempt, entries[i].attempt);
      }
    }
  }

  /** In a catalog where only deletions raise a generation, no valid bundle is ever refused. */
  lemma ImportsAreNeverRefused(run: seq<Action>, b: Bundle)
    requires Acceptable(b)
    ensures b in Import(Exec(Empty, run), b).imports
  {
    EmptyIsGood();
    RunKept(Empty, run);
    NothingContradicts(Exec(Empty, run), b);
  }

  lemma NothingContradicts(s: State, b: Bundle)
    requires Acceptable(b) && Numbered(s.gens)
    ensures b in Import(s, b).imports
  {
    RefusedExactly(FencesOf(s), b.entries);
  }

  /** A bundle that was imported before, or that is not acceptable, changes nothing. */
  lemma ReplayAndRefusalAreInert(s: State, b: Bundle)
    requires b in s.imports || !Acceptable(b) || exists i :: 0 <= i < |b.entries| && Contradicted(FencesOf(s), b.entries[i])
    ensures Import(s, b) == s
  {
    if b !in s.imports && Acceptable(b) {
      RefusedExactly(FencesOf(s), b.entries);
    }
  }

  // What an import puts in force.

  /** The attempt is fenced at least as far as the tombstone says. */
  ghost predicate InForce(gens: Gens, t: Tombstone) {
    Fenced(gens, t.attempt) && t.generation <= gens[t.attempt].number
  }

  lemma EntryStaysInForce(f: Fences, t: Tombstone, rest: seq<Tombstone>)
    requires Coherent(f) && Portable(t) && ApplyEntry(f, t).Some?
    requires forall i :: 0 <= i < |rest| ==> Portable(rest[i])
    requires ApplyEntries(ApplyEntry(f, t).value, rest).Some?
    ensures InForce(ApplyEntries(ApplyEntry(f, t).value, rest).value.gens, t)
  {
    ApplyEntryOrderly(f, t);
    assert InForce(ApplyEntry(f, t).value.gens, t);
    ApplyEntriesOrderly(ApplyEntry(f, t).value, rest);
  }

  lemma {:induction false} EntriesInForce(f: Fences, entries: seq<Tombstone>)
    requires Coherent(f) && (forall i :: 0 <= i < |entries| ==> Portable(entries[i]))
    requires ApplyEntries(f, entries).Some?
    ensures forall i :: 0 <= i < |entries| ==> InForce(ApplyEntries(f, entries).value.gens, entries[i])
    decreases |entries|
  {
    if entries != [] {
      var next := ApplyEntry(f, entries[0]).value;
      ApplyEntryOrderly(f, entries[0]);
      EntriesInForce(next, entries[1..]);
      EntryStaysInForce(f, entries[0], entries[1..]);
      forall i | 0 <= i < |entries|
        ensures InForce(ApplyEntries(f, entries).value.gens, entries[i])
      {
        assert i > 0 ==> entries[i] == entries[1..][i - 1];
      }
    }
  }

  ghost predicate Imposed(gens: Gens, b: Bundle) {
    forall i :: 0 <= i < |b.entries| ==> InForce(gens, b.entries[i])
  }

  ghost predicate ImportsInForce(s: State) {
    forall b :: b in s.imports ==> Imposed(s.gens, b)
  }

  lemma StillImposed(gens: Gens, gens': Gens, b: Bundle)
    requires Imposed(gens, b) && Advances(gens, gens')
    ensures Imposed(gens', b)
  {
  }

  lemma ImportImposes(s: State, b: Bundle)
    requires Coherent(FencesOf(s)) && Importable(s, b)
    ensures Imposed(Import(s, b).gens, b)
  {
    EntriesInForce(FencesOf(s), b.entries);
  }

  // Actions other than an import leave the import log alone, and time does not run backwards.

  ghost predicate LogStays(s: State, s': State) {
    s'.imports == s.imports && s.clock <= s'.clock
  }

  /** Actions that neither request nor perform a deletion leave the requests alone too. */
  ghost predicate Quiet(s: State, s': State) {
    && LogStays(s, s') && s'.deletions == s.deletions
    && forall a :: a in s'.gens ==> (a in s.gens && s'.gens[a] == s.gens[a]) || s'.gens[a] == Generation(0, None)
  }

  lemma StoreActionLog(s: State, act: Action)
    requires act.Tick? || act.PutObject? || act.CollectObject? || act.CollectAndRollBack? || act.AuditObject?
    ensures Quiet(s, Apply(s, act))
  {
  }

  lemma SideActionLog(s: State, act: Action)
    requires act.EraseAndRollBack? || act.SweepReservations? || act.ReserveReport?
    ensures Quiet(s, Apply(s, act))
  {
    if act.SweepReservations? {
      SweepQuiet(s, act.batch, act.ttl, act.grace);
    }
  }

  lemma RequestActionLog(s: State, act: Action)
    requires act.Place? || act.Release? || act.Delete? || act.ClaimErasure? || act.FailErasure?
    ensures LogStays(s, Apply(s, act))
  {
  }

  lemma AdmissionLog(s: State, u: Segment, d: Decision)
    ensures Quiet(s, Reserving(s, u, d)) && Quiet(s, Committing(s, u, d))
  {
  }

  lemma EraseLog(s: State, a: Attempt, t: Ticket, g: nat)
    ensures LogStays(s, Erase(s, a, t, g))
  {
  }

  lemma NormalizeLog(s: State, id: nat, t: Ticket, read: Manifest)
    ensures Quiet(s, Normalize(s, id, t, read))
  {
    if OwnsOutbox(s, id, t) && s.outbox[id].event.SegmentAdmitted? {
      NormalizeShape(s, id, t, read);
    }
  }

  lemma AdvancedLog(s: State, a: Attempt, g: nat, inputs: set<nat>)
    ensures Quiet(s, Advanced(s, a, g, inputs))
  {
    if exists v :: SameInputs(s, v, a, g, inputs) {
    } else {
      assert Advanced(s, a, g, inputs) == Appending(s, a, g, inputs);
    }
  }

  lemma WrittenLog(s: State, id: nat, w: Work, p: Key, q: Key, grace: nat)
    ensures Quiet(s, WithWork(s, id, w)) && Quiet(s, WithWork(WithArtifacts(s, p, q, grace), id, w))
  {
  }

  lemma PublishedLog(s: State, id: nat, a: Attempt, g: nat, inputs: set<nat>, grace: nat)
    requires id in s.outbox
    ensures Quiet(s, Published(s, id, a, g, inputs, grace))
  {
    var p, q, w := ProjectionKeyOf(a, inputs), ReportKeyOf(a, g, inputs), Settled(s.outbox[id].work, Completed);
    WrittenLog(s, id, w, p, q, grace);
    AdvancedLog(WithWork(WithArtifacts(s, p, q, grace), id, w), a, g, inputs);
  }

  lemma PublishLog(s: State, id: nat, t: Ticket, inputs: set<nat>, grace: nat)
    ensures Quiet(s, Publish(s, id, t, inputs, grace))
  {
    if OwnsOutbox(s, id, t) && s.outbox[id].event.ReportRequested? && inputs != {} {
      var a, g, w := s.outbox[id].event.attempt, s.outbox[id].event.generation, s.outbox[id].work;
      var p, q := ProjectionKeyOf(a, inputs), ReportKeyOf(a, g, inputs);
      if !Live(s.gens, a) || s.gens[a].number != g {
        WrittenLog(s, id, Settled(w, Suppressed), p, q, grace);
      } else if InputsOf(s.manifests, s.normalized, a, g) != inputs {
        WrittenLog(s, id, Settled(w, Pending), p, q, grace);
      } else {
        PublishedLog(s, id, a, g, inputs, grace);
      }
    }
  }

  lemma WorkActionLog(s: State, act: Action)
    requires act.ClaimRecord? || act.FailRecord? || act.NormalizeSegment? || act.PublishReport?
    ensures Quiet(s, Apply(s, act))
  {
    match act {
      case ClaimRecord(_, _, _) =>
      case FailRecord(_, _) =>
      case NormalizeSegment(id, t) =>
        if Readable(s, id, t) {
          NormalizeLog(s, id, t, s.admitted[s.outbox[id].event.receipt]);
        }
      case PublishReport(id, t, inputs, grace) => PublishLog(s, id, t, inputs, grace);
    }
  }

  lemma AdmissionActionLog(s: State, act: Action)
    requires act.ReserveRange? || act.CommitSegment?
    ensures Quiet(s, Apply(s, act))
  {
    match act {
      case ReserveRange(u) => AdmissionLog(s, u, DecideReserve(s, u));
      case CommitSegment(u, r) => AdmissionLog(s, u, DecideCommit(s, u, r));
    }
  }

  ghost predicate Fencing(act: Action) {
    act.Place? || act.Release? || act.Delete? || act.ClaimErasure? || act.FailErasure? || act.EraseAttempt?
  }

  lemma QuietStep(s: State, act: Action)
    requires !act.ImportTombstones? && !Fencing(act)
    ensures Quiet(s, Apply(s, act))
  {
    if act.Tick? || act.PutObject? || act.CollectObject? || act.CollectAndRollBack? || act.AuditObject? {
      StoreActionLog(s, act);
    } else if act.EraseAndRollBack? || act.SweepReservations? || act.ReserveReport? {
      SideActionLog(s, act);
    } else if act.ReserveRange? || act.CommitSegment? {
      AdmissionActionLog(s, act);
    } else {
      WorkActionLog(s, act);
    }
  }

  lemma FencingStep(s: State, act: Action)
    requires Fencing(act)
    ensures LogStays(s, Apply(s, act))
  {
    if act.EraseAttempt? {
      EraseLog(s, act.attempt, act.ticket, act.generation);
    } else {
      RequestActionLog(s, act);
    }
  }

  lemma StepInForce(s: State, act: Action)
    requires Inv(s) && ImportsInForce(s)
    ensures ImportsInForce(Apply(s, act))
  {
    StepMoves(s, act);
    var s' := Apply(s, act);
    if act.ImportTombstones? {
      if Importable(s, act.bundle) {
        ImportImposes(s, act.bundle);
      }
    } else if Fencing(act) {
      FencingStep(s, act);
    } else {
      QuietStep(s, act);
    }
    forall b | b in s'.imports
      ensures Imposed(s'.gens, b)
    {
      if b in s.imports {
        StillImposed(s.gens, s'.gens, b);
      }
    }
  }

  lemma {:induction false} RunInForce(s: State, run: seq<Action>)
    requires Inv(s) && ImportsInForce(s)
    ensures ImportsInForce(Exec(s, run))
    decreases |run|
  {
    if run != [] {
      StepInForce(s, run[0]);
      StepKept(s, run[0]);
      RunInForce(Apply(s, run[0]), run[1..]);
    }
  }

  // Times that can be exported again.

  ghost predicate Dated(d: Deletion, now: nat) {
    d.requestedAt <= now && (d.completedAt.Some? ==> d.requestedAt <= d.completedAt.value)
  }

  /** No row is later than the clock. */
  ghost predicate Timely(f: Fences, now: nat) {
    && (forall a :: a in f.gens && f.gens[a].deletedAt.Some? ==> f.gens[a].deletedAt.value <= now)
    && (forall a :: a in f.deletions ==> Dated(f.deletions[a], now))
  }

  /** The tombstones are no later than the clock of the catalog that imports them. */
  ghost predicate Past(entries: seq<Tombstone>, now: nat) {
    forall i :: 0 <= i < |entries| ==> entries[i].completedAt <= now
  }

  lemma HoldTimely(f: Fences, known: bool, h: nat, a: Attempt, reason: string, now: nat)
    requires Timely(f, now) && Numbered(f.gens)
    ensures Timely(PlaceHold(f, known, h, a, reason), now) && Timely(ReleaseHold(f, h, now), now)
  {
  }

  lemma DeleteTimely(f: Fences, a: Attempt, now: nat)
    requires Timely(f, now) && Numbered(f.gens)
    ensures Timely(DeleteAttempt(f, a, now), now)
  {
  }

  lemma LeaseTimely(f: Fences, a: Attempt, owner: string, seconds: nat, t: Ticket, g: nat, now: nat)
    requires Timely(f, now)
    ensures Timely(ClaimDeletion(f, a, owner, now, seconds), now) && Timely(FailDeletion(f, a, t, g), now)
  {
  }

  lemma {:induction false} EntriesTimely(f: Fences, entries: seq<Tombstone>, now: nat)
    requires Timely(f, now) && Past(entries, now) && (forall i :: 0 <= i < |entries| ==> Portable(entries[i]))
    requires ApplyEntries(f, entries).Some?
    ensures Timely(ApplyEntries(f, entries).value, now)
    decreases |entries|
  {
    if entries != [] {
      EntriesTimely(ApplyEntry(f, entries[0]).value, entries[1..], now);
    }
  }

  lemma RequestTimely(s: State, act: Action)
    requires Numbered(s.gens) && Timely(FencesOf(s), s.clock)
    requires act.Place? || act.Release? || act.Delete?
    ensures Timely(FencesOf(Apply(s, act)), s.clock)
  {
    var f' := FencesOf(Apply(s, act));
    match act {
      case Place(h, a, reason) =>
        HoldTimely(FencesOf(s), a in s.records || a in s.gens, h, a, reason, s.clock);
        assert f' == PlaceHold(FencesOf(s), a in s.records || a in s.gens, h, a, reason);
      case Release(h) =>
        HoldTimely(FencesOf(s), false, h, Attempt("", "", ""), "", s.clock);
        assert f' == ReleaseHold(FencesOf(s), h, s.clock);
      case Delete(a) =>
        DeleteTimely(FencesOf(s), a, s.clock);
        assert f' == DeleteAttempt(FencesOf(s), a, s.clock);
    }
  }

  lemma EraseTimely(s: State, a: Attempt, t: Ticket, g: nat)
    requires Timely(FencesOf(s), s.clock)
    ensures Timely(FencesOf(Erase(s, a, t, g)), s.clock)
  {
    if Matches(FencesOf(s), a, t, g) {
      var d := s.deletions[a];
      RowTimely(FencesOf(s), a, d.(work := Settled(d.work, Held)), s.clock);
      RowTimely(FencesOf(s), a, Concluded(d, s.clock), s.clock);
      ErasedFences(s, a, Deletable(s, a));
    }
  }

  lemma RowTimely(f: Fences, a: Attempt, d: Deletion, now: nat)
    requires Timely(f, now) && Dated(d, now)
    ensures Timely(f.(deletions := f.deletions[a := d]), now)
  {
  }

  lemma ErasedFences(s: State, a: Attempt, gone: set<Key>)
    requires a in s.deletions
    ensures FencesOf(Erased(s, a, gone)) ==
            FencesOf(s).(deletions := s.deletions[a := Concluded(s.deletions[a], s.clock)])
  {
  }

  lemma WorkerTimely(s: State, act: Action)
    requires Timely(FencesOf(s), s.clock)
    requires act.ClaimErasure? || act.FailErasure? || act.EraseAttempt?
    ensures Timely(FencesOf(Apply(s, act)), s.clock)
  {
    match act {
      case ClaimErasure(a, owner, d) => LeaseTimely(FencesOf(s), a, owner, d, Ticket("", 0), 0, s.clock);
      case FailErasure(a, t, g) => LeaseTimely(FencesOf(s), a, "", 0, t, g, s.clock);
      case EraseAttempt(a, t, g) => EraseTimely(s, a, t, g);
    }
  }

  lemma QuietTimely(s: State, s': State)
    requires Timely(FencesOf(s), s.clock) && Quiet(s, s')
    ensures Timely(FencesOf(s'), s'.clock)
  {
  }

  lemma ImportTimely(s: State, b: Bundle)
    requires Timely(FencesOf(s), s.clock) && Past(b.entries, s.clock)
    ensures Timely(FencesOf(Import(s, b)), s.clock) && Import(s, b).clock == s.clock
  {
    if Importable(s, b) {
      EntriesTimely(FencesOf(s), b.entries, s.clock);
    }
  }

  lemma TimelyLater(f: Fences, now: nat, later: nat)
    requires Timely(f, now) && now <= later
    ensures Timely(f, later)
  {
  }

  ghost predicate FromThePast(s: State, act: Action) {
    act.ImportTombstones? ==> Past(act.bundle.entries, s.clock)
  }

  lemma StepTimely(s: State, act: Action)
    requires Numbered(s.gens) && Timely(FencesOf(s), s.clock) && FromThePast(s, act)
    ensures Timely(FencesOf(Apply(s, act)), Apply(s, act).clock)
  {
    if act.ImportTombstones? {
      ImportTimely(s, act.bundle);
    } else if Fencing(act) {
      FencingStep(s, act);
      if act.Place? || act.Release? || act.Delete? {
        RequestTimely(s, act);
      } else {
        WorkerTimely(s, act);
      }
      TimelyLater(FencesOf(Apply(s, act)), s.clock, Apply(s, act).clock);
    } else {
      QuietStep(s, act);
      QuietTimely(s, Apply(s, act));
    }
  }

  /** Every import of the run happens after the deletions it carries were completed. */
  ghost predicate Punctual(s: State, run: seq<Action>)
    decreases |run|
  {
    run == [] || (FromThePast(s, run[0]) && Punctual(Apply(s, run[0]), run[1..]))
  }

  lemma {:induction false} RunTimely(s: State, run: seq<Action>)
    requires Inv(s) && Timely(FencesOf(s), s.clock) && Punctual(s, run)
    ensures Timely(FencesOf(Exec(s, run)), Exec(s, run).clock)
    decreases |run|
  {
    if run != [] {
      StepTimely(s, run[0]);
      StepKept(s, run[0]);
      RunTimely(Apply(s, run[0]), run[1..]);
    }
  }

  // Generations can be exported whatever the clocks say.

  ghost predicate Countable(gens: Gens) {
    forall a :: a in gens ==> gens[a].number <= MaxGeneration
  }

  lemma RequestsCountable(f: Fences, h: nat, a: Attempt, now: nat)
    requires Countable(f.gens) && Numbered(f.gens)
    ensures Countable(ReleaseHold(f, h, now).gens) && Countable(DeleteAttempt(f, a, now).gens)
  {
  }

  lemma {:induction false} EntriesCountable(f: Fences, entries: seq<Tombstone>)
    requires Countable(f.gens) && (forall i :: 0 <= i < |entries| ==> Portable(entries[i]))
    requires ApplyEntries(f, entries).Some?
    ensures Countable(ApplyEntries(f, entries).value.gens)
    decreases |entries|
  {
    if entries != [] {
      EntriesCountable(ApplyEntry(f, entries[0]).value, entries[1..]);
    }
  }

  lemma ImportCountable(s: State, b: Bundle)
    requires Countable(s.gens)
    ensures Countable(Import(s, b).gens)
  {
    if Importable(s, b) {
      EntriesCountable(FencesOf(s), b.entries);
    }
  }

  lemma FencingCountable(s: State, act: Action)
    requires Countable(s.gens) && Numbered(s.gens) && (act.Release? || act.Delete?)
    ensures Countable(Apply(s, act).gens)
  {
    match act {
      case Release(h) => RequestsCountable(FencesOf(s), h, Attempt("", "", ""), s.clock);
      case Delete(a) => RequestsCountable(FencesOf(s), 0, a, s.clock);
    }
  }

  /** Placing a hold, and everything a worker does to a request, leaves the generations alone. */
  lemma WorkersFenceNothing(s: State, act: Action)
    requires Fencing(act) && !act.Release? && !act.Delete?
    ensures Apply(s, act).gens == s.gens
  {
    if act.EraseAttempt? {
      EraseFencesNothing(s, act.attempt, act.ticket, act.generation);
    }
  }

  lemma EraseFencesNothing(s: State, a: Attempt, t: Ticket, g: nat)
    ensures Erase(s, a, t, g).gens == s.gens
  {
    if Matches(FencesOf(s), a, t, g) {
      if HasActiveHold(s.holds, a) {
      } else if Current(s.gens, a, g) {
        ErasedFences(s, a, Deletable(s, a));
      }
    }
  }

  lemma StepCountable(s: State, act: Action)
    requires Countable(s.gens) && Numbered(s.gens)
    ensures Countable(Apply(s, act).gens)
  {
    if act.ImportTombstones? {
      ImportCountable(s, act.bundle);
    } else if act.Release? || act.Delete? {
      FencingCountable(s, act);
    } else if Fencing(act) {
      WorkersFenceNothing(s, act);
    } else {
      QuietStep(s, act);
    }
  }

  lemma {:induction false} RunCountable(s: State, run: seq<Action>)
    requires Inv(s) && Countable(s.gens)
    ensures Countable(Exec(s, run).gens)
    decreases |run|
  {
    if run != [] {
      StepCountable(s, run[0]);
      StepKept(s, run[0]);
      RunCountable(Apply(s, run[0]), run[1..]);
    }
  }

  // The main results.

  predicate Named(a: Attempt) {
    Identifier(a.tenant) && Identifier(a.cluster) && Identifier(a.name)
  }

  /** Over every run, a completed deletion is portable exactly if it is well named and was not completed before its request. */
  lemma PortableExactly(run: seq<Action>, a: Attempt)
    requires var s := Exec(Empty, run); a in s.deletions && s.deletions[a].work.state == Completed
    ensures var d := Exec(Empty, run).deletions[a];
            && d.completedAt.Some?
            && (Recovery.PortableRow(d, a) <==> Named(a) && d.requestedAt <= d.completedAt.value)
  {
    RunFences(run);
    CompletedIsFenced(Exec(Empty, run), a);
  }

  lemma CompletedIsFenced(s: State, a: Attempt)
    requires Numbered(s.gens) && Coupled(s.holds, s.deletions, s.gens)
    requires a in s.deletions && s.deletions[a].work.state == Completed
    ensures a in s.gens && s.gens[a].number == s.deletions[a].generation >= 1 && s.deletions[a].completedAt.Some?
  {
    assert CoupledAt(s.holds, s.deletions[a], s.gens, a);
  }

  /** What decides it is the clock of the step that completes the erasure. */
  lemma PortableWhenErasedAfterTheRequest(run: seq<Action>, a: Attempt, t: Ticket, g: nat)
    requires Matches(FencesOf(Exec(Empty, run)), a, t, g)
    ensures var s, s' := Exec(Empty, run), Erase(Exec(Empty, run), a, t, g);
            && a in s'.deletions && s'.deletions[a].work.state == Completed
            && (Recovery.PortableRow(s'.deletions[a], a) <==> Named(a) && s.deletions[a].requestedAt <= s.clock)
  {
    RunFences(run);
    var s := Exec(Empty, run);
    LeaseIsCurrent(FencesOf(s), a, t, g);
    ErasedPortable(s, a, t, g);
  }

  lemma RunFences(run: seq<Action>)
    ensures var s := Exec(Empty, run); Coherent(FencesOf(s)) && Countable(s.gens)
  {
    EmptyIsGood();
    RunKept(Empty, run);
    RunCountable(Empty, run);
  }

  lemma ErasedPortable(s: State, a: Attempt, t: Ticket, g: nat)
    requires Matches(FencesOf(s), a, t, g) && Current(s.gens, a, g) && !HasActiveHold(s.holds, a)
    requires Countable(s.gens) && Numbered(s.gens)
    ensures var d := Erase(s, a, t, g).deletions;
            && a in d && d[a].work.state == Completed
            && (Recovery.PortableRow(d[a], a) <==> Named(a) && s.deletions[a].requestedAt <= s.clock)
  {
    ErasedFences(s, a, Deletable(s, a));
    assert Erase(s, a, t, g) == Erased(s, a, Deletable(s, a));
  }

  /** Where imports come from the past, well-formed identifiers are enough. */
  lemma CompletedRowsArePortable(run: seq<Action>, a: Attempt)
    requires Punctual(Empty, run)
    requires var s := Exec(Empty, run); a in s.deletions && s.deletions[a].work.state == Completed
    ensures Recovery.PortableRow(Exec(Empty, run).deletions[a], a) <==> Named(a)
  {
    EmptyIsGood();
    RunTimely(Empty, run);
    PortableExactly(run, a);
    assert Dated(Exec(Empty, run).deletions[a], Exec(Empty, run).clock);
  }

  const Early := Attempt("t", "c", "a")
  const Ahead := Bundle(0, [Tombstone(Early, 1, 5, 5)])
  const AheadOfTime := [ImportTombstones(Ahead), ClaimErasure(Early, "w", 60), EraseAttempt(Early, Ticket("w", 1), 1)]

  const Restored := WithFences(Empty, Reinstated(FencesOf(Empty), Tombstone(Early, 1, 5, 5))).(imports := {Ahead})

  lemma AheadIsImported()
    ensures Apply(Empty, ImportTombstones(Ahead)) == Restored
  {
    var f := Reinstated(FencesOf(Empty), Ahead.entries[0]);
    assert ApplyEntries(f, Ahead.entries[1..]) == Some(f);
    assert ApplyEntries(FencesOf(Empty), Ahead.entries) == Some(f);
  }

  lemma AheadIsClaimed()
    ensures var s := Apply(Restored, ClaimErasure(Early, "w", 60));
            && Matches(FencesOf(s), Early, Ticket("w", 1), 1) && s.deletions[Early].requestedAt == 5
            && s.gens == map[Early := Generation(1, Some(5))] && s.holds == map[] && s.clock == 0
  {
  }

  lemma AheadIsErased(s: State)
    requires s == Apply(Restored, ClaimErasure(Early, "w", 60))
    ensures var s' := Apply(s, EraseAttempt(Early, Ticket("w", 1), 1));
            && Early in s'.deletions && s'.deletions[Early].work.state == Completed
            && !Recovery.PortableRow(s'.deletions[Early], Early)
  {
    AheadIsClaimed();
    EarlyIsErased(s);
  }

  lemma EarlyIsErased(s: State)
    requires Matches(FencesOf(s), Early, Ticket("w", 1), 1) && s.deletions[Early].requestedAt == 5
    requires s.gens == map[Early := Generation(1, Some(5))] && s.holds == map[] && s.clock == 0
    ensures var d := Erase(s, Early, Ticket("w", 1), 1).deletions;
            && Early in d && d[Early].work.state == Completed && !Recovery.PortableRow(d[Early], Early)
  {
    ErasedPortable(s, Early, Ticket("w", 1), 1);
  }

  lemma EarlyIsNamed()
    ensures Named(Early)
  {
  }

  /** A tombstone from a clock that is ahead is completed before it was requested, and stays behind. */
  lemma FutureTombstonesAreNotPortable() returns (run: seq<Action>)
    ensures run == AheadOfTime
    ensures var s := Exec(Empty, run);
            && Named(Early) && Early in s.deletions && s.deletions[Early].work.state == Completed
            && !Recovery.PortableRow(s.deletions[Early], Early)
  {
    run := AheadOfTime;
    EarlyIsNamed();
    AheadIsImported();
    AheadIsErased(Apply(Restored, run[1]));
    ExecThree(Empty, run);
  }

  lemma ExecThree(s: State, run: seq<Action>)
    requires |run| == 3
    ensures Exec(s, run) == Apply(Apply(Apply(s, run[0]), run[1]), run[2])
  {
    var s1 := Apply(s, run[0]);
    var s2 := Apply(s1, run[1]);
    assert Exec(s, run) == Exec(s1, run[1..]);
    assert Exec(s1, run[1..]) == Exec(s2, run[1..][1..]);
    assert Exec(s2, run[1..][1..]) == Exec(Apply(s2, run[2]), []);
  }

  /** Whatever was imported stays in force: the attempts remain fenced at least that far. */
  lemma ImportsStayInForce(run: seq<Action>, b: Bundle, i: nat)
    requires b in Exec(Empty, run).imports && i < |b.entries|
    ensures InForce(Exec(Empty, run).gens, b.entries[i])
  {
    EmptyIsGood();
    RunInForce(Empty, run);
    assert Imposed(Exec(Empty, run).gens, b);
  }

  /** The bundle of one page of the exporting catalog. */
  ghost predicate PageImported(deletions: map<Attempt, Deletion>, page: Recovery.Page, imports: set<Bundle>) {
    exists b :: b in imports && Recovery.Carries(b, deletions, page.rows)
  }

  /** After all pages of an export are imported, every deletion it listed is in force. */
  lemma RestoreIsComplete(deletions: map<Attempt, Deletion>, limit: nat, run: seq<Action>, a: Attempt)
    requires 1 <= limit && a in deletions && deletions[a].work.state == Completed
    requires var pages := Recovery.Follow(Recovery.Completions(deletions), None, limit);
             forall i :: 0 <= i < |pages| ==> PageImported(deletions, pages[i], Exec(Empty, run).imports)
    ensures Fenced(Exec(Empty, run).gens, a) && deletions[a].generation <= Exec(Empty, run).gens[a].number
  {
    var keys := Recovery.Completions(deletions);
    var pages := Recovery.Follow(keys, None, limit);
    Recovery.FollowYieldsAll(keys, None, limit);
    assert a in Recovery.Joined(pages);
    var i := PageWith(pages, a);
    assert PageImported(deletions, pages[i], Exec(Empty, run).imports);
    var b :| b in Exec(Empty, run).imports && Recovery.Carries(b, deletions, pages[i].rows);
    var j :| 0 <= j < |pages[i].rows| && pages[i].rows[j] == a;
    ImportsStayInForce(run, b, j);
  }

  lemma {:induction false} PageWith(pages: seq<Recovery.Page>, a: Attempt) returns (i: nat)
    requires a in Recovery.Joined(pages)
    ensures i < |pages| && a in pages[i].rows
    decreases |pages|
  {
    if a in pages[0].rows {
      i := 0;
    } else {
      var j := PageWith(pages[1..], a);
      i := j + 1;
    }
  }
}
