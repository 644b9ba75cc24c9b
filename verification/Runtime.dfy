/**
 The service object performs the lifecycle: whatever sequence of transactions, crashes and waits is
 run on it, its tables go through the states of the corresponding run, and keep the invariant.
 */
module Runtime {
  import opened Leases
  import opened Catalog
  import opened Erasure
  import opened Collection
  import opened Invariants
  import opened Lifecycle
  import opened Service

  lemma RevisionsDiffer(s: State)
    requires Charted(s.gens, s.manifests, s.normalized, s.revisions, s.heads, s.nextId)
    ensures SameInputsOnce(s.revisions, s.gens)
  {
    forall v, w | v in s.revisions && w in s.revisions && Live(s.gens, s.revisions[v].attempt) && v != w
      ensures !AlikeRevisions(s.revisions[v], s.revisions[w])
    {
      var a := s.revisions[v].attempt;
      assert Headed(s.gens, s.manifests, s.normalized, s.revisions, s.heads, a);
      assert RevisionOf(s.revisions, v, a);
      assert RevisionOf(s.revisions, w, a) || s.revisions[w].attempt != a;
    }
  }

  method PerformAdmission(service: EvidenceService, act: Action)
    requires Ranged(service.manifests)
    requires act.Tick? || act.ReserveRange? || act.PutObject? || act.CommitSegment?
    modifies service
    ensures service.View() == Apply(old(service.View()), act)
  {
    match act {
      case Tick(seconds) => service.Wait(seconds);
      case ReserveRange(u) => var d := service.Reserve(u);
      case PutObject(key) => var ok := service.Write(key);
      case CommitSegment(u, r) => var d := service.Commit(u, r);
    }
  }

  method PerformRequest(service: EvidenceService, act: Action)
    requires act.Place? || act.Release? || act.Delete?
    modifies service
    ensures service.View() == Apply(old(service.View()), act)
  {
    match act {
      case Place(h, a, reason) => var ok := service.PlaceHold(h, a, reason);
      case Release(h) => var ok := service.ReleaseHold(h);
      case Delete(a) => var ok := service.DeleteAttempt(a);
    }
  }

  method PerformLease(service: EvidenceService, act: Action)
    requires act.ClaimErasure? || act.FailErasure?
    modifies service
    ensures service.View() == Apply(old(service.View()), act)
  {
    match act {
      case ClaimErasure(a, owner, seconds) => var lease := service.ClaimDeletion(a, owner, seconds);
      case FailErasure(a, t, g) => service.FailDeletion(a, t, g);
    }
  }

  /** What took place is what was asked for, except that an erasure may be cut short. */
  ghost predicate Carries(asked: Action, done: Action) {
    || done == asked
    || (&& (asked.EraseAttempt? || asked.EraseAndRollBack?) && (done.EraseAttempt? || done.EraseAndRollBack?)
        && done.attempt == asked.attempt && done.ticket == asked.ticket && done.generation == asked.generation)
  }

  method PerformErasure(service: EvidenceService, a: Attempt, t: Ticket, g: nat, budget: nat) returns (ghost done: Action)
    modifies service
    ensures
      || (done == EraseAttempt(a, t, g) && service.View() == Erase(old(service.View()), a, t, g))
      || (&& done.EraseAndRollBack? && done == EraseAndRollBack(a, t, g, done.gone)
          && service.View() == EraseRolledBack(old(service.View()), a, t, g, done.gone))
  {
    var outcome; ghost var gone;
    outcome, gone := service.Execute(a, t, g, budget);
    done := if outcome == RolledBack then EraseAndRollBack(a, t, g, gone) else EraseAttempt(a, t, g);
  }

  method PerformRestore(service: EvidenceService, act: Action)
    requires act.ImportTombstones? || act.SweepReservations?
    modifies service
    ensures service.View() == Apply(old(service.View()), act)
  {
    ghost var s := service.View();
    match act {
      case ImportTombstones(b) =>
        var ok := service.ApplyTombstones(b);
        assert service.View() == Import(s, b);
      case SweepReservations(batch, ttl, grace) =>
        service.SweepReservations(batch, ttl, grace);
    }
  }

  method PerformCollection(service: EvidenceService, act: Action)
    requires act.CollectObject? || act.CollectAndRollBack? || act.AuditObject?
    modifies service
    ensures service.View() == Apply(old(service.View()), act)
  {
    ghost var s := service.View();
    match act {
      case CollectObject(key) =>
        service.CollectObject(key, true);
        assert service.View() == Collect(s, key);
      case CollectAndRollBack(key) =>
        service.CollectObject(key, false);
        assert service.View() == CollectRolledBack(s, key);
      case AuditObject(key, grace, interval) =>
        service.AuditObject(key, grace, interval);
        assert service.View() == Audit(s, key, grace, interval);
    }
  }

  method PerformWork(service: EvidenceService, act: Action)
    requires act.ClaimRecord? || act.FailRecord?
    modifies service
    ensures service.View() == Apply(old(service.View()), act)
  {
    match act {
      case ClaimRecord(id, owner, seconds) => var lease := service.ClaimRecord(id, owner, seconds);
      case FailRecord(id, t) => service.FailRecord(id, t);
    }
  }

  method PerformReport(service: EvidenceService, act: Action)
    requires SameInputsOnce(service.revisions, service.gens)
    requires act.ReserveReport? || act.PublishReport?
    modifies service
    ensures service.View() == Apply(old(service.View()), act)
  {
    match act {
      case ReserveReport(p, q, grace) => var ok := service.ReserveArtifacts(p, q, grace);
      case PublishReport(id, t, inputs, grace) => var ok := service.PublishReport(id, t, inputs, grace);
    }
  }

  method PerformNormalization(service: EvidenceService, act: Action)
    requires act.NormalizeSegment?
    modifies service
    ensures service.View() == Apply(old(service.View()), act)
  {
    if Readable(service.View(), act.id, act.ticket) {
      var read := service.admitted[service.outbox[act.id].event.receipt];
      var ok := service.NormalizeSegment(act.id, act.ticket, read);
    }
  }

  /**
   Performs an action. Where an erasure is to be interrupted, the objects that are gone are decided
   by the run and not by the caller, so the action that took place is handed back.
   */
  method Perform(service: EvidenceService, act: Action) returns (ghost done: Action)
    requires Ranged(service.manifests) && SameInputsOnce(service.revisions, service.gens)
    modifies service
    ensures Carries(act, done) && service.View() == Apply(old(service.View()), done)
  {
    if act.EraseAttempt? || act.EraseAndRollBack? {
      var budget := if act.EraseAttempt? then |Deletable(service.View(), act.attempt)| else |act.gone|;
      done := PerformErasure(service, act.attempt, act.ticket, act.generation, budget);
    } else {
      done := act;
      PerformOther(service, act);
    }
  }

  method PerformOther(service: EvidenceService, act: Action)
    requires !act.EraseAttempt? && !act.EraseAndRollBack?
    requires Ranged(service.manifests) && SameInputsOnce(service.revisions, service.gens)
    modifies service
    ensures service.View() == Apply(old(service.View()), act)
  {
    if act.Tick? || act.ReserveRange? || act.PutObject? || act.CommitSegment? {
      PerformAdmission(service, act);
    } else if act.Place? || act.Release? || act.Delete? {
      PerformRequest(service, act);
    } else if act.ClaimErasure? || act.FailErasure? {
      PerformLease(service, act);
    } else if act.ImportTombstones? || act.SweepReservations? {
      PerformRestore(service, act);
    } else if act.CollectObject? || act.CollectAndRollBack? || act.AuditObject? {
      PerformCollection(service, act);
    } else if act.ClaimRecord? || act.FailRecord? {
      PerformWork(service, act);
    } else if act.NormalizeSegment? {
      PerformNormalization(service, act);
    } else {
      PerformReport(service, act);
    }
  }

  lemma RunIsReady(run: seq<Action>)
    ensures var s := Exec(Empty, run); Ranged(s.manifests) && SameInputsOnce(s.revisions, s.gens)
  {
    EmptyIsGood();
    RunKept(Empty, run);
    RevisionsDiffer(Exec(Empty, run));
  }

  /** Every state the object gets into is the state of some run from the empty catalog. */
  method PerformAll(service: EvidenceService, script: seq<Action>) returns (ghost run: seq<Action>)
    requires service.View() == Empty
    modifies service
    ensures service.View() == Exec(Empty, run)
    ensures |run| == |script| && forall i :: 0 <= i < |run| ==> Carries(script[i], run[i])
  {
    run := [];
    for i := 0 to |script|
      invariant service.View() == Exec(Empty, run)
      invariant |run| == i && forall j :: 0 <= j < i ==> Carries(script[j], run[j])
    {
      RunIsReady(run);
      ghost var done := Perform(service, script[i]);
      ExecAppend(Empty, run, done);
      run := run + [done];
    }
  }
}
