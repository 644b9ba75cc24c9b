/**
 What serving one outbox record does, in any state that a run can reach: how a report request ends, what
 normalizing a segment leaves behind, and after how many tries a record is given up.
 */
module Serving {
  import opened Leases
  import opened Catalog
  import opened Admission
  import opened Erasure
  import opened Collection
  import opened Reporting
  import opened Invariants
  import opened CollectionProofs
  import opened ReportingProofs
  import opened Lifecycle
  import opened Progress

  /** Only the record `id` may differ, and it still concerns the same event. */
  ghost predicate OnlyRecord(outbox: map<nat, Outbox>, outbox': map<nat, Outbox>, id: nat) {
    && id in outbox && id in outbox' && outbox'[id].event == outbox[id].event
    && (forall i :: i != id ==> (i in outbox' <==> i in outbox))
    && (forall i :: i != id && i in outbox ==> outbox'[i] == outbox[i])
  }

  /** Nothing but the record changed, and it was left in this state without a lease. */
  ghost predicate JustSettled(s: State, s': State, id: nat, state: WorkState) {
    && s' == s.(outbox := s'.outbox) && OnlyRecord(s.outbox, s'.outbox, id)
    && s'.outbox[id].work.state == state && Sound(s'.outbox[id].work)
  }

  lemma QueueFacts(run: seq<Action>)
    ensures var s := Exec(Empty, run);
            && Queueing(s.outbox, s.manifests, s.normalized, s.nextId)
            && Requested(s.gens, s.outbox, s.manifests, s.normalized)
            && Remembered(s.gens, s.manifests, s.admitted, s.nextId)
  {
    EmptyIsGood();
    RunKept(Empty, run);
  }

  lemma ReportFacts(run: seq<Action>)
    ensures var s := Exec(Empty, run);
            && Verified(s.store, s.candidates)
            && Charted(s.gens, s.manifests, s.normalized, s.revisions, s.heads, s.nextId)
  {
    EmptyIsGood();
    RunKept(Empty, run);
  }

  lemma ExecPublish(run: seq<Action>, id: nat, t: Ticket, inputs: set<nat>, grace: nat)
    ensures Exec(Empty, run + [PublishReport(id, t, inputs, grace)]) == Publish(Exec(Empty, run), id, t, inputs, grace)
  {
    ExecAppend(Empty, run, PublishReport(id, t, inputs, grace));
  }

  lemma ExecFail(run: seq<Action>, id: nat, t: Ticket)
    ensures Exec(Empty, run + [FailRecord(id, t)]) == FailOutbox(Exec(Empty, run), id, t)
  {
    ExecAppend(Empty, run, FailRecord(id, t));
  }

  /** Over every run: a suppressed record never belongs to a live attempt. */
  lemma OnlyDeletedAttemptsAreSuppressed(run: seq<Action>, id: nat)
    requires var s := Exec(Empty, run); id in s.outbox && s.outbox[id].work.state == Suppressed
    ensures var s := Exec(Empty, run);
            match s.outbox[id].event
            case ReportRequested(a, _) => !Live(s.gens, a)
            case SegmentAdmitted(r) => r in s.admitted && !Live(s.gens, s.admitted[r].attempt)
  {
    QueueFacts(run);
    var s := Exec(Empty, run);
    assert Abandoned(s.gens, s.manifests, s.outbox[id].event);
  }

  // Report requests.

  lemma LiveInputs(s: State, a: Attempt)
    requires Live(s.gens, a) && Remembered(s.gens, s.manifests, s.admitted, s.nextId)
    ensures InputsOf(s.manifests, s.normalized, a, s.gens[a].number) == NormalizedOf(s.manifests, s.normalized, a)
  {
    assert forall r :: r in s.manifests && s.manifests[r].attempt == a ==> r in s.admitted && s.admitted[r] == s.manifests[r];
  }

  lemma WorkJustSettles(s: State, id: nat, state: WorkState)
    requires id in s.outbox && state != Processing
    ensures JustSettled(s, WithWork(s, id, Settled(s.outbox[id].work, state)), id, state)
  {
  }

  /** The request of a deleted attempt is suppressed, and nothing is published. */
  lemma DeletedIsNotPublished(run: seq<Action>, id: nat, t: Ticket, inputs: set<nat>, grace: nat)
    requires var s := Exec(Empty, run);
             && OwnsOutbox(s, id, t) && s.outbox[id].event.ReportRequested? && inputs != {}
             && !Live(s.gens, s.outbox[id].event.attempt)
    ensures JustSettled(Exec(Empty, run), Exec(Empty, run + [PublishReport(id, t, inputs, grace)]), id, Suppressed)
  {
    ExecPublish(run, id, t, inputs, grace);
    WorkJustSettles(Exec(Empty, run), id, Suppressed);
  }

  /** Where segments were normalized meanwhile, the request waits to be served again at once. */
  lemma OutdatedInputsAreRequeued(run: seq<Action>, id: nat, t: Ticket, inputs: set<nat>, grace: nat)
    requires var s := Exec(Empty, run);
             && OwnsOutbox(s, id, t) && s.outbox[id].event.ReportRequested? && inputs != {}
             && Live(s.gens, s.outbox[id].event.attempt)
             && NormalizedOf(s.manifests, s.normalized, s.outbox[id].event.attempt) != inputs
    ensures var s, s' := Exec(Empty, run), Exec(Empty, run + [PublishReport(id, t, inputs, grace)]);
            JustSettled(s, s', id, Pending) && Claimable(s'.outbox[id].work, s'.clock)
  {
    QueueFacts(run);
    ExecPublish(run, id, t, inputs, grace);
    OutdatedIsRequeued(Exec(Empty, run), id, t, inputs, grace);
  }

  lemma OutdatedIsRequeued(s: State, id: nat, t: Ticket, inputs: set<nat>, grace: nat)
    requires Requested(s.gens, s.outbox, s.manifests, s.normalized)
    requires Remembered(s.gens, s.manifests, s.admitted, s.nextId)
    requires OwnsOutbox(s, id, t) && s.outbox[id].event.ReportRequested? && inputs != {}
    requires Live(s.gens, s.outbox[id].event.attempt)
    requires NormalizedOf(s.manifests, s.normalized, s.outbox[id].event.attempt) != inputs
    ensures var s' := Publish(s, id, t, inputs, grace);
            JustSettled(s, s', id, Pending) && Claimable(s'.outbox[id].work, s'.clock)
  {
    LiveInputs(s, s.outbox[id].event.attempt);
    WorkJustSettles(s, id, Pending);
  }

  /** The artifact is in the store, and the collector leaves it alone. */
  ghost predicate Safe(s: State, key: Key) {
    && ExistsVerified(s.store, key, key.content)
    && key in s.candidates && s.candidates[key].content == key.content && s.candidates[key].state == Protected
  }

  /** Both artifacts are safe, and no other object or candidate changed. */
  ghost predicate ArtifactsFiled(s: State, s': State, p: Key, q: Key) {
    && Safe(s', p) && Safe(s', q)
    && (forall k :: k != p && k != q ==> (k in s'.store <==> k in s.store) && (k in s'.candidates <==> k in s.candidates))
    && (forall k :: k != p && k != q && k in s.store ==> s'.store[k] == s.store[k])
    && (forall k :: k != p && k != q && k in s.candidates ==> s'.candidates[k] == s.candidates[k])
  }

  type Heads = map<Attempt, Head>
  type Revisions = map<nat, Revision>

  /** The head of the attempt is over `inputs`; it moved one number up unless it had been there. */
  ghost predicate HeadReached(
    heads: Heads, revisions: Revisions, heads': Heads, revisions': Revisions, a: Attempt, inputs: set<nat>) {
    && a in heads' && heads'[a].inputs == inputs
    && heads' == heads[a := heads'[a]]
    && (if a in heads && heads[a].inputs == inputs then heads' == heads && revisions' == revisions
        else
          && heads'[a].revision !in revisions && heads'[a].revision in revisions'
          && revisions' == revisions[heads'[a].revision := revisions'[heads'[a].revision]]
          && heads'[a].number == (if a in heads then heads[a].number + 1 else 1))
  }

  /** The head covers the inputs, both artifacts are safe, the request is completed, and nothing else changed. */
  ghost predicate ReportServed(s: State, s': State, id: nat, e: Event, inputs: set<nat>) {
    && e.ReportRequested?
    && HeadReached(s.heads, s.revisions, s'.heads, s'.revisions, e.attempt, inputs)
    && ArtifactsFiled(s, s', ProjectionKeyOf(e.attempt, inputs), ReportKeyOf(e.attempt, e.generation, inputs))
    && OnlyRecord(s.outbox, s'.outbox, id) && s'.outbox[id].work.state == Completed && Sound(s'.outbox[id].work)
    && s' == s.(outbox := s'.outbox, heads := s'.heads, revisions := s'.revisions, store := s'.store,
                candidates := s'.candidates, nextId := s'.nextId)
  }

  lemma ArtifactsAreFiled(s: State, p: Key, q: Key, grace: nat)
    requires Verified(s.store, s.candidates)
    ensures ArtifactsFiled(s, WithArtifacts(s, p, q, grace), p, q)
  {
    ShieldContent(s.candidates, p, s.clock + grace, s.clock);
    ShieldContent(s.candidates, q, s.clock + grace, s.clock);
  }

  lemma HeadIsReached(s: State, id: nat, w: Work, a: Attempt, g: nat, inputs: set<nat>)
    requires forall v :: v in s.revisions ==> v < s.nextId
    requires a in s.heads ==> s.heads[a].generation == g
    ensures var s' := Publishing(s, id, w, a, g, inputs);
            HeadReached(s.heads, s.revisions, s'.heads, s'.revisions, a, inputs)
  {
    WorkMovesNoHead(if a in s.heads && s.heads[a].inputs == inputs then s else Appending(s, a, g, inputs), id, w);
    if a in s.heads && s.heads[a].inputs == inputs {
      HeadStays(s.heads, s.revisions, a, inputs);
    } else {
      AppendingReaches(s, a, g, inputs);
    }
  }

  lemma WorkMovesNoHead(s: State, id: nat, w: Work)
    ensures WithWork(s, id, w).heads == s.heads && WithWork(s, id, w).revisions == s.revisions
  {
  }

  lemma HeadStays(heads: Heads, revisions: Revisions, a: Attempt, inputs: set<nat>)
    requires a in heads && heads[a].inputs == inputs
    ensures HeadReached(heads, revisions, heads, revisions, a, inputs)
  {
    assert heads == heads[a := heads[a]];
  }

  lemma AppendingReaches(s: State, a: Attempt, g: nat, inputs: set<nat>)
    requires forall v :: v in s.revisions ==> v < s.nextId
    requires a in s.heads ==> s.heads[a].generation == g && s.heads[a].inputs != inputs
    ensures var s' := Appending(s, a, g, inputs);
            HeadReached(s.heads, s.revisions, s'.heads, s'.revisions, a, inputs)
  {
  }

  lemma OnlyHeadMoves(s: State, id: nat, w: Work, a: Attempt, g: nat, inputs: set<nat>)
    requires id in s.outbox
    ensures var s' := Publishing(s, id, w, a, g, inputs);
            && s' == s.(outbox := s'.outbox, heads := s'.heads, revisions := s'.revisions, nextId := s'.nextId)
            && s'.outbox == Reworked(s.outbox, id, w) && OnlyRecord(s.outbox, s'.outbox, id)
  {
  }

  /**
   A worker whose inputs are still all normalized segments of the attempt always publishes them: the
   head covers them, both artifacts are stored and protected, and the request is completed.
   */
  lemma CurrentInputsArePublished(run: seq<Action>, id: nat, t: Ticket, inputs: set<nat>, grace: nat)
    requires var s := Exec(Empty, run);
             && OwnsOutbox(s, id, t) && s.outbox[id].event.ReportRequested? && inputs != {}
             && Live(s.gens, s.outbox[id].event.attempt)
             && NormalizedOf(s.manifests, s.normalized, s.outbox[id].event.attempt) == inputs
    ensures var s, s' := Exec(Empty, run), Exec(Empty, run + [PublishReport(id, t, inputs, grace)]);
            ReportServed(s, s', id, s.outbox[id].event, inputs)
  {
    QueueFacts(run);
    ReportFacts(run);
    ExecPublish(run, id, t, inputs, grace);
    CurrentIsPublished(Exec(Empty, run), id, t, inputs, grace);
  }

  lemma CurrentIsPublished(s: State, id: nat, t: Ticket, inputs: set<nat>, grace: nat)
    requires Verified(s.store, s.candidates)
    requires Charted(s.gens, s.manifests, s.normalized, s.revisions, s.heads, s.nextId)
    requires OwnsOutbox(s, id, t) && s.outbox[id].event.ReportRequested? && inputs != {}
    requires Requested(s.gens, s.outbox, s.manifests, s.normalized)
    requires Remembered(s.gens, s.manifests, s.admitted, s.nextId)
    requires Live(s.gens, s.outbox[id].event.attempt)
    requires NormalizedOf(s.manifests, s.normalized, s.outbox[id].event.attempt) == inputs
    ensures var s' := Publish(s, id, t, inputs, grace);
            ReportServed(s, s', id, s.outbox[id].event, inputs)
  {
    var a, g := s.outbox[id].event.attempt, s.outbox[id].event.generation;
    LiveInputs(s, a);
    PublishedAsRead(s, id, t, inputs, grace, a, g);
  }

  lemma PublishedAsRead(s: State, id: nat, t: Ticket, inputs: set<nat>, grace: nat, a: Attempt, g: nat)
    requires Verified(s.store, s.candidates)
    requires Charted(s.gens, s.manifests, s.normalized, s.revisions, s.heads, s.nextId)
    requires OwnsOutbox(s, id, t) && s.outbox[id].event == ReportRequested(a, g) && inputs != {}
    requires Live(s.gens, a) && s.gens[a].number == g && InputsOf(s.manifests, s.normalized, a, g) == inputs
    ensures ReportServed(s, Publish(s, id, t, inputs, grace), id, ReportRequested(a, g), inputs)
  {
    NoOlderRevision(s, a, g, inputs);
    PublishShape(s, id, t, inputs, grace, a, g);
    NumberedHeads(s, a);
    FiledIsServed(s, id, a, g, inputs, grace);
  }

  lemma NumberedHeads(s: State, a: Attempt)
    requires Charted(s.gens, s.manifests, s.normalized, s.revisions, s.heads, s.nextId) && Live(s.gens, a)
    ensures forall v :: v in s.revisions ==> v < s.nextId
    ensures a in s.heads ==> s.heads[a].generation == s.gens[a].number
  {
  }

  lemma FiledIsServed(s: State, id: nat, a: Attempt, g: nat, inputs: set<nat>, grace: nat)
    requires Verified(s.store, s.candidates)
    requires id in s.outbox && (forall v :: v in s.revisions ==> v < s.nextId)
    requires a in s.heads ==> s.heads[a].generation == g
    ensures var s1 := WithArtifacts(s, ProjectionKeyOf(a, inputs), ReportKeyOf(a, g, inputs), grace);
            ReportServed(s, Publishing(s1, id, Settled(s.outbox[id].work, Completed), a, g, inputs), id, ReportRequested(a, g), inputs)
  {
    var p, q := ProjectionKeyOf(a, inputs), ReportKeyOf(a, g, inputs);
    ArtifactsAreFiled(s, p, q, grace);
    var s1 := WithArtifacts(s, p, q, grace);
    assert s1 == s.(store := s1.store, candidates := s1.candidates);
    WrittenIsServed(s, s1, id, Settled(s.outbox[id].work, Completed), a, g, inputs);
  }

  lemma WrittenIsServed(s: State, s1: State, id: nat, w: Work, a: Attempt, g: nat, inputs: set<nat>)
    requires s1 == s.(store := s1.store, candidates := s1.candidates)
    requires ArtifactsFiled(s, s1, ProjectionKeyOf(a, inputs), ReportKeyOf(a, g, inputs))
    requires id in s.outbox && (forall v :: v in s.revisions ==> v < s.nextId)
    requires a in s.heads ==> s.heads[a].generation == g
    requires w.state == Completed && Sound(w)
    ensures ReportServed(s, Publishing(s1, id, w, a, g, inputs), id, ReportRequested(a, g), inputs)
  {
    HeadIsReached(s1, id, w, a, g, inputs);
    OnlyHeadMoves(s1, id, w, a, g, inputs);
  }

  // Normalization.

  /** The segment's request for a new report, under a number that was never used. */
  ghost predicate Announced(outbox: map<nat, Outbox>, outbox': map<nat, Outbox>, id: nat, request: nat, m: Manifest) {
    && request !in outbox && request in outbox' && id in outbox && id in outbox' && id != request
    && outbox'[request].event == ReportRequested(m.attempt, m.generation) && outbox'[request].work == Queued()
    && outbox'[id].event == outbox[id].event && outbox'[id].work.state == Completed && Sound(outbox'[id].work)
    && (forall i :: i != id && i != request ==> (i in outbox' <==> i in outbox))
    && (forall i :: i != id && i != request && i in outbox ==> outbox'[i] == outbox[i])
  }

  /** The record is completed; a segment met for the first time is normalized and announced. */
  ghost predicate Normalizes(s: State, s': State, id: nat, r: nat, m: Manifest) {
    if !Live(s.gens, m.attempt) then JustSettled(s, s', id, Suppressed)
    else if r in s.normalized then JustSettled(s, s', id, Completed)
    else
      && s' == s.(outbox := s'.outbox, normalized := s'.normalized, nextId := s'.nextId)
      && s'.normalized == s.normalized[r := Normalized(m.records, m.content)]
      && exists i :: Announced(s.outbox, s'.outbox, id, i, m)
  }

  /** A segment of a live attempt is normalized once, together with one request for a report over it. */
  lemma SegmentsAreNormalizedOnce(run: seq<Action>, id: nat, t: Ticket)
    requires var s := Exec(Empty, run); OwnsOutbox(s, id, t) && s.outbox[id].event.SegmentAdmitted?
    ensures var s := Exec(Empty, run);
            var r := s.outbox[id].event.receipt;
            r in s.manifests && Normalizes(s, Exec(Empty, run + [NormalizeSegment(id, t)]), id, r, s.manifests[r])
  {
    QueueFacts(run);
    ExecAppend(Empty, run, NormalizeSegment(id, t));
    ReadsTheManifest(Exec(Empty, run), id, t);
    NormalizedAsAdmitted(Exec(Empty, run), id, t, Exec(Empty, run).manifests[Exec(Empty, run).outbox[id].event.receipt]);
  }

  lemma ReadsTheManifest(s: State, id: nat, t: Ticket)
    requires OwnsOutbox(s, id, t) && s.outbox[id].event.SegmentAdmitted?
    requires Queueing(s.outbox, s.manifests, s.normalized, s.nextId)
    requires Remembered(s.gens, s.manifests, s.admitted, s.nextId)
    ensures s.outbox[id].event.receipt in s.manifests
    ensures Apply(s, NormalizeSegment(id, t)) == Normalize(s, id, t, s.manifests[s.outbox[id].event.receipt])
  {
  }

  lemma NormalizedAsAdmitted(s: State, id: nat, t: Ticket, m: Manifest)
    requires OwnsOutbox(s, id, t) && s.outbox[id].event.SegmentAdmitted?
    requires Queueing(s.outbox, s.manifests, s.normalized, s.nextId)
    requires Remembered(s.gens, s.manifests, s.admitted, s.nextId)
    requires s.outbox[id].event.receipt in s.manifests && s.manifests[s.outbox[id].event.receipt] == m
    ensures Normalizes(s, Normalize(s, id, t, m), id, s.outbox[id].event.receipt, m)
  {
    var r := s.outbox[id].event.receipt;
    NormalizeShape(s, id, t, m);
    NeverClashes(s, r, m);
    if !Live(s.gens, m.attempt) {
      WorkJustSettles(s, id, Suppressed);
    } else if r in s.normalized {
      WorkJustSettles(s, id, Completed);
    } else {
      RequestIsAnnounced(s, id, r, m);
    }
  }

  lemma RequestIsAnnounced(s: State, id: nat, r: nat, m: Manifest)
    requires id in s.outbox && forall i :: i in s.outbox ==> i < s.nextId
    ensures var s' := Normalizing(WithWork(s, id, Settled(s.outbox[id].work, Completed)), r, m);
            && s' == s.(outbox := s'.outbox, normalized := s'.normalized, nextId := s'.nextId)
            && s'.normalized == s.normalized[r := Normalized(m.records, m.content)]
            && Announced(s.outbox, s'.outbox, id, s.nextId, m)
  {
  }

  // Claims and failures.

  /** A claimable record is leased for exactly the time asked for, and any other claim does nothing. */
  lemma ClaimsLease(run: seq<Action>, id: nat, owner: string, seconds: nat)
    ensures var s, s' := Exec(Empty, run), Exec(Empty, run + [ClaimRecord(id, owner, seconds)]);
            if id in s.outbox && Claimable(s.outbox[id].work, s.clock) then
              && s' == s.(outbox := s'.outbox) && OnlyRecord(s.outbox, s'.outbox, id)
              && var w, w' := s.outbox[id].work, s'.outbox[id].work;
                 && Owns(w', Ticket(owner, w.generation + 1)) && w'.attempts == w.attempts + 1
                 && forall later: nat :: Claimable(w', later) <==> s.clock + seconds < later
            else s' == s
  {
    ExecAppend(Empty, run, ClaimRecord(id, owner, seconds));
  }

  /** A record whose holder fails is queued again exactly if fewer than five tries were made. */
  lemma FailuresAreRetried(run: seq<Action>, id: nat, t: Ticket)
    ensures var s, s' := Exec(Empty, run), Exec(Empty, run + [FailRecord(id, t)]);
            if OwnsOutbox(s, id, t) then
              && JustSettled(s, s', id, if s.outbox[id].work.attempts < 5 then Pending else Failed)
              && s'.outbox[id].work.attempts == s.outbox[id].work.attempts
            else s' == s
  {
    QueueFacts(run);
    ExecFail(run, id, t);
    FailureIsRetried(Exec(Empty, run), id, t);
  }

  lemma FailureIsRetried(s: State, id: nat, t: Ticket)
    requires id in s.outbox ==> Sound(s.outbox[id].work)
    ensures var s' := FailOutbox(s, id, t);
            if OwnsOutbox(s, id, t) then
              && JustSettled(s, s', id, if s.outbox[id].work.attempts < 5 then Pending else Failed)
              && s'.outbox[id].work.attempts == s.outbox[id].work.attempts
            else s' == s
  {
  }
}
