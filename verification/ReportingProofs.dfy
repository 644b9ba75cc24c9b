/** Normalization and report publication keep the lifecycle invariant. */
module ReportingProofs {
  import opened Leases
  import opened Catalog
  import opened Reporting
  import opened Invariants
  import opened AdmissionProofs
  import opened CollectionProofs

  /** Completing a report request is only sound once the head covers its attempt. */
  ghost predicate Served(s: State, e: Event) {
    e.ReportRequested? && Live(s.gens, e.attempt) ==>
      && e.attempt in s.heads
      && s.heads[e.attempt].inputs == InputsOf(s.manifests, s.normalized, e.attempt, s.gens[e.attempt].number)
  }

  lemma WorkKeepsQueue(s: State, id: nat, w: Work)
    requires id in s.outbox && Sound(w)
    requires Queueing(s.outbox, s.manifests, s.normalized, s.nextId)
    ensures Queueing(Reworked(s.outbox, id, w), s.manifests, s.normalized, s.nextId)
  {
    var outbox' := Reworked(s.outbox, id, w);
    forall r | r in s.manifests
      ensures HasAdmission(outbox', r)
    {
      assert HasAdmission(s.outbox, r);
      var i :| i in s.outbox && s.outbox[i].event == SegmentAdmitted(r);
      assert outbox'[i].event == s.outbox[i].event;
    }
  }

  lemma WorkKeepsRequests(s: State, id: nat, w: Work)
    requires id in s.outbox && (w.state == Suppressed ==> Abandoned(s.gens, s.manifests, s.outbox[id].event))
    requires Requested(s.gens, s.outbox, s.manifests, s.normalized)
    ensures Requested(s.gens, Reworked(s.outbox, id, w), s.manifests, s.normalized)
  {
    forall a
      ensures RequestIds(Reworked(s.outbox, id, w), a) == RequestIds(s.outbox, a)
    {
    }
  }

  lemma WorkKeepsCover(s: State, id: nat, w: Work)
    requires id in s.outbox && (Open(w) || Served(s, s.outbox[id].event))
    requires Covered(s.gens, s.manifests, s.normalized, s.heads, s.outbox)
    ensures Covered(s.gens, s.manifests, s.normalized, s.heads, Reworked(s.outbox, id, w))
  {
    var outbox' := Reworked(s.outbox, id, w);
    forall a | Live(s.gens, a) && Outstanding(s.outbox, a)
      ensures Outstanding(outbox', a) || (!Open(w) && s.outbox[id].event.ReportRequested? && s.outbox[id].event.attempt == a)
    {
      var i :| i in s.outbox && s.outbox[i].event.ReportRequested? && s.outbox[i].event.attempt == a
               && Open(s.outbox[i].work);
      assert outbox'[i].event == s.outbox[i].event;
    }
  }

  lemma WorkPurged(s: State, id: nat, w: Work)
    requires id in s.outbox && Purged(s)
    ensures Purged(WithWork(s, id, w)) && forall b :: Gone(s, b) ==> Gone(WithWork(s, id, w), b)
  {
    var s' := WithWork(s, id, w);
    forall b | b in s'.deletions && s'.deletions[b].work.state == Completed
      ensures Gone(s', b)
    {
      assert Gone(s, b);
    }
  }

  lemma WorkKeeps(s: State, id: nat, w: Work)
    requires Inv(s) && id in s.outbox && Sound(w)
    requires Open(w) || Served(s, s.outbox[id].event)
    requires w.state == Suppressed ==> Abandoned(s.gens, s.manifests, s.outbox[id].event)
    ensures Inv(WithWork(s, id, w))
  {
    WorkKeepsQueue(s, id, w);
    WorkKeepsRequests(s, id, w);
    WorkKeepsCover(s, id, w);
    WorkPurged(s, id, w);
  }

  lemma ClaimOutboxKeeps(s: State, id: nat, owner: string, seconds: nat)
    requires Inv(s)
    ensures Kept(s, ClaimOutbox(s, id, owner, seconds))
  {
    if id in s.outbox && Claimable(s.outbox[id].work, s.clock) {
      var w := Claimed(s.outbox[id].work, owner, s.clock, seconds);
      WorkKeeps(s, id, w);
      WorkPurged(s, id, w);
      assert ClaimOutbox(s, id, owner, seconds) == WithWork(s, id, w);
    } else {
      assert ClaimOutbox(s, id, owner, seconds) == s;
    }
  }

  lemma FailOutboxKeeps(s: State, id: nat, t: Ticket)
    requires Inv(s)
    ensures Kept(s, FailOutbox(s, id, t))
  {
    if id in s.outbox && HoldsLease(s.outbox[id].work, t) {
      var w := Retried(s.outbox[id].work, RetryCap);
      WorkKeeps(s, id, w);
      WorkPurged(s, id, w);
      assert FailOutbox(s, id, t) == WithWork(s, id, w);
    } else {
      assert FailOutbox(s, id, t) == s;
    }
  }

  // Normalization.

  ghost predicate Normalizable(s: State, receipt: nat, m: Manifest) {
    && receipt !in s.normalized && receipt in s.manifests && s.manifests[receipt] == m
    && Live(s.gens, m.attempt) && s.gens[m.attempt].number == m.generation
  }

  lemma RequestKeepsQueue(s: State, a: Attempt, g: nat)
    requires Queueing(s.outbox, s.manifests, s.normalized, s.nextId)
    ensures Queueing(WithReportRequest(s, a, g), s.manifests, s.normalized, s.nextId + 1)
  {
    var outbox := WithReportRequest(s, a, g);
    forall r | r in s.manifests
      ensures HasAdmission(outbox, r)
    {
      assert HasAdmission(s.outbox, r);
      var i :| i in s.outbox && s.outbox[i].event == SegmentAdmitted(r);
      assert outbox[i] == s.outbox[i];
    }
  }

  lemma NormalizingKeepsQueue(s: State, receipt: nat, m: Manifest)
    requires Normalizable(s, receipt, m) && receipt < s.nextId
    requires Queueing(s.outbox, s.manifests, s.normalized, s.nextId)
    ensures var s' := Normalizing(s, receipt, m); Queueing(s'.outbox, s'.manifests, s'.normalized, s'.nextId)
  {
    RequestKeepsQueue(s, m.attempt, m.generation);
  }

  lemma NormalizingViews(s: State, receipt: nat, m: Manifest, a: Attempt, g: nat)
    requires Normalizable(s, receipt, m) && s.nextId !in s.outbox
    ensures var s' := Normalizing(s, receipt, m);
            && RequestIds(s'.outbox, a) == RequestIds(s.outbox, a) + (if a == m.attempt then {s.nextId} else {})
            && NormalizedOf(s'.manifests, s'.normalized, a)
               == NormalizedOf(s.manifests, s.normalized, a) + (if a == m.attempt then {receipt} else {})
            && InputsOf(s'.manifests, s'.normalized, a, g)
               == InputsOf(s.manifests, s.normalized, a, g) + (if a == m.attempt && g == m.generation then {receipt} else {})
            && (Outstanding(s.outbox, a) || a == m.attempt ==> Outstanding(s'.outbox, a))
  {
    var s' := Normalizing(s, receipt, m);
    if a == m.attempt {
      assert s'.outbox[s.nextId].event == ReportRequested(a, m.generation);
    } else if Outstanding(s.outbox, a) {
      var i :| i in s.outbox && s.outbox[i].event.ReportRequested? && s.outbox[i].event.attempt == a
               && Open(s.outbox[i].work);
      assert s'.outbox[i] == s.outbox[i];
    }
  }

  lemma NormalizingCounts(s: State, receipt: nat, m: Manifest, a: Attempt)
    requires Normalizable(s, receipt, m) && s.nextId !in s.outbox
    requires |RequestIds(s.outbox, a)| == |NormalizedOf(s.manifests, s.normalized, a)|
    ensures var s' := Normalizing(s, receipt, m);
            |RequestIds(s'.outbox, a)| == |NormalizedOf(s'.manifests, s'.normalized, a)|
  {
    NormalizingViews(s, receipt, m, a, 0);
  }

  lemma NormalizingKeepsRequests(s: State, receipt: nat, m: Manifest)
    requires Normalizable(s, receipt, m) && s.nextId !in s.outbox
    requires Requested(s.gens, s.outbox, s.manifests, s.normalized)
    ensures var s' := Normalizing(s, receipt, m); Requested(s'.gens, s'.outbox, s'.manifests, s'.normalized)
  {
    var s' := Normalizing(s, receipt, m);
    forall a | Live(s'.gens, a)
      ensures |RequestIds(s'.outbox, a)| == |NormalizedOf(s'.manifests, s'.normalized, a)|
    {
      NormalizingCounts(s, receipt, m, a);
    }
  }

  lemma NormalizingKeepsReports(s: State, receipt: nat, m: Manifest)
    requires Normalizable(s, receipt, m) && s.nextId !in s.outbox
    requires Charted(s.gens, s.manifests, s.normalized, s.revisions, s.heads, s.nextId)
    requires Covered(s.gens, s.manifests, s.normalized, s.heads, s.outbox)
    ensures var s' := Normalizing(s, receipt, m);
            && Charted(s'.gens, s'.manifests, s'.normalized, s'.revisions, s'.heads, s'.nextId)
            && Covered(s'.gens, s'.manifests, s'.normalized, s'.heads, s'.outbox)
  {
    var s' := Normalizing(s, receipt, m);
    forall a | Live(s'.gens, a)
      ensures Headed(s'.gens, s'.manifests, s'.normalized, s'.revisions, s'.heads, a)
    {
      assert Headed(s.gens, s.manifests, s.normalized, s.revisions, s.heads, a);
      if a in s.heads {
        NormalizingViews(s, receipt, m, a, s.heads[a].generation);
      }
    }
    forall a | Live(s'.gens, a)
      ensures a == m.attempt || InputsOf(s'.manifests, s'.normalized, a, s.gens[a].number)
                             == InputsOf(s.manifests, s.normalized, a, s.gens[a].number)
      ensures Outstanding(s.outbox, a) || a == m.attempt ==> Outstanding(s'.outbox, a)
    {
      NormalizingViews(s, receipt, m, a, s.gens[a].number);
    }
  }

  lemma NormalizingPurged(s: State, receipt: nat, m: Manifest)
    requires Normalizable(s, receipt, m) && Purged(s)
    ensures var s' := Normalizing(s, receipt, m); Purged(s') && forall b :: Gone(s, b) ==> Gone(s', b)
  {
    var s' := Normalizing(s, receipt, m);
    forall b | b in s'.deletions && s'.deletions[b].work.state == Completed
      ensures Gone(s', b)
    {
      assert Gone(s, b);
    }
  }

  lemma NormalizingKeeps(s: State, receipt: nat, m: Manifest)
    requires Inv(s) && Normalizable(s, receipt, m)
    ensures Inv(Normalizing(s, receipt, m))
  {
    NormalizingKeepsQueue(s, receipt, m);
    NormalizingKeepsRequests(s, receipt, m);
    NormalizingKeepsReports(s, receipt, m);
    NormalizingPurged(s, receipt, m);
  }

  /** In a good state, normalizing settles the record and may add one segment with its request. */
  lemma NormalizeShape(s: State, id: nat, t: Ticket, read: Manifest)
    requires OwnsOutbox(s, id, t) && s.outbox[id].event.SegmentAdmitted?
    ensures var receipt := s.outbox[id].event.receipt;
            var live := Live(s.gens, read.attempt) && s.gens[read.attempt].number == read.generation;
            var s1 := WithWork(s, id, Settled(s.outbox[id].work, if live then Completed else Suppressed));
            Normalize(s, id, t, read) ==
              if live && Clashes(s.normalized, receipt, read) then s
              else if live && receipt !in s.normalized then Normalizing(s1, receipt, read)
              else s1
  {
  }

  /** A live attempt still has the manifest the worker read. */
  lemma ReadStillThere(s: State, id: nat, read: Manifest)
    requires id in s.outbox && s.outbox[id].event.SegmentAdmitted?
    requires Remembered(s.gens, s.manifests, s.admitted, s.nextId)
    requires s.outbox[id].event.receipt in s.admitted && s.admitted[s.outbox[id].event.receipt] == read
    ensures Live(s.gens, read.attempt) && s.outbox[id].event.receipt !in s.normalized ==>
              Normalizable(s, s.outbox[id].event.receipt, read)
  {
  }

  /** The worker's earlier read is a manifest that was admitted under the same receipt. */
  lemma NormalizeKeeps(s: State, id: nat, t: Ticket, read: Manifest)
    requires Inv(s)
    requires OwnsOutbox(s, id, t) && s.outbox[id].event.SegmentAdmitted?
    requires s.outbox[id].event.receipt in s.admitted && s.admitted[s.outbox[id].event.receipt] == read
    ensures Kept(s, Normalize(s, id, t, read))
  {
    var receipt := s.outbox[id].event.receipt;
    var live := Live(s.gens, read.attempt) && s.gens[read.attempt].number == read.generation;
    var w := Settled(s.outbox[id].work, if live then Completed else Suppressed);
    NormalizeShape(s, id, t, read);
    ReadStillThere(s, id, read);
    WorkKeeps(s, id, w);
    WorkPurged(s, id, w);
    if live && receipt !in s.normalized {
      NormalizingKeeps(WithWork(s, id, w), receipt, read);
      NormalizingPurged(WithWork(s, id, w), receipt, read);
    } else if live {
      NeverClashes(s, receipt, read);
    }
  }

  /** Normalizing again meets the content it met the first time. */
  lemma NeverClashes(s: State, receipt: nat, read: Manifest)
    requires Queueing(s.outbox, s.manifests, s.normalized, s.nextId)
    requires Remembered(s.gens, s.manifests, s.admitted, s.nextId)
    requires receipt in s.admitted && s.admitted[receipt] == read
    ensures !Clashes(s.normalized, receipt, read)
  {
  }

  // Publication.

  lemma CandidatesFaithful(candidates: map<Key, Candidate>, p: Key, q: Key, notBefore: nat)
    requires Faithful(candidates)
    ensures Faithful(WithCandidates(candidates, p, q, notBefore))
    ensures p in WithCandidates(candidates, p, q, notBefore) && q in WithCandidates(candidates, p, q, notBefore)
  {
    assert Faithful(WithCandidate(candidates, p, notBefore));
  }

  lemma ReserveArtifactsStep(s: State, p: Key, q: Key, grace: nat)
    requires Storing(s)
    ensures StoreStep(s, ReserveArtifacts(s, p, q, grace))
  {
    if Agreed(s, p) && Agreed(s, q) {
      CandidatesFaithful(s.candidates, p, q, s.clock + grace);
      var candidates := WithCandidates(s.candidates, p, q, s.clock + grace);
      CandidateStep(s, candidates);
      assert ReserveArtifacts(s, p, q, grace) == s.(candidates := candidates);
    } else {
      CandidateStep(s, s.candidates);
      assert ReserveArtifacts(s, p, q, grace) == s.(candidates := s.candidates);
    }
  }

  lemma FiledStored(s: State, p: Key, q: Key)
    requires Storing(s)
    ensures var store := Filed(s.store, p, q);
            && p in store && q in store && (forall k :: k in store ==> store[k] == k.content)
            && SegmentsStored(s.gens, s.manifests, store) && ArtifactsStored(s.gens, s.revisions, store)
  {
  }

  lemma ShieldedFaithful(candidates: map<Key, Candidate>, p: Key, q: Key, notBefore: nat, now: nat)
    requires Faithful(candidates)
    ensures Faithful(Shielded(candidates, p, q, notBefore, now))
  {
    ShieldContent(candidates, p, notBefore, now);
    ShieldContent(candidates, q, notBefore, now);
  }

  lemma ShieldContent(candidates: map<Key, Candidate>, key: Key, notBefore: nat, now: nat)
    requires Faithful(candidates)
    ensures Shield(candidates, key, notBefore, now).content == key.content
  {
  }

  lemma WithArtifactsStep(s: State, p: Key, q: Key, grace: nat)
    requires Storing(s)
    ensures StoreStep(s, WithArtifacts(s, p, q, grace))
  {
    FiledStored(s, p, q);
    ShieldedFaithful(s.candidates, p, q, s.clock + grace, s.clock);
    var store, candidates := Filed(s.store, p, q), Shielded(s.candidates, p, q, s.clock + grace, s.clock);
    WritingStep(s, store, candidates);
    assert WithArtifacts(s, p, q, grace) == s.(store := store, candidates := candidates);
  }

  lemma ArtifactsWritten(s: State, p: Key, q: Key, grace: nat)
    requires Storing(s)
    ensures p in WithArtifacts(s, p, q, grace).store && q in WithArtifacts(s, p, q, grace).store
  {
    FiledStored(s, p, q);
  }

  lemma WritingStep(s: State, store: map<Key, Content>, candidates: map<Key, Candidate>)
    requires Verified(store, candidates)
    requires SegmentsStored(s.gens, s.manifests, store) && ArtifactsStored(s.gens, s.revisions, store)
    ensures StoreStep(s, s.(store := store, candidates := candidates))
  {
  }

  /** The branch that would move the head back to an older revision is never taken. */
  lemma NoOlderRevision(s: State, a: Attempt, g: nat, inputs: set<nat>)
    requires Charted(s.gens, s.manifests, s.normalized, s.revisions, s.heads, s.nextId)
    requires Live(s.gens, a) && g == s.gens[a].number && inputs == InputsOf(s.manifests, s.normalized, a, g)
    ensures a in s.heads ==> s.heads[a].generation == g
    ensures forall v :: SameInputs(s, v, a, g, inputs) ==> a in s.heads && s.heads[a].inputs == inputs
  {
  }

  ghost predicate Appendable(s: State, a: Attempt, g: nat, inputs: set<nat>) {
    && Live(s.gens, a) && g == s.gens[a].number
    && inputs == InputsOf(s.manifests, s.normalized, a, g)
    && ReportKeyOf(a, g, inputs) in s.store && ProjectionKeyOf(a, inputs) in s.store
    && (a in s.heads ==> s.heads[a].inputs != inputs)
    && s.nextId !in s.revisions
  }

  lemma AppendingChains(revisions: map<nat, Revision>, a: Attempt, n: nat, id: nat, r: Revision)
    requires id !in revisions && Chained(revisions, a, n)
    requires r.attempt == a && r.number == n + 1
    requires forall v :: RevisionOf(revisions, v, a) ==> revisions[v].inputs < r.inputs
    ensures Chained(revisions[id := r], a, n + 1)
  {
    var revisions' := revisions[id := r];
    forall k | 1 <= k <= n + 1
      ensures HasNumber(revisions', a, k)
    {
      if k == n + 1 {
        assert RevisionOf(revisions', id, a);
      } else {
        assert HasNumber(revisions, a, k);
        var v :| RevisionOf(revisions, v, a) && revisions[v].number == k;
        assert RevisionOf(revisions', v, a) && revisions'[v] == revisions[v];
      }
    }
    forall v, w | RevisionOf(revisions', v, a) && RevisionOf(revisions', w, a) && v != w
      ensures Ordered(revisions'[v], revisions'[w])
    {
      assert v != id ==> RevisionOf(revisions, v, a);
      assert w != id ==> RevisionOf(revisions, w, a);
    }
  }

  lemma AppendingHeads(s: State, a: Attempt, g: nat, inputs: set<nat>)
    requires Appendable(s, a, g, inputs) && Headed(s.gens, s.manifests, s.normalized, s.revisions, s.heads, a)
    ensures var s' := Appending(s, a, g, inputs);
            Headed(s'.gens, s'.manifests, s'.normalized, s'.revisions, s'.heads, a)
  {
    var s' := Appending(s, a, g, inputs);
    var n := if a in s.heads then s.heads[a].number else 0;
    forall v | RevisionOf(s.revisions, v, a)
      ensures s.revisions[v].inputs < inputs
    {
      assert RevisionOf(s.revisions, s.heads[a].revision, a);
    }
    assert Chained(s.revisions, a, n);
    AppendingChains(s.revisions, a, n, s.nextId, s'.revisions[s.nextId]);
    forall v | RevisionOf(s'.revisions, v, a)
      ensures s'.revisions[v].generation == s.gens[a].number
    {
      assert v != s.nextId ==> RevisionOf(s.revisions, v, a);
    }
  }

  /** Appending a revision of one attempt leaves the chains of the others alone. */
  lemma AppendingElsewhere(s: State, a: Attempt, g: nat, inputs: set<nat>, b: Attempt)
    requires b != a && s.nextId !in s.revisions
    requires Headed(s.gens, s.manifests, s.normalized, s.revisions, s.heads, b)
    ensures var s' := Appending(s, a, g, inputs);
            Headed(s'.gens, s'.manifests, s'.normalized, s'.revisions, s'.heads, b)
  {
    var s' := Appending(s, a, g, inputs);
    assert forall v :: RevisionOf(s'.revisions, v, b) <==> RevisionOf(s.revisions, v, b);
    if b in s.heads {
      forall k | 1 <= k <= s.heads[b].number
        ensures HasNumber(s'.revisions, b, k)
      {
        assert HasNumber(s.revisions, b, k);
        var v :| RevisionOf(s.revisions, v, b) && s.revisions[v].number == k;
        assert RevisionOf(s'.revisions, v, b) && s'.revisions[v] == s.revisions[v];
      }
    }
  }

  lemma AppendingKeepsReports(s: State, a: Attempt, g: nat, inputs: set<nat>)
    requires Appendable(s, a, g, inputs)
    requires Charted(s.gens, s.manifests, s.normalized, s.revisions, s.heads, s.nextId)
    ensures var s' := Appending(s, a, g, inputs);
            Charted(s'.gens, s'.manifests, s'.normalized, s'.revisions, s'.heads, s'.nextId)
  {
    var s' := Appending(s, a, g, inputs);
    forall b | Live(s'.gens, b)
      ensures Headed(s'.gens, s'.manifests, s'.normalized, s'.revisions, s'.heads, b)
    {
      assert Headed(s.gens, s.manifests, s.normalized, s.revisions, s.heads, b);
      if b == a {
        AppendingHeads(s, a, g, inputs);
      } else {
        AppendingElsewhere(s, a, g, inputs, b);
      }
    }
  }

  lemma AppendingKeepsRest(s: State, a: Attempt, g: nat, inputs: set<nat>)
    requires Appendable(s, a, g, inputs)
    requires ArtifactsStored(s.gens, s.revisions, s.store)
    requires Covered(s.gens, s.manifests, s.normalized, s.heads, s.outbox)
    ensures var s' := Appending(s, a, g, inputs);
            && ArtifactsStored(s'.gens, s'.revisions, s'.store)
            && Covered(s'.gens, s'.manifests, s'.normalized, s'.heads, s'.outbox)
  {
  }

  lemma AppendingPurged(s: State, a: Attempt, g: nat, inputs: set<nat>)
    requires Live(s.gens, a) && Purged(s)
    ensures var s' := Appending(s, a, g, inputs); Purged(s') && forall b :: Gone(s, b) ==> Gone(s', b)
  {
    var s' := Appending(s, a, g, inputs);
    forall b | b in s'.deletions && s'.deletions[b].work.state == Completed
      ensures Gone(s', b)
    {
      assert Gone(s, b);
    }
  }

  lemma AppendingKeeps(s: State, a: Attempt, g: nat, inputs: set<nat>)
    requires Inv(s) && Appendable(s, a, g, inputs)
    ensures Inv(Appending(s, a, g, inputs))
  {
    MoreIds(s, s.nextId + 1);
    AppendingKeepsReports(s, a, g, inputs);
    AppendingKeepsRest(s, a, g, inputs);
    AppendingPurged(s, a, g, inputs);
  }

  ghost function Publishing(s: State, id: nat, w: Work, a: Attempt, g: nat, inputs: set<nat>): State {
    WithWork(if a in s.heads && s.heads[a].inputs == inputs then s else Appending(s, a, g, inputs), id, w)
  }

  lemma AppendedServes(s: State, id: nat, w: Work, a: Attempt, g: nat, inputs: set<nat>)
    requires Inv(s) && id in s.outbox && s.outbox[id].event == ReportRequested(a, g)
    requires Appendable(s, a, g, inputs) && w.state == Completed && Sound(w)
    ensures Kept(s, WithWork(Appending(s, a, g, inputs), id, w))
  {
    var s' := Appending(s, a, g, inputs);
    AppendingKeeps(s, a, g, inputs);
    AppendingPurged(s, a, g, inputs);
    WorkKeeps(s', id, w);
    WorkPurged(s', id, w);
  }

  /** Publishing writes a new last revision or finds the head already there, then completes. */
  lemma PublishingKeeps(s: State, id: nat, w: Work, a: Attempt, g: nat, inputs: set<nat>)
    requires Inv(s) && id in s.outbox && s.outbox[id].event == ReportRequested(a, g)
    requires Live(s.gens, a) && g == s.gens[a].number && inputs == InputsOf(s.manifests, s.normalized, a, g)
    requires ReportKeyOf(a, g, inputs) in s.store && ProjectionKeyOf(a, inputs) in s.store
    requires w.state == Completed && Sound(w)
    ensures Kept(s, Publishing(s, id, w, a, g, inputs))
  {
    if a in s.heads && s.heads[a].inputs == inputs {
      WorkKeeps(s, id, w);
      WorkPurged(s, id, w);
    } else {
      AppendedServes(s, id, w, a, g, inputs);
    }
  }

  /** The branches of the publishing transaction that a current request in a good state takes. */
  lemma PublishWrites(s: State, id: nat, t: Ticket, inputs: set<nat>, grace: nat, a: Attempt, g: nat)
    requires OwnsOutbox(s, id, t) && s.outbox[id].event == ReportRequested(a, g) && inputs != {}
    requires Verified(s.store, s.candidates)
    requires Live(s.gens, a) && s.gens[a].number == g && InputsOf(s.manifests, s.normalized, a, g) == inputs
    requires a in s.heads ==> s.heads[a].generation == g
    ensures var s1 := WithArtifacts(s, ProjectionKeyOf(a, inputs), ReportKeyOf(a, g, inputs), grace);
            var written := WithWork(s1, id, Settled(s.outbox[id].work, Completed));
            Publish(s, id, t, inputs, grace) ==
              if a in s.heads && s.heads[a].inputs == inputs then written else Advanced(written, a, g, inputs)
  {
  }

  /** Where no revision has the inputs yet, the head advances to a new one. */
  lemma AdvancedAppends(s: State, id: nat, w: Work, a: Attempt, g: nat, inputs: set<nat>)
    requires forall v :: !SameInputs(s, v, a, g, inputs)
    ensures Advanced(WithWork(s, id, w), a, g, inputs) == WithWork(Appending(s, a, g, inputs), id, w)
  {
    forall v
      ensures !SameInputs(WithWork(s, id, w), v, a, g, inputs)
    {
      assert !SameInputs(s, v, a, g, inputs);
    }
  }

  lemma PublishShape(s: State, id: nat, t: Ticket, inputs: set<nat>, grace: nat, a: Attempt, g: nat)
    requires OwnsOutbox(s, id, t) && s.outbox[id].event == ReportRequested(a, g) && inputs != {}
    requires Verified(s.store, s.candidates)
    requires Live(s.gens, a) && s.gens[a].number == g && InputsOf(s.manifests, s.normalized, a, g) == inputs
    requires a in s.heads ==> s.heads[a].generation == g
    requires forall v :: SameInputs(s, v, a, g, inputs) ==> a in s.heads && s.heads[a].inputs == inputs
    ensures var s1 := WithArtifacts(s, ProjectionKeyOf(a, inputs), ReportKeyOf(a, g, inputs), grace);
            Publish(s, id, t, inputs, grace) == Publishing(s1, id, Settled(s.outbox[id].work, Completed), a, g, inputs)
  {
    PublishWrites(s, id, t, inputs, grace, a, g);
    var s1 := WithArtifacts(s, ProjectionKeyOf(a, inputs), ReportKeyOf(a, g, inputs), grace);
    if !(a in s.heads && s.heads[a].inputs == inputs) {
      forall v
        ensures !SameInputs(s1, v, a, g, inputs)
      {
        assert !SameInputs(s, v, a, g, inputs);
      }
      AdvancedAppends(s1, id, Settled(s.outbox[id].work, Completed), a, g, inputs);
    }
  }

  lemma ArtifactsKept(s: State, p: Key, q: Key, grace: nat)
    requires Inv(s)
    ensures Kept(s, WithArtifacts(s, p, q, grace))
    ensures p in WithArtifacts(s, p, q, grace).store && q in WithArtifacts(s, p, q, grace).store
  {
    ArtifactsWritten(s, p, q, grace);
    WithArtifactsStep(s, p, q, grace);
    StoreStepKeeps(s, WithArtifacts(s, p, q, grace));
  }

  lemma PublishCurrentKeeps(s: State, id: nat, t: Ticket, inputs: set<nat>, grace: nat)
    requires Inv(s)
    requires OwnsOutbox(s, id, t) && s.outbox[id].event.ReportRequested? && inputs != {}
    requires var a, g := s.outbox[id].event.attempt, s.outbox[id].event.generation;
             Live(s.gens, a) && s.gens[a].number == g && InputsOf(s.manifests, s.normalized, a, g) == inputs
    ensures Kept(s, Publish(s, id, t, inputs, grace))
  {
    var a, g, w := s.outbox[id].event.attempt, s.outbox[id].event.generation, s.outbox[id].work;
    NoOlderRevision(s, a, g, inputs);
    PublishShape(s, id, t, inputs, grace, a, g);
    WrittenKeeps(s, id, Settled(w, Completed), a, g, inputs, grace);
  }

  lemma WrittenKeeps(s: State, id: nat, w: Work, a: Attempt, g: nat, inputs: set<nat>, grace: nat)
    requires Inv(s) && id in s.outbox && s.outbox[id].event == ReportRequested(a, g)
    requires Live(s.gens, a) && g == s.gens[a].number && inputs == InputsOf(s.manifests, s.normalized, a, g)
    requires w.state == Completed && Sound(w)
    ensures Kept(s, Publishing(WithArtifacts(s, ProjectionKeyOf(a, inputs), ReportKeyOf(a, g, inputs), grace), id, w, a, g, inputs))
  {
    var p, q := ProjectionKeyOf(a, inputs), ReportKeyOf(a, g, inputs);
    ArtifactsKept(s, p, q, grace);
    var s1 := WithArtifacts(s, p, q, grace);
    assert s1 == s.(store := s1.store, candidates := s1.candidates);
    PublishingKeeps(s1, id, w, a, g, inputs);
  }

  lemma PublishKeeps(s: State, id: nat, t: Ticket, inputs: set<nat>, grace: nat)
    requires Inv(s)
    ensures Kept(s, Publish(s, id, t, inputs, grace))
  {
    if OwnsOutbox(s, id, t) && s.outbox[id].event.ReportRequested? && inputs != {} {
      var a, g, w := s.outbox[id].event.attempt, s.outbox[id].event.generation, s.outbox[id].work;
      if !Live(s.gens, a) || s.gens[a].number != g {
        WorkKeeps(s, id, Settled(w, Suppressed));
        WorkPurged(s, id, Settled(w, Suppressed));
      } else if InputsOf(s.manifests, s.normalized, a, g) != inputs {
        WorkKeeps(s, id, Settled(w, Pending));
        WorkPurged(s, id, Settled(w, Pending));
      } else {
        PublishCurrentKeeps(s, id, t, inputs, grace);
      }
    }
  }
}
