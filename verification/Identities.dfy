/**
 What an upload may rely on, in any state that a run can reach: when its two transactions accept it, what
 they leave behind, and that the identities an attempt is bound to are its own and never change.
 */
module Identities {
  import opened Prelude
  import opened Leases
  import opened Catalog
  import opened Admission
  import opened Erasure
  import opened Collection
  import opened Reporting
  import opened Invariants
  import opened AdmissionProofs
  import opened Lifecycle
  import opened Progress
  import opened Reservations

  lemma AdmissionFacts(run: seq<Action>)
    ensures var s := Exec(Empty, run);
            && Numbered(s.gens) && Ranged(s.manifests) && Identified(s.records)
            && Remembered(s.gens, s.manifests, s.admitted, s.nextId)
            && (forall i :: i in s.outbox ==> i < s.nextId)
  {
    EmptyIsGood();
    RunKept(Empty, run);
  }

  // Identities of attempts.

  /** Over every run: no scheduler job belongs to two attempts of one cluster. */
  lemma JobsAreNotShared(run: seq<Action>, a: Attempt, b: Attempt)
    requires var s := Exec(Empty, run);
             && a in s.records && b in s.records && a.tenant == b.tenant && a.cluster == b.cluster
             && s.records[a].bindings.scheduler.Some?
             && s.records[a].bindings.scheduler == s.records[b].bindings.scheduler
    ensures a == b
  {
    AdmissionFacts(run);
    var s := Exec(Empty, run);
    assert SameJob(a, s.records[a], b, s.records[b]);
  }

  /** What is known about an attempt stays as it is. */
  ghost predicate Settles(known: Bindings, later: Bindings) {
    && (known.workflow.Some? ==> later.workflow == known.workflow)
    && (known.logicalCase.Some? ==> later.logicalCase == known.logicalCase)
    && (known.scheduler.Some? ==> later.scheduler == known.scheduler)
  }

  ghost predicate SettlesAt(s: State, s': State, a: Attempt) {
    a in s.records && a in s'.records ==> Settles(s.records[a].bindings, s'.records[a].bindings)
  }

  lemma CommitSettles(s: State, u: Segment, d: Decision, a: Attempt)
    ensures SettlesAt(s, Committing(s, u, d), a) && (a in s.records ==> a in Committing(s, u, d).records)
  {
  }

  lemma EraseSettles(s: State, b: Attempt, t: Ticket, g: nat, a: Attempt)
    requires a in s.records
    ensures var s' := Erase(s, b, t, g);
            SettlesAt(s, s', a) && (a !in s'.records ==> a == b && Matches(FencesOf(s), b, t, g) && Current(s.gens, b, g))
  {
  }

  /** A record only goes with its attempt, and keeps what it knows until then. */
  lemma StepSettles(s: State, act: Action, a: Attempt)
    requires Inv(s) && a in s.records
    ensures SettlesAt(s, Apply(s, act), a)
    ensures a !in Apply(s, act).records ==> Gone(Apply(s, act), a)
  {
    if act.CommitSegment? {
      CommitSettles(s, act.segment, DecideCommit(s, act.segment, act.reservation), a);
    } else if act.EraseAttempt? {
      EraseSettles(s, act.attempt, act.ticket, act.generation, a);
      if a !in Apply(s, act).records {
        LeaseIsCurrent(FencesOf(s), act.attempt, act.ticket, act.generation);
        ErasureProofs.ErasedPurges(s, a, Deletable(s, a));
      }
    } else if act.SweepReservations? {
      SweepQuiet(s, act.batch, act.ttl, act.grace);
    } else if !act.ReserveRange? {
      AsideStep(s, act);
    }
  }

  lemma {:induction false} RunSettles(s: State, later: seq<Action>, a: Attempt)
    requires Inv(s) && a in s.records
    ensures SettlesAt(s, Exec(s, later), a)
    decreases |later|
  {
    if later != [] {
      var s' := Apply(s, later[0]);
      StepKept(s, later[0]);
      StepSettles(s, later[0], a);
      if a in s'.records {
        RunSettles(s', later[1..], a);
      } else {
        RunKept(s', later[1..]);
      }
    }
  }

  /** Over every run: a binding that is known never changes while the record exists. */
  lemma BindingsNeverChange(run: seq<Action>, later: seq<Action>, a: Attempt)
    requires a in Exec(Empty, run).records && a in Exec(Exec(Empty, run), later).records
    ensures Settles(Exec(Empty, run).records[a].bindings, Exec(Exec(Empty, run), later).records[a].bindings)
  {
    EmptyIsGood();
    RunKept(Empty, run);
    RunSettles(Exec(Empty, run), later, a);
  }

  // The second transaction.

  /** The upload is for a live attempt, or for one that is seen for the first time. */
  ghost predicate Welcome(s: State, u: Segment) {
    !Fenced(s.gens, u.attempt) && u.generation == 0
  }

  /** The reservation still is the upload's, and its payload is in the store. */
  ghost predicate Prepared(s: State, u: Segment, id: nat) {
    && RangeOf(u) in s.reservations
    && s.reservations[RangeOf(u)].id == id && s.reservations[RangeOf(u)].state == Reserved
    && s.reservations[RangeOf(u)].generation == u.generation
    && ExistsVerified(s.store, KeyOf(u), u.content)
  }

  /** No admitted segment of the stream shares a sequence number with the upload. */
  ghost predicate Unclaimed(s: State, u: Segment) {
    forall r :: r in s.manifests && s.manifests[r].range.stream == StreamOf(u) ==>
      s.manifests[r].range.last < u.first || u.last < s.manifests[r].range.first
  }

  predicate Differ(known: Option<string>, supplied: Option<string>) {
    known.Some? && supplied.Some? && known.value != supplied.value
  }

  /** The upload names an identity other than the one its attempt is known to have. */
  ghost predicate Contradicts(s: State, u: Segment) {
    && u.attempt in s.records
    && var known := s.records[u.attempt].bindings;
       || Differ(known.workflow, u.bindings.workflow)
       || Differ(known.logicalCase, u.bindings.logicalCase)
       || Differ(known.scheduler, u.bindings.scheduler)
  }

  /** The upload names a scheduler job that another attempt of its cluster has. */
  ghost predicate Trespasses(s: State, u: Segment) {
    u.bindings.scheduler.Some? && exists b ::
      && b in s.records && b != u.attempt && b.tenant == u.attempt.tenant && b.cluster == u.attempt.cluster
      && s.records[b].bindings.scheduler == u.bindings.scheduler
  }

  lemma IdentityRefused(s: State, u: Segment)
    requires Identified(s.records)
    ensures CanRecord(s.records, u) <==> !Contradicts(s, u) && !Trespasses(s, u)
  {
    if u.attempt in s.records {
      forall b | b in s.records && b != u.attempt
        ensures !SameJob(u.attempt, s.records[u.attempt], b, s.records[b])
      {
      }
    }
  }

  lemma UnclaimedExactly(s: State, u: Segment)
    ensures Overlapped(s.manifests, u) <==> !Unclaimed(s, u)
    ensures Unclaimed(s, u) ==> forall r :: !SameRange(s.manifests, r, u)
  {
    if !Unclaimed(s, u) {
      var r :| r in s.manifests && s.manifests[r].range.stream == StreamOf(u)
               && !(s.manifests[r].range.last < u.first || u.last < s.manifests[r].range.first);
      assert Overlap(s.manifests[r].range, RangeOf(u));
    }
    if r :| r in s.manifests && Overlap(s.manifests[r].range, RangeOf(u)) {
      assert s.manifests[r].range.stream == StreamOf(u);
    }
    if r :| SameRange(s.manifests, r, u) {
      assert s.manifests[r].range.stream == StreamOf(u);
    }
  }

  /** The generation an upload is compared with is 0 exactly if its attempt is not fenced. */
  lemma WelcomeExactly(s: State, u: Segment)
    requires Numbered(s.gens)
    ensures var g := WithGeneration(s.gens, u.attempt)[u.attempt];
            Welcome(s, u) <==> g.deletedAt.None? && g.number == u.generation
  {
  }

  lemma DecidesCommit(s: State, u: Segment, id: nat)
    requires Numbered(s.gens) && Identified(s.records)
    ensures var d := DecideCommit(s, u, id);
            && (d == Accept <==>
                  Welcome(s, u) && Prepared(s, u, id) && Unclaimed(s, u) && !Contradicts(s, u) && !Trespasses(s, u))
            && (d == Reject("attempt_identity_conflict") <==>
                  Welcome(s, u) && Prepared(s, u, id) && Unclaimed(s, u) && (Contradicts(s, u) || Trespasses(s, u)))
  {
    WelcomeExactly(s, u);
    UnclaimedExactly(s, u);
    IdentityRefused(s, u);
  }

  /**
   A commit is accepted exactly if the attempt is not deleted, the reservation and the payload are there,
   nothing admitted overlaps, and the identities supplied neither contradict what is known of the attempt
   nor belong to another. For the identities alone it is refused exactly if only they are wrong.
   */
  lemma CommitsAreAcceptedExactly(run: seq<Action>, u: Segment, id: nat)
    ensures var s := Exec(Empty, run);
            var d := DecideCommit(s, u, id);
            && (d == Accept <==>
                  Welcome(s, u) && Prepared(s, u, id) && Unclaimed(s, u) && !Contradicts(s, u) && !Trespasses(s, u))
            && (d == Reject("attempt_identity_conflict") <==>
                  Welcome(s, u) && Prepared(s, u, id) && Unclaimed(s, u) && (Contradicts(s, u) || Trespasses(s, u)))
  {
    AdmissionFacts(run);
    DecidesCommit(Exec(Empty, run), u, id);
  }

  /** The segment under its new receipt, one record for the normalizer, and the range closed. */
  ghost predicate Admits(s: State, s': State, u: Segment, receipt: nat, record: nat) {
    && receipt !in s.admitted && record !in s.outbox
    && s'.manifests == s.manifests[receipt :=
         Manifest(u.attempt, RangeOf(u), u.records, u.content, KeyOf(u), u.generation, s.clock)]
    && s'.admitted == s.admitted[receipt := s'.manifests[receipt]]
    && s'.outbox == s.outbox[record := Outbox(SegmentAdmitted(receipt), Queued())]
    && RangeOf(u) in s.reservations
    && s'.reservations == s.reservations[RangeOf(u) := s.reservations[RangeOf(u)].(state := Committed)]
  }

  /** Whatever the upload supplied is now what the attempt is bound to, and other attempts keep theirs. */
  ghost predicate Binds(s: State, s': State, u: Segment) {
    && u.attempt in s'.records
    && Settles(u.bindings, s'.records[u.attempt].bindings)
    && (forall b :: b != u.attempt ==> (b in s'.records <==> b in s.records))
    && (forall b :: b != u.attempt && b in s.records ==> s'.records[b] == s.records[b])
  }

  /** An accepted commit admits the segment and binds the attempt; every other table stays. */
  lemma AcceptedCommitsAdmit(run: seq<Action>, u: Segment, id: nat)
    requires DecideCommit(Exec(Empty, run), u, id) == Accept
    ensures var s, s' := Exec(Empty, run), Exec(Empty, run + [CommitSegment(u, id)]);
            && Binds(s, s', u)
            && (exists receipt, record :: Admits(s, s', u, receipt, record))
            && s'.gens == WithGeneration(s.gens, u.attempt)
            && s' == s.(gens := s'.gens, manifests := s'.manifests, admitted := s'.admitted, outbox := s'.outbox,
                        reservations := s'.reservations, records := s'.records, nextId := s'.nextId)
  {
    AdmissionFacts(run);
    ExecAppend(Empty, run, CommitSegment(u, id));
    AcceptedAdmits(Exec(Empty, run), u, id);
  }

  lemma AcceptedAdmits(s: State, u: Segment, id: nat)
    requires DecideCommit(s, u, id) == Accept
    requires Remembered(s.gens, s.manifests, s.admitted, s.nextId) && (forall i :: i in s.outbox ==> i < s.nextId)
    ensures var s' := Commit(s, u, id);
            && Binds(s, s', u)
            && (exists receipt, record :: Admits(s, s', u, receipt, record))
            && s'.gens == WithGeneration(s.gens, u.attempt)
            && s' == s.(gens := s'.gens, manifests := s'.manifests, admitted := s'.admitted, outbox := s'.outbox,
                        reservations := s'.reservations, records := s'.records, nextId := s'.nextId)
  {
    assert Admits(s, Commit(s, u, id), u, s.nextId, s.nextId + 1);
  }

  // The first transaction.

  /** The range is not reserved, or only by a reservation that expired. */
  ghost predicate Vacant(s: State, u: Segment) {
    RangeOf(u) in s.reservations ==> s.reservations[RangeOf(u)].state == Expired
  }

  ghost predicate AdmittedAs(s: State, u: Segment, r: nat) {
    r in s.manifests && s.manifests[r].range == RangeOf(u) && s.manifests[r].content == u.content
  }

  lemma DecidesReserve(s: State, u: Segment)
    requires Numbered(s.gens) && Ranged(s.manifests)
    ensures var d := DecideReserve(s, u);
            && (d == Accept <==> Welcome(s, u) && Unclaimed(s, u) && Vacant(s, u))
            && (d.Reuse? <==> Welcome(s, u) && Unclaimed(s, u) && !Vacant(s, u)
                              && s.reservations[RangeOf(u)].state == Reserved && s.reservations[RangeOf(u)].content == u.content)
            && (d.Reuse? ==> RangeOf(u) in s.reservations && d.reservation == s.reservations[RangeOf(u)].id)
            && (d.Replay? <==> Welcome(s, u) && exists r :: AdmittedAs(s, u, r))
            && (d.Replay? ==> AdmittedAs(s, u, d.receipt))
  {
    var d := DecideReserve(s, u);
    WelcomeExactly(s, u);
    UnclaimedExactly(s, u);
    forall r | AdmittedAs(s, u, r)
      ensures SameRange(s.manifests, r, u)
      ensures forall q :: SameRange(s.manifests, q, u) ==> q == r
    {
      forall q | SameRange(s.manifests, q, u)
        ensures q == r
      {
        assert Overlap(s.manifests[r].range, s.manifests[q].range);
      }
    }
    if d.Replay? {
      assert AdmittedAs(s, u, d.receipt);
    }
  }

  /**
   A range is reserved anew exactly if it is free, an open reservation for the same content is used
   again, and a segment that was admitted is acknowledged with its receipt.
   */
  lemma ReservationsAreMadeExactly(run: seq<Action>, u: Segment)
    ensures var s := Exec(Empty, run);
            var d := DecideReserve(s, u);
            && (d == Accept <==> Welcome(s, u) && Unclaimed(s, u) && Vacant(s, u))
            && (d.Reuse? <==> Welcome(s, u) && Unclaimed(s, u) && !Vacant(s, u)
                              && s.reservations[RangeOf(u)].state == Reserved && s.reservations[RangeOf(u)].content == u.content)
            && (d.Reuse? ==> RangeOf(u) in s.reservations && d.reservation == s.reservations[RangeOf(u)].id)
            && (d.Replay? <==> Welcome(s, u) && exists r :: AdmittedAs(s, u, r))
            && (d.Replay? ==> AdmittedAs(s, u, d.receipt))
  {
    AdmissionFacts(run);
    DecidesReserve(Exec(Empty, run), u);
  }

  /** The range is open for this upload under a number that no reservation had before. */
  ghost predicate Reserves(s: State, s': State, u: Segment, id: nat) {
    && s'.reservations == s.reservations[RangeOf(u) :=
         Reservation(id, u.attempt, u.content, KeyOf(u), u.generation, Reserved, s.clock)]
    && s'.gens == WithGeneration(s.gens, u.attempt)
    && s' == s.(gens := s'.gens, reservations := s'.reservations, nextId := s'.nextId)
    && s.nextId <= id < s'.nextId
  }

  /** Only an accepted reservation writes one; at most the attempt becomes known otherwise. */
  lemma OnlyAcceptedReserve(run: seq<Action>, u: Segment)
    ensures var s, s' := Exec(Empty, run), Exec(Empty, run + [ReserveRange(u)]);
            match DecideReserve(s, u)
            case Accept => exists id :: Reserves(s, s', u, id)
            case Reject(_) => s' == s
            case _ => s' == s.(gens := WithGeneration(s.gens, u.attempt))
  {
    ExecAppend(Empty, run, ReserveRange(u));
    var s := Exec(Empty, run);
    if DecideReserve(s, u) == Accept {
      assert Reserves(s, Reserve(s, u), u, s.nextId);
    }
  }

  /** Reserved, stored and committed without interference, a new segment is admitted. */
  lemma UploadsGoThrough(run: seq<Action>, u: Segment)
    requires var s := Exec(Empty, run);
             && Welcome(s, u) && Unclaimed(s, u) && Vacant(s, u) && !Contradicts(s, u) && !Trespasses(s, u)
    ensures exists id :: var s' := Exec(Empty, run + [ReserveRange(u)] + [PutObject(KeyOf(u))]); DecideCommit(s', u, id) == Accept
  {
    AdmissionFacts(run);
    var before := run + [ReserveRange(u)];
    var s, s1 := Exec(Empty, run), Exec(Empty, before);
    DecidesReserve(s, u);
    OnlyAcceptedReserve(run, u);
    var id :| Reserves(s, s1, u, id);
    ExecAppend(Empty, before, PutObject(KeyOf(u)));
    AdmissionFacts(before);
    UploadIsAccepted(s, s1, u, id, run);
    assert DecideCommit(Exec(Empty, before + [PutObject(KeyOf(u))]), u, id) == Accept;
  }

  lemma PutLands(run: seq<Action>, key: Key)
    ensures var s := Exec(Empty, run); ExistsVerified(Put(s, key).store, key, key.content)
  {
    EmptyIsGood();
    RunKept(Empty, run);
  }

  lemma UploadIsAccepted(s: State, s1: State, u: Segment, id: nat, run: seq<Action>)
    requires s == Exec(Empty, run)
    requires Reserves(s, s1, u, id) && Numbered(s1.gens) && Identified(s1.records)
    requires Welcome(s, u) && Unclaimed(s, u) && !Contradicts(s, u) && !Trespasses(s, u)
    ensures DecideCommit(Put(s1, KeyOf(u)), u, id) == Accept
  {
    PutLands(run, KeyOf(u));
    DecidesCommit(Put(s1, KeyOf(u)), u, id);
  }

  // Reservations that are over.

  /** No open reservation of the range has this number, and none will. */
  ghost predicate Spent(s: State, x: Range, id: nat) {
    && id < s.nextId
    && !(x in s.reservations && s.reservations[x].id == id && s.reservations[x].state == Reserved)
  }

  lemma {:induction false} SweepSpends(s: State, batch: seq<Range>, ttl: nat, grace: nat, x: Range, id: nat)
    requires Spent(s, x, id)
    ensures Spent(Sweep(s, batch, ttl, grace), x, id)
    decreases |batch|
  {
    if batch != [] {
      SweepSpends(ExpireOne(s, batch[0], ttl, grace), batch[1..], ttl, grace, x, id);
    }
  }

  lemma ReserveSpends(s: State, u: Segment, d: Decision, x: Range, id: nat)
    requires Spent(s, x, id)
    ensures Spent(Reserving(s, u, d), x, id)
  {
  }

  lemma SpendingSpends(s: State, u: Segment, x: Range, id: nat)
    requires Spent(s, x, id)
    ensures Spent(Spending(s, u), x, id)
  {
  }

  lemma CommitSpends(s: State, u: Segment, d: Decision, x: Range, id: nat)
    requires Spent(s, x, id)
    ensures Spent(Committing(s, u, d), x, id)
  {
    SpendingSpends(s, u, x, id);
  }

  lemma EraseSpends(s: State, a: Attempt, t: Ticket, g: nat, x: Range, id: nat)
    requires Spent(s, x, id)
    ensures Spent(Erase(s, a, t, g), x, id)
  {
  }

  lemma StepSpends(s: State, act: Action, x: Range, id: nat)
    requires Inv(s) && Spent(s, x, id)
    ensures Spent(Apply(s, act), x, id)
  {
    if act.ReserveRange? {
      ReserveSpends(s, act.segment, DecideReserve(s, act.segment), x, id);
    } else if act.CommitSegment? {
      CommitSpends(s, act.segment, DecideCommit(s, act.segment, act.reservation), x, id);
    } else if act.EraseAttempt? {
      EraseSpends(s, act.attempt, act.ticket, act.generation, x, id);
    } else if act.SweepReservations? {
      SweepSpends(s, act.batch, act.ttl, act.grace, x, id);
    } else {
      AsideStep(s, act);
      StepMoves(s, act);
    }
  }

  lemma {:induction false} RunSpends(s: State, later: seq<Action>, x: Range, id: nat)
    requires Inv(s) && Spent(s, x, id)
    ensures Spent(Exec(s, later), x, id)
    decreases |later|
  {
    if later != [] {
      StepSpends(s, later[0], x, id);
      StepKept(s, later[0]);
      RunSpends(Apply(s, later[0]), later[1..], x, id);
    }
  }

  /** A delayed writer whose reservation expired, was spent or replaced can never commit with it again. */
  lemma SpentReservationsStaySpent(run: seq<Action>, later: seq<Action>, u: Segment, id: nat)
    requires Spent(Exec(Empty, run), RangeOf(u), id)
    ensures DecideCommit(Exec(Exec(Empty, run), later), u, id).Reject?
  {
    EmptyIsGood();
    RunKept(Empty, run);
    RunSpends(Exec(Empty, run), later, RangeOf(u), id);
    SpentIsRejected(Exec(Exec(Empty, run), later), u, id);
  }

  lemma SpentIsRejected(s: State, u: Segment, id: nat)
    requires Spent(s, RangeOf(u), id)
    ensures DecideCommit(s, u, id).Reject?
  {
  }
}
