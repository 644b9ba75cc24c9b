/** Normalization of admitted segments and publication of report revisions. */
module Reporting {
  import opened Prelude
  import opened Leases
  import opened Catalog

  const RetryCap := 5

  function Reworked(outbox: map<nat, Outbox>, id: nat, w: Work): map<nat, Outbox> {
    if id in outbox then outbox[id := outbox[id].(work := w)] else outbox
  }

  function WithWork(s: State, id: nat, w: Work): State {
    s.(outbox := Reworked(s.outbox, id, w))
  }

  function ClaimOutbox(s: State, id: nat, owner: string, seconds: nat): State {
    s.(outbox :=
      if id in s.outbox && Claimable(s.outbox[id].work, s.clock)
      then Reworked(s.outbox, id, Claimed(s.outbox[id].work, owner, s.clock, seconds))
      else s.outbox)
  }

  predicate OwnsOutbox(s: State, id: nat, t: Ticket) {
    id in s.outbox && Owns(s.outbox[id].work, t)
  }

  function FailOutbox(s: State, id: nat, t: Ticket): State {
    s.(outbox :=
      if id in s.outbox && HoldsLease(s.outbox[id].work, t)
      then Reworked(s.outbox, id, Retried(s.outbox[id].work, RetryCap))
      else s.outbox)
  }

  function WithReportRequest(s: State, a: Attempt, g: nat): map<nat, Outbox> {
    s.outbox[s.nextId := Outbox(ReportRequested(a, g), Queued())]
  }

  /** One more normalized segment together with the report request it causes. */
  function Normalizing(s: State, receipt: nat, m: Manifest): State {
    s.(
      normalized := s.normalized[receipt := Normalized(m.records, m.content)],
      outbox := WithReportRequest(s, m.attempt, m.generation),
      nextId := s.nextId + 1)
  }

  /** The receipt was normalized from other content, which aborts the transaction. */
  predicate Clashes(normalized: map<nat, Normalized>, receipt: nat, m: Manifest) {
    receipt in normalized && normalized[receipt].content != m.content
  }

  /** Completes the record; a segment that was normalized before is not normalized again. */
  function NormalizedOnce(s: State, id: nat, receipt: nat, m: Manifest): State
    requires id in s.outbox
  {
    var done := WithWork(s, id, Settled(s.outbox[id].work, Completed));
    if receipt in s.normalized then done else Normalizing(done, receipt, m)
  }

  /**
   Publishes one normalized segment. `read` is the manifest the worker loaded in its earlier
   session, so the row may have been erased since.
   */
  function Normalize(s: State, id: nat, t: Ticket, read: Manifest): State {
    if !OwnsOutbox(s, id, t) || !s.outbox[id].event.SegmentAdmitted? then s
    else
      var receipt := s.outbox[id].event.receipt;
      var a := read.attempt;
      if !Live(s.gens, a) || s.gens[a].number != read.generation then
        WithWork(s, id, Settled(s.outbox[id].work, Suppressed))
      else if Clashes(s.normalized, receipt, read) then s
      else NormalizedOnce(s, id, receipt, read)
  }

  /** Makes sure the collector knows an artifact before it is written. */
  function WithCandidate(candidates: map<Key, Candidate>, key: Key, notBefore: nat): map<Key, Candidate> {
    if key !in candidates then candidates[key := Candidate(key.content, Waiting, notBefore, 0, None)]
    else if candidates[key].state in {Deleted, Missing, Quarantined} then
      candidates[key := Candidate(candidates[key].content, Waiting, notBefore, 0, None)]
    else candidates
  }

  function WithCandidates(candidates: map<Key, Candidate>, p: Key, q: Key, notBefore: nat): map<Key, Candidate> {
    WithCandidate(WithCandidate(candidates, p, notBefore), q, notBefore)
  }

  /** A candidate row that names other content for the key aborts the transaction. */
  predicate Agreed(s: State, key: Key) {
    key in s.candidates ==> s.candidates[key].content == key.content
  }

  function ReserveArtifacts(s: State, p: Key, q: Key, grace: nat): State {
    s.(candidates :=
      if Agreed(s, p) && Agreed(s, q) then WithCandidates(s.candidates, p, q, s.clock + grace) else s.candidates)
  }

  function Filed(store: map<Key, Content>, p: Key, q: Key): map<Key, Content> {
    store[p := p.content][q := q.content]
  }

  /** A usable row for the artifact, taken out of the collector's queue. */
  function Shield(candidates: map<Key, Candidate>, key: Key, notBefore: nat, now: nat): Candidate {
    WithCandidate(candidates, key, notBefore)[key].(state := Protected, completedAt := Some(now))
  }

  function Shielded(candidates: map<Key, Candidate>, p: Key, q: Key, notBefore: nat, now: nat): map<Key, Candidate> {
    candidates[p := Shield(candidates, p, notBefore, now)][q := Shield(candidates, q, notBefore, now)]
  }

  /** Both artifacts in the store and out of the collector's reach. */
  function WithArtifacts(s: State, p: Key, q: Key, grace: nat): State {
    s.(store := Filed(s.store, p, q), candidates := Shielded(s.candidates, p, q, s.clock + grace, s.clock))
  }

  predicate SameInputs(s: State, v: nat, a: Attempt, g: nat, inputs: set<nat>) {
    && v in s.revisions && s.revisions[v].attempt == a && s.revisions[v].generation == g
    && s.revisions[v].inputs == inputs
  }

  function NextNumber(s: State, a: Attempt, g: nat): nat {
    if a in s.heads && s.heads[a].generation == g then s.heads[a].number + 1 else 1
  }

  function Appending(s: State, a: Attempt, g: nat, inputs: set<nat>): State {
    var number := NextNumber(s, a, g);
    s.(
      revisions := s.revisions[s.nextId :=
        Revision(a, g, number, inputs, ReportKeyOf(a, g, inputs), ProjectionKeyOf(a, inputs))],
      heads := s.heads[a := Head(g, number, s.nextId, inputs)],
      nextId := s.nextId + 1)
  }

  /** Advances the attempt's head to a revision over `inputs`, writing the revision if it is new. */
  ghost function Advanced(s: State, a: Attempt, g: nat, inputs: set<nat>): State {
    if exists v :: SameInputs(s, v, a, g, inputs) then
      var v :| SameInputs(s, v, a, g, inputs);
      s.(heads := s.heads[a := Head(g, s.revisions[v].number, v, inputs)])
    else Appending(s, a, g, inputs)
  }

  /** The artifacts are written and the request is completed; a head over the inputs stays. */
  ghost function Published(s: State, id: nat, a: Attempt, g: nat, inputs: set<nat>, grace: nat): State
    requires id in s.outbox
  {
    var p, q := ProjectionKeyOf(a, inputs), ReportKeyOf(a, g, inputs);
    var written := WithWork(WithArtifacts(s, p, q, grace), id, Settled(s.outbox[id].work, Completed));
    if a in s.heads && s.heads[a].generation == g && s.heads[a].inputs == inputs then written
    else Advanced(written, a, g, inputs)
  }

  /** The publishing transaction. `inputs` is what the worker read before it built the artifacts. */
  ghost function Publish(s: State, id: nat, t: Ticket, inputs: set<nat>, grace: nat): State {
    if !OwnsOutbox(s, id, t) || !s.outbox[id].event.ReportRequested? || inputs == {} then s
    else
      var a, g := s.outbox[id].event.attempt, s.outbox[id].event.generation;
      var w := s.outbox[id].work;
      var p, q := ProjectionKeyOf(a, inputs), ReportKeyOf(a, g, inputs);
      if !Live(s.gens, a) || s.gens[a].number != g then WithWork(s, id, Settled(w, Suppressed))
      else if InputsOf(s.manifests, s.normalized, a, g) != inputs then WithWork(s, id, Settled(w, Pending))
      else if !Agreed(s, p) || !Agreed(s, q) then s
      else if !CanPut(s.store, p, p.content) || !CanPut(s.store, q, q.content) then s
      else Published(s, id, a, g, inputs, grace)
  }
}
