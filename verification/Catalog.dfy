/**
 The evidence catalog: every table the lifecycle touches, plus the object store beside it.
 Digests are injective, so an object's digest is modelled by its content; UUIDs are modelled by
 numbers drawn from a counter, so that no identifier is ever issued twice.
 */
module Catalog {
  import opened Prelude
  import opened Leases

  datatype Attempt = Attempt(tenant: string, cluster: string, name: string)

  datatype Stream = Stream(tenant: string, cluster: string, producer: string, epoch: string, name: string)

  datatype Range = Range(stream: Stream, first: nat, last: nat)

  /** What an object holds: an uploaded payload, or an artifact that is a function of its inputs. */
  datatype Content =
    | Telemetry(payload: string)
    | Projection(attempt: Attempt, inputs: set<nat>)
    | Report(attempt: Attempt, generation: nat, inputs: set<nat>)

  /** `v2/` keys are shared by a tenant's cluster; `reports/v1/` keys belong to one attempt. */
  datatype Key =
    | SegmentKey(tenant: string, cluster: string, content: Content)
    | ArtifactKey(attempt: Attempt, content: Content)

  datatype Bindings = Bindings(workflow: Option<string>, logicalCase: Option<string>, scheduler: Option<string>)

  datatype Upload = Upload(
    attempt: Attempt, producer: string, epoch: string, stream: string,
    first: nat, last: nat, records: nat, content: Content, generation: nat, bindings: Bindings)

  /** An upload that passed the request contract's own checks. */
  type Segment = u: Upload | u.first <= u.last && 1 <= u.records <= u.last - u.first + 1
    witness Upload(Attempt("", "", ""), "", "", "", 0, 0, 1, Telemetry(""), 0, Bindings(None, None, None))

  function StreamOf(u: Upload): Stream {
    Stream(u.attempt.tenant, u.attempt.cluster, u.producer, u.epoch, u.stream)
  }

  function RangeOf(u: Upload): Range {
    Range(StreamOf(u), u.first, u.last)
  }

  function KeyOf(u: Upload): Key {
    SegmentKey(u.attempt.tenant, u.attempt.cluster, u.content)
  }

  datatype Generation = Generation(number: nat, deletedAt: Option<nat>)

  datatype Hold = Hold(attempt: Attempt, reason: string, active: bool)

  datatype Deletion = Deletion(generation: nat, work: Work, requestedAt: nat, completedAt: Option<nat>)

  datatype ReservationState = Reserved | Committed | Expired

  datatype Reservation = Reservation(
    id: nat, attempt: Attempt, content: Content, key: Key, generation: nat, state: ReservationState, createdAt: nat)

  datatype Manifest = Manifest(
    attempt: Attempt, range: Range, records: nat, content: Content, key: Key, generation: nat, committedAt: nat)

  datatype Normalized = Normalized(records: nat, content: Content)

  datatype Event =
    | SegmentAdmitted(receipt: nat)
    | ReportRequested(attempt: Attempt, generation: nat)

  datatype Outbox = Outbox(event: Event, work: Work)

  datatype Revision = Revision(
    attempt: Attempt, generation: nat, number: nat, inputs: set<nat>, reportKey: Key, projectionKey: Key)

  datatype Head = Head(generation: nat, number: nat, revision: nat, inputs: set<nat>)

  datatype Record = Record(bindings: Bindings, first: nat, last: nat, segments: nat, records: nat)

  datatype CandidateState = Waiting | Protected | Deleted | Missing | Quarantined

  datatype Candidate = Candidate(
    content: Content, state: CandidateState, notBefore: nat, attempts: nat, completedAt: Option<nat>)

  datatype Tombstone = Tombstone(attempt: Attempt, generation: nat, requestedAt: nat, completedAt: nat)

  datatype Bundle = Bundle(createdAt: nat, entries: seq<Tombstone>)

  /**
   One state of the service. Reservations are keyed by stream range, which the catalog's unique
   constraint allows. `admitted` is not a table: it remembers every manifest ever committed and
   stands for what a worker may have read before the row was erased.
   */
  datatype State = State(
    gens: map<Attempt, Generation>,
    holds: map<nat, Hold>,
    deletions: map<Attempt, Deletion>,
    reservations: map<Range, Reservation>,
    manifests: map<nat, Manifest>,
    outbox: map<nat, Outbox>,
    normalized: map<nat, Normalized>,
    revisions: map<nat, Revision>,
    heads: map<Attempt, Head>,
    records: map<Attempt, Record>,
    candidates: map<Key, Candidate>,
    imports: set<Bundle>,
    store: map<Key, Content>,
    admitted: map<nat, Manifest>,
    nextId: nat,
    clock: nat)

  const Empty := State(map[], map[], map[], map[], map[], map[], map[], map[], map[], map[], map[], {}, map[], map[], 0, 0)

  /** An attempt that is known and has not been fenced by a deletion. */
  predicate Live(gens: map<Attempt, Generation>, a: Attempt) {
    a in gens && gens[a].deletedAt.None?
  }

  predicate Fenced(gens: map<Attempt, Generation>, a: Attempt) {
    a in gens && gens[a].deletedAt.Some?
  }

  predicate HasActiveHold(holds: map<nat, Hold>, a: Attempt) {
    exists h :: h in holds && holds[h].attempt == a && holds[h].active
  }

  predicate Overlap(x: Range, y: Range) {
    x.stream == y.stream && x.first <= y.last && x.last >= y.first
  }

  function ReceiptsOf(manifests: map<nat, Manifest>, a: Attempt): set<nat> {
    set r | r in manifests && manifests[r].attempt == a
  }

  /** The normalized segments a report of one attempt generation is built from. */
  function InputsOf(manifests: map<nat, Manifest>, normalized: map<nat, Normalized>, a: Attempt, g: nat): set<nat> {
    set r | r in normalized && r in manifests && manifests[r].attempt == a && manifests[r].generation == g
  }

  function ProjectionKeyOf(a: Attempt, inputs: set<nat>): Key {
    ArtifactKey(a, Projection(a, inputs))
  }

  function ReportKeyOf(a: Attempt, g: nat, inputs: set<nat>): Key {
    ArtifactKey(a, Report(a, g, inputs))
  }

  /** Whether any catalog row keeps an object alive for the collector. */
  predicate Referenced(s: State, key: Key) {
    || (exists r :: r in s.manifests && s.manifests[r].key == key)
    || (exists x :: x in s.reservations && s.reservations[x].key == key && s.reservations[x].state != Expired)
    || (exists v :: v in s.revisions && (s.revisions[v].reportKey == key || s.revisions[v].projectionKey == key))
  }

  // The immutable object store: writes and deletes check the content they meet.

  predicate CanPut(store: map<Key, Content>, key: Key, content: Content) {
    key in store ==> store[key] == content
  }

  function PutVerified(store: map<Key, Content>, key: Key, content: Content): map<Key, Content> {
    if CanPut(store, key, content) then store[key := content] else store
  }

  predicate ExistsVerified(store: map<Key, Content>, key: Key, content: Content) {
    key in store && store[key] == content
  }

  function DeleteVerified(store: map<Key, Content>, key: Key, content: Content): map<Key, Content> {
    if ExistsVerified(store, key, content) then store - {key} else store
  }
}
