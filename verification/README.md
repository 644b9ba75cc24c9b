# RankLens: verified model

RankLens collects telemetry of MPI runs and keeps it as evidence. This project models the parts of it
that are protocols rather than plumbing, and proves what they promise over every run.

* **Evidence lifecycle.** Uploads are admitted in two transactions with an object write in between.
  Deletion fences, retention holds, leased erasure, reservation expiry, object collection,
  normalization, report publication and tombstone restore interleave with them. `Catalog` holds the
  tables and the object store, `Admission`, `Erasure`, `Collection` and `Reporting` say what each
  transaction does, `Lifecycle` makes one transition system of them, and `Guarantees` holds the main
  results. What each transaction achieves is said from the outside in `Identities` (admission),
  `Requests` (deletions, holds, imports), `Disposal` (erasure, collection, sweep, audit), `Serving`
  (normalization, publication) and `Takeover` (leases). `Service` is the running service, an object
  whose methods change the tables step by step, and `Runtime` proves that the object goes through the
  states of the transition system. `Reservations` says when a committed reservation can be without a
  manifest.
* **Recovery.** Paged export of completed deletions and their restore (`Recovery`, `Restore`).
* **Retention policies.** Versions, cancellation, assignment and reviewed backfill (`Retention`).
* **Interceptor.** Ownership of process groups in the request tracker (`Ownership`, `Tracker`,
  `TrackerRuns`), what it reports as completed (`Completions`), and the recorder against the analyzer
  (`Telemetry`, `Recorder`, `Analyzer`, `Capture`, `Accounts`, `Readings`). Request semantics follow
  sections 3.7 and 3.9 of MPI 4.0.
* **Leases, incidents, scheduling.** `Leases`, `Notifications`, `Incidents`, `Poller`, `Timeline`, `Contiguity`,
  `Coverage`.

`dafny verify dfyconfig.toml` checks everything.

## How the model relates to the program

* A `sessions.begin()` block is one atomic step. Admission, holds, deletion, erasure, publication of
  reports, collection and restore take advisory locks on the attempt, stream or object they work on,
  which justifies this. For the others it is an assumption. Claims and the sweeper lock the rows they
  pick. The publishing transaction of the normalizer and the reports of failures read a row, check the
  lease and update the row by its key, with no lock in between and no version column; the model takes it
  that no claim comes between that read and that write. A block that raises rolls back,
  so a refused transaction leaves the tables as they were. Object writes and deletes
  take effect at once, so what a rolled-back transaction leaves in the store is an outcome of its own.
* A run is any sequence of steps. It covers every interleaving of workers, crashes and lease expiries,
  since a step may name any lease and a step whose guard fails does nothing.
* Digests, fingerprints and key buckets are injective. The content of an object therefore stands for its
  digest and the set of receipts for the fingerprint of a report's inputs, and a key determines its
  content. Segment keys and report keys are disjoint. UUIDs never repeat.
* Of two attempts with one scheduler identity the database refuses the second by a unique constraint. The
  model refuses the upload with the same reason as one that contradicts its own attempt.
* Time is monotone and is read inside the step that uses it. Objects are lost only where the program
  deletes them.
* `State.admitted` remembers every manifest ever committed. It stands for what a worker may have read in
  an earlier session, before the row was erased.
* Reasons that operators give are taken without the blanks around them.
* What callers and the outside world decide (batches, lease owners, MPI results, jitter, whether a
  delivery succeeds) are parameters.
* The MPI runtime hands out no handle of a persistent request that is still started.
  `TrackerRuns.ReplacingDanglesExactly` shows what this is needed for.

Some things the model brings out: a live attempt is always at generation 0, so the conflict that a
tombstone import checks for cannot occur; the reservation states "fenced" and "conflicted" are never
stored, since the exception that follows rolls them back; the error of erasing an outdated generation is
unreachable; a tombstone that was imported from a clock ahead, and erased before that time came, makes
an exported page be refused elsewhere; an ended job that is polled again gets its interval once more; a
range that one attempt reserved and another committed stays shut after the other is erased.

## Model

| member | source | states |
|---|---|---|
| `Guarantees.LiveEvidenceSurvives` | python/ranklens_enterprise/worker.py:121-346 | over every run of uploads, erasures (also half-done and rolled back), expiry, collection and publication, each manifest and each report revision of an attempt that is not deleted has its object in the store with the recorded content |
| `Guarantees.ReportsFormAChain` | python/ranklens_enterprise/worker.py:1232-1283 | the revisions of a live attempt are numbered 1 to n over strictly growing input sets, and the head is revision n |
| `Guarantees.HeadsNeverGoBack` | python/ranklens_enterprise/worker.py:1215-1283 | no later run lowers the head of an attempt that is still live or takes an input from it; the branch that reuses an older revision never moves it back |
| `Guarantees.HeadLosesNoEvidence` | python/ranklens_enterprise/worker.py:1189-1197 | while none of the report requests of a live attempt is waiting, being served or failed, its head covers every normalized segment |
| `Guarantees.RequestsMatchSegments` | python/ranklens_enterprise/worker.py:771-814 | a live attempt has exactly as many report requests as normalized segments, under crashes, retries and lease takeovers |
| `Guarantees.NormalizationNeverConflicts` | python/ranklens_enterprise/worker.py:808-809 | a segment normalized again has the content it had, so the digest conflict is unreachable |
| `Guarantees.ExistingArtifactsAgree` | python/ranklens_enterprise/worker.py:1259-1265 | a revision over the same inputs has the same artifacts, so the error about different ones is unreachable |
| `Guarantees.HoldsAndFencesStayCoupled` | python/ranklens_enterprise/ingestion.py:1063-1192 | a deletion row is held exactly while a hold is active, and any other row belongs to the current fence of its attempt |
| `Guarantees.ErasureIsNeverStale` | python/ranklens_enterprise/worker.py:151-157 | a worker with a matching lease always finds the attempt fenced at its generation and unheld, so the "no longer current" error is unreachable |
| `Guarantees.FencesArePermanent` | python/ranklens_enterprise/ingestion.py:1143-1154 | in no later state is a fence lifted or a generation lower |
| `Guarantees.ErasureIsPermanent` | python/ranklens_enterprise/worker.py:229-343 | after a completed erasure no later state has a manifest, reservation, normalized segment, outbox row, revision, head or record of the attempt |
| `Guarantees.HoldsProtectEvidence` | python/ranklens_enterprise/ingestion.py:969-1031 | while a hold stays active, the manifests of its attempt and the objects under them stay, whatever other attempts, the eraser or the collector do |
| `Guarantees.AdmittedRangesAreDisjoint` | python/ranklens_enterprise/ingestion.py:868-884 | manifests of one stream never overlap, although overlapping reservations may coexist |
| `Guarantees.OneAdmissionRecordEach` | python/ranklens_enterprise/ingestion.py:909-924 | every manifest has exactly one admission record in the outbox until it is erased |
| `Guarantees.ReplayIsInert` | python/ranklens_enterprise/ingestion.py:774-778 | admitting an admitted segment of a live attempt again returns the same receipt and leaves every table as it is |
| `Reservations.OrphansComeFromDeletedAttempts` | python/ranklens_enterprise/ingestion.py:800-807 | in every reachable state, a committed reservation without a manifest is left of a segment that another attempt admitted and that attempt has been deleted since |
| `Reservations.InconsistencyComesFromDeletion` | python/ranklens_enterprise/ingestion.py:800-807 | so is every upload refused as "catalog_inconsistent" |
| `Reservations.ErasureMakesOrphans` | python/ranklens_enterprise/ingestion.py:790-807 | conversely, erasing an attempt that committed the reservation of another makes every later upload of the range by a live attempt be refused |
| `Reservations.InconsistencyIsReachable` | python/ranklens_enterprise/ingestion.py:790-807 | a run from the empty catalog that ends in this refusal |
| `Guarantees.RecordsIndexManifests` | python/ranklens_enterprise/migrations/versions/0008_attempt_records.py:52-55 | a record exists exactly for attempts with manifests, and its four aggregates are the MIN, MAX, COUNT and SUM over them |
| `Guarantees.StaleTicketsAreInert` | python/ranklens_enterprise/worker.py:743-831 | an outbox lease from before the current lease generation can never again publish, normalize or fail |
| `Guarantees.StaleErasersAreInert` | python/ranklens_enterprise/worker.py:109-141 | a superseded erasure lease touches neither rows nor objects, in any later state |
| `Guarantees.OwnersWhileProcessing` | python/ranklens_enterprise/worker.py:94-97 | outbox and deletion rows have an owner exactly while they are being processed |
| `Takeover.LeasesAreRespected` | python/ranklens_enterprise/worker.py:78-84 | over every run, no step hands a row that is being processed to another lease before the clock has passed the end of its own |
| `Serving.OnlyDeletedAttemptsAreSuppressed` | python/ranklens_enterprise/worker.py:752-769 | over every run, a suppressed record never belongs to a live attempt |
| `Serving.DeletedIsNotPublished` | python/ranklens_enterprise/worker.py:1176-1188 | the request of an attempt deleted meanwhile is suppressed, and nothing else changes |
| `Serving.OutdatedInputsAreRequeued` | python/ranklens_enterprise/worker.py:1189-1197 | a request whose inputs changed while its report was built waits to be served again at once, and nothing else changes |
| `Serving.CurrentInputsArePublished` | python/ranklens_enterprise/worker.py:1199-1289 | a worker whose inputs are still all normalized segments always gets its report out: head over the inputs, artifacts stored and protected, request completed, nothing else changed |
| `Serving.SegmentsAreNormalizedOnce` | python/ranklens_enterprise/worker.py:743-814 | a segment of a live attempt is normalized with the content it was admitted with and announced by one new request, a second time only completed, and for a deleted attempt suppressed |
| `Serving.ClaimsLease` | python/ranklens_enterprise/worker.py:678-705 | a claimable record is leased for exactly the time asked for, and any other claim does nothing |
| `Serving.FailuresAreRetried` | python/ranklens_enterprise/worker.py:819-831 | a record whose holder fails is claimable at once exactly if fewer than five tries were made, else failed |
| `Requests.DeletionsFence` | python/ranklens_enterprise/ingestion.py:1137-1190 | without a hold, a deletion fences the attempt under the next generation and queues its erasure; asked again it changes nothing |
| `Requests.DeletionsWaitForHolds` | python/ranklens_enterprise/ingestion.py:1104-1136 | under a hold, the deletion row is there and parked, and the attempt stays as live as it was |
| `Requests.OutdatedRequestsAreRenewed` | python/ranklens_enterprise/ingestion.py:1180-1188 | a request from before the fence would be renewed for it with its time, though no run meets one |
| `Requests.HeldRequestsArePutOff` | python/ranklens_enterprise/ingestion.py:1137-1142 | under a hold, a completed request stays and any other is parked, whatever the tables hold |
| `Requests.HoldsArePlaced` | python/ranklens_enterprise/ingestion.py:992-1031 | a hold is placed exactly on a known attempt that is not erased, and parks its request with the lease withdrawn |
| `Requests.ReleasesLetDeletionsThrough` | python/ranklens_enterprise/ingestion.py:1045-1089 | the last release fences the attempt of a parked request and queues it for that fence; any other release only ends its hold |
| `Requests.RequestsAreNotForgotten` | python/ranklens_enterprise/ingestion.py:1063-1192 | whatever happens after a deletion was asked for, its row is there: parked under a hold, or for the fence in place |
| `Requests.LastReleaseDeletes` | python/ranklens_enterprise/ingestion.py:1045-1089 | an attempt deleted under a hold is fenced and queued for erasure by the release of its last hold, whatever came between |
| `Requests.ErasuresAreLeased` | python/ranklens_enterprise/worker.py:73-106 | a claimable request is leased for exactly the time asked for, and any other claim does nothing |
| `Requests.ErasuresAreRetried` | python/ranklens_enterprise/worker.py:348-357 | a failed erasure is claimable at once exactly if fewer than five tries were made, else failed |
| `Requests.ImportsQueueErasures` | python/ranklens_enterprise/recovery.py:169-229 | a new valid bundle puts every tombstone that is not behind in force, with its erasure queued under a new lease and no hold left, and touches no other attempt |
| `Disposal.CompletedErasuresDispose` | python/ranklens_enterprise/worker.py:158-343 | over every run, what completes an erasure takes exactly these out of the store: payloads that no other manifest and no unexpired reservation of another attempt names, and both artifacts of each revision; of the rows exactly those of the attempt go |
| `Disposal.ErasuresComplete` | python/ranklens_enterprise/worker.py:121-346 | a worker with a matching lease always completes, unless its transaction rolls back |
| `Disposal.HeldErasuresPark` | python/ranklens_enterprise/worker.py:145-150 | under a hold an erasure deletes nothing and parks the request, though no run gets there |
| `Disposal.RolledBackErasuresKeepRows` | python/ranklens_enterprise/worker.py:217-227 | an erasure that rolls back has deleted those of the same objects it came to, and changes nothing else |
| `Disposal.CollectorDecides` | python/ranklens_enterprise/worker.py:507-547 | the collector reclaims an object exactly if its time has come, nothing names it and it is there; otherwise the object stays and the row says why |
| `Disposal.RolledBackCollections` | python/ranklens_enterprise/worker.py:507-547 | the delete stays in effect when the transaction rolls back, and the row is as it was |
| `Disposal.CorruptObjectsAreKept` | python/ranklens_enterprise/worker.py:532-543 | foreign content is kept, looked at again after 30, 60, 120 and 240 seconds, and then set aside |
| `Disposal.AuditorDecides` | python/ranklens_enterprise/worker.py:578-656 | the verdict follows from two facts, whether a row names the object and whether it is there; a forgotten object goes back to the collector |
| `Disposal.SweepsExpire` | python/ranklens_enterprise/worker.py:390-427 | exactly the abandoned reservations of the batch expire, and the collector has a row for each of their objects after the grace period |
| `Disposal.AbandonedUploadsAreReclaimed` | python/ranklens_enterprise/worker.py:390-427 | sweeping, waiting for the grace period and collecting takes the payload of an abandoned upload out of the store, if nothing else names it |
| `Disposal.ArtifactsAreExpected` | python/ranklens_enterprise/worker.py:1034-1077 | new or spent rows of the artifacts wait for the grace period again, rows in use are left alone |
| `Identities.JobsAreNotShared` | python/ranklens_enterprise/database.py:131-133 | over every run, no scheduler identity belongs to two attempts of one cluster |
| `Identities.BindingsNeverChange` | python/ranklens_enterprise/ingestion.py:303-314 | a binding that is known never changes while the record exists |
| `Identities.CommitsAreAcceptedExactly` | python/ranklens_enterprise/ingestion.py:851-884 | a commit is accepted exactly if the attempt is open, the reservation is the upload's own, the payload is stored, the range is free and the identity neither contradicts the known one nor is another attempt's; refused for identity exactly for the last |
| `Identities.AcceptedCommitsAdmit` | python/ranklens_enterprise/ingestion.py:886-926 | an accepted commit admits the segment under a new receipt with one record, closes the range, and binds the attempt to all the upload supplied |
| `Identities.ReservationsAreMadeExactly` | python/ranklens_enterprise/ingestion.py:763-842 | the condition for an accepted reservation, for a reused one and for a replay, each exactly |
| `Identities.OnlyAcceptedReserve` | python/ranklens_enterprise/ingestion.py:763-842 | an accepted reservation opens the range under a number no reservation had; otherwise at most the attempt becomes known |
| `Identities.UploadsGoThrough` | python/ranklens_enterprise/ingestion.py:756-927 | reserved, stored and committed without interference, a new segment is admitted |
| `Identities.SpentReservationsStaySpent` | python/ranklens_enterprise/ingestion.py:809-815 | a writer whose reservation expired, was spent or replaced can never commit with it again |
| `Lifecycle.StepKept` | python/ranklens_enterprise/worker.py:121-346 | every action of the lifecycle keeps the invariant of all tables and brings no row of an erased attempt back |
| `Lifecycle.RunKept` | python/ranklens_enterprise/worker.py:507-547 | the same for every run |
| `Progress.RunMoves` | python/ranklens_enterprise/worker.py:1254-1283 | over every run fences, released holds, identifiers, lease generations and heads move in one direction only |
| `ReportingProofs.NoOlderRevision` | python/ranklens_enterprise/worker.py:1220-1231 | a live attempt whose head differs from the current inputs has no older revision over them |
| `ErasureProofs.DeletableSpares` | python/ranklens_enterprise/worker.py:178-227 | what erasing an attempt deletes is no object of another attempt's manifests or revisions |
| `CollectionProofs.CollectStep` | python/ranklens_enterprise/worker.py:526-546 | collecting an object removes nothing that a live manifest or revision needs, also when the transaction then rolls back |
| `Leases.Claimed` | python/ranklens_enterprise/worker.py:93-106 | a claim starts a strictly higher lease generation, the ticket handed out owns the row, and nobody can claim it until the lease has run out, while anybody can from then on |
| `Leases.Settled` | python/ranklens_enterprise/worker.py:810-813 | a row that leaves processing has no lease, no ticket owns it any more, and it can be claimed exactly if it is pending |
| `Leases.Retried` | python/ranklens_enterprise/worker.py:819-831 | a failed try gives the lease up and keeps its generation, and the row can be claimed again exactly while fewer tries than the cap were made |
| `Service.EvidenceService.CheckReserve` | python/ranklens_enterprise/ingestion.py:763-815 | the checks of the first transaction give the specified verdict, with the one receipt that can be replayed |
| `Service.EvidenceService.Reserve` | python/ranklens_enterprise/ingestion.py:763-842 | a reservation is made, reused or replayed as specified, and a rejected upload leaves nothing behind |
| `Service.EvidenceService.CheckCommit` | python/ranklens_enterprise/ingestion.py:851-884 | the checks of the second transaction give the specified verdict |
| `Service.EvidenceService.Commit` | python/ranklens_enterprise/ingestion.py:851-927 | manifest, outbox record and index entry appear together or not at all |
| `Service.EvidenceService.RecordAdmission` | python/ranklens_enterprise/ingestion.py:303-318 | the incremental index entry equals the specified one, with bindings filled in and never overwritten |
| `Service.EvidenceService.PlaceHold` | python/ranklens_enterprise/ingestion.py:992-1031 | a new hold parks a pending deletion and withdraws its lease |
| `Service.EvidenceService.ReleaseHold` | python/ranklens_enterprise/ingestion.py:1045-1089 | the last release fences the attempt and queues the parked deletion for the current generation |
| `Service.EvidenceService.DeleteAttempt` | python/ranklens_enterprise/ingestion.py:1100-1192 | a deletion fences and queues, or is parked while a hold is active |
| `Service.EvidenceService.ClaimDeletion` | python/ranklens_enterprise/worker.py:73-106 | a claimed row is leased under a new lease generation that the returned ticket matches |
| `Service.EvidenceService.OldestDeletion` | python/ranklens_enterprise/worker.py:75-88 | the claimable request with the earliest request time, or none exactly if none is claimable |
| `Service.EvidenceService.ClaimNextDeletion` | python/ranklens_enterprise/worker.py:73-106 | the oldest claimable request is the one that is claimed |
| `Service.EvidenceService.DeleteObjects` | python/ranklens_enterprise/worker.py:217-227 | the loop deletes exactly the given objects, or stops early only when the process dies or an object is corrupt |
| `Service.EvidenceService.DeleteOutbox` | python/ranklens_enterprise/worker.py:230-267 | exactly the attempt's admission records and report requests leave the outbox |
| `Service.EvidenceService.Execute` | python/ranklens_enterprise/worker.py:121-346 | an erasure either completes, is blocked by a hold, or rolls back with some of its objects gone and every row kept |
| `Service.EvidenceService.FailDeletion` | python/ranklens_enterprise/worker.py:348-357 | a failed erasure is queued again until the retry cap, under its own lease only |
| `Service.EvidenceService.ApplyTombstones` | python/ranklens_enterprise/recovery.py:160-229 | a bundle is applied as a whole or not at all, and one seen before changes nothing |
| `Service.Restore` | python/ranklens_enterprise/recovery.py:169-221 | the loop over the entries equals applying them one after another, and stops at the first contradicted one |
| `Service.EvidenceService.SweepReservations` | python/ranklens_enterprise/worker.py:390-427 | the loop expires the batch one by one and leaves existing candidates alone |
| `Service.EvidenceService.CollectObject` | python/ranklens_enterprise/worker.py:507-547 | the collector's verdict and delete, with the delete in effect also when the transaction rolls back |
| `Service.EvidenceService.AuditObject` | python/ranklens_enterprise/worker.py:606-656 | the auditor's verdict on a protected object whose time has come, or on one quarantined for the audit interval |
| `Service.EvidenceService.ClaimRecord` | python/ranklens_enterprise/worker.py:678-705 | a claimed outbox row is leased under a new generation that the ticket owns |
| `Service.EvidenceService.FirstRecord` | python/ranklens_enterprise/worker.py:680-697 | the first claimable record of the kind a worker serves, or none exactly if there is none |
| `Service.EvidenceService.ClaimNextRecord` | python/ranklens_enterprise/worker.py:678-705 | a worker claims the first claimable record of its own kind |
| `Service.EvidenceService.FailRecord` | python/ranklens_enterprise/worker.py:819-831 | a failed try is queued again until the retry cap |
| `Service.EvidenceService.NormalizeSegment` | python/ranklens_enterprise/worker.py:743-814 | one normalized segment and one report request per receipt, and nothing for an attempt that was deleted meanwhile |
| `Service.EvidenceService.ReserveArtifacts` | python/ranklens_enterprise/worker.py:1068-1077 | artifacts get a collector row before they are written |
| `Service.EvidenceService.PublishReport` | python/ranklens_enterprise/worker.py:1162-1289 | the publishing transaction as specified: suppressed, queued again, or artifacts, revision and head together |
| `Runtime.PerformAll` | python/ranklens_enterprise/worker.py:1308-1313 | whatever script of transactions and crashes is run on the service object, its tables are the state of a run of the lifecycle |
| `Recovery.InOrder` | python/ranklens_enterprise/recovery.py:68-77 | the rows of the ordered query: every key once, strictly ascending |
| `Recovery.FollowYieldsAll` | python/ranklens_enterprise/recovery.py:53-114 | following the cursors terminates, and the pages joined are all completed deletions, each once and in order |
| `Recovery.CursorProgress` | python/ranklens_enterprise/recovery.py:110-113 | a page with a cursor is full, and the next page starts right after its last row |
| `Recovery.PageIsReadable` | python/ranklens_enterprise/recovery.py:244-258 | a page is accepted by the importer exactly if each of its rows is portable, and then it arrives unchanged |
| `Recovery.LessExactly` | python/ranklens_enterprise/recovery.py:71-91 | one name comes before another exactly if it is a proper prefix or smaller at the first difference |
| `Recovery.ExportListsCompletions` | python/ranklens_enterprise/recovery.py:69-98 | a client that follows the cursors is given exactly the attempts whose erasure is completed |
| `Recovery.ReadExactly` | python/ranklens_enterprise/recovery.py:144-155 | any entries are read exactly if they are at most 10000, each well formed, in strictly ascending order |
| `Recovery.AcceptableReadsBack` | python/ranklens_enterprise/recovery.py:144-155 | the bundles that can be imported are exactly those that reading gives back as they were written |
| `Restore.PortableExactly` | python/ranklens_enterprise/recovery.py:244-258 | over every run a completed deletion is portable exactly if its identifiers are well formed and it was not completed before its request |
| `Restore.PortableWhenErasedAfterTheRequest` | python/ranklens_enterprise/recovery.py:256-257 | an erasure leaves a portable row exactly if the identifiers are well formed and its own clock has reached the time of the request |
| `Restore.CompletedRowsArePortable` | python/ranklens_enterprise/recovery.py:94-101 | where imports come from the past, well-formed identifiers are enough |
| `Restore.FutureTombstonesAreNotPortable` | python/ranklens_enterprise/recovery.py:256-257 | a tombstone from a clock that is ahead, erased before that time, is completed before it was requested and not portable |
| `Restore.RefusedExactly` | python/ranklens_enterprise/recovery.py:172-179 | a canonical bundle is refused for contradiction exactly if a live attempt is at a newer generation than an entry |
| `Restore.ImportsAreNeverRefused` | python/ranklens_enterprise/recovery.py:173-177 | in every reachable catalog an acceptable bundle is imported: no live attempt ever contradicts it |
| `Restore.ReplayAndRefusalAreInert` | python/ranklens_enterprise/recovery.py:160-166 | a repeated, unacceptable or contradicted bundle changes nothing |
| `Restore.ImportsStayInForce` | python/ranklens_enterprise/recovery.py:180-189 | in every later state each imported attempt is fenced at a generation at least the imported one |
| `Restore.RestoreIsComplete` | python/ranklens_enterprise/recovery.py:117-229 | once all pages of an export are imported, every deletion it listed is in force |
| `Retention.AdmissionUsesTheActivePolicy` | python/ranklens_enterprise/api.py:639-667 | admission selects a policy exactly if the API calls it active for the case, or for the cluster when none is active for the case |
| `Retention.LabelledActiveExactly` | python/ranklens_enterprise/api.py:597-614 | the label "active" goes to exactly the highest version in force of its scope |
| `Retention.AssignmentsStayJustified` | python/ranklens_enterprise/ingestion.py:233-302 | in every reachable state a recorded version is in force, not cancelled, fits the attempt's case and explains its expiry |
| `Retention.StepLasts` | python/ranklens_enterprise/ingestion.py:426-429 | a policy that is in force stays in force with the same terms, since it can no longer be cancelled |
| `Retention.BackfillAppliesWhatWasReviewed` | python/ranklens_enterprise/ingestion.py:703-723 | a confirmed backfill finds each reviewed attempt as reviewed, moves exactly those, and changes nothing else |
| `Retention.NothingChangedSinceTheReview` | python/ranklens_enterprise/ingestion.py:694-701 | a backfill is confirmed only if eligible attempts and their assignments are those of the preview |
| `Retention.BackfillSparesDeletions` | python/ranklens_enterprise/ingestion.py:488-500 | an attempt with a deletion row is never touched |
| `Retention.SecondPreviewIsEmpty` | python/ranklens_enterprise/ingestion.py:607-641 | the same preview right after a backfill finds nothing eligible |
| `Retention.ItemsUndoTheBackfill` | python/ranklens_enterprise/ingestion.py:710-721 | the recorded items restore every assignment the backfill changed |
| `Retention.LogRestoresFirstAssignments` | python/ranklens_enterprise/ingestion.py:710-723 | over every run, undoing the logged backfills in reverse gives each attempt the version, expiry and admission time of its first admission |
| `Retention.RefusedExactlyIfStale` | python/ranklens_enterprise/ingestion.py:694-701 | after any run a reviewed backfill goes through exactly if the same attempts are eligible with the same assignments and none came due since; otherwise it is refused as stale |
| `Retention.RevisionsTakeEffectInTime` | python/ranklens_enterprise/ingestion.py:320-384 | a lawful revision is added as the next version and is in force exactly from its effective time on unless cancelled; any other is refused |
| `Retention.CancelledBeforeTheirTime` | python/ranklens_enterprise/ingestion.py:386-446 | a revision that has not taken effect can be cancelled and then never does; one that has cannot |
| `Retention.LabelsExactly` | python/ranklens_enterprise/api.py:597-637 | cancelled, scheduled and superseded each mean what they say: withdrawn, still to come, or replaced by a newer version in force |
| `Retention.AdmissionsAssignOnce` | python/ranklens_enterprise/ingestion.py:233-317 | the first admission records time, case, version and deadline; of later ones only a case that was not known has an effect |
| `Retention.NothingMovesWhatIsToBeDeleted` | python/ranklens_enterprise/ingestion.py:488-500 | once its deletion was asked for, no backfill changes an attempt's version or deadline |
| `Retention.PreviewsAreShownExactly` | python/ranklens_enterprise/ingestion.py:553-602 | a preview is shown exactly for a policy in force, a warranted request and no more attempts than the limit |
| `Retention.PreviewsTellTheOutcome` | python/ranklens_enterprise/ingestion.py:592-605 | exactly the attempts meant move, and the due attempts of the preview are as many as end up with a deadline that has passed |
| `Retention.RetentionService.FindPolicy` | python/ranklens_enterprise/ingestion.py:263-281 | the query finds the first applicable policy in its order, or none exactly if none applies |
| `Retention.RetentionService.AssignRetention` | python/ranklens_enterprise/ingestion.py:233-302 | the first admission records the policy found and the expiry it implies |
| `Retention.RetentionService.CreateRevision` | python/ranklens_enterprise/ingestion.py:320-384 | versions count up without gaps, and terms outside the limits are refused |
| `Retention.RetentionService.CancelRevision` | python/ranklens_enterprise/ingestion.py:403-446 | a revision is cancelled at most once and only before it takes effect |
| `Retention.RetentionService.ApplyBackfill` | python/ranklens_enterprise/ingestion.py:643-754 | the loop moves exactly the reviewed attempts, and its items undo it |
| `Retention.PerformAll` | python/ranklens_enterprise/ingestion.py:643-754 | whatever script is run on the service object, its tables are the state of a run in which admissions found what the policy query finds |
| `Tracker.RequestTracker.RememberTransfer` | src/interceptor/ranklens_mpi.cpp:542-572 | a transfer is tracked within the limit; if memory runs out the group is released again |
| `Tracker.RequestTracker.RememberPersistent` | src/interceptor/ranklens_mpi.cpp:542-572 | a persistent request is saved within the limit, a replaced entry releases its group, and a new entry without memory gives its group back |
| `Tracker.RequestTracker.StartPersistent` | src/interceptor/ranklens_mpi.cpp:605-620 | a started request borrows the saved group without owning it; without memory at most an empty queue is left |
| `Tracker.RequestTracker.CompleteRequest` | src/interceptor/ranklens_mpi.cpp:622-650 | the oldest transfer is reported, its group is still held when used, and a one-shot transfer releases it |
| `Tracker.RequestTracker.ForgetRequest` | src/interceptor/ranklens_mpi.cpp:574-591 | every group of the handle is released once, borrowed ones through their owner only |
| `Tracker.RequestTracker.RequestId` | src/interceptor/ranklens_mpi.cpp:593-603 | the first pending number, else the saved one, else none |
| `Tracker.RequestTracker.PendingSize` | src/interceptor/ranklens_mpi.cpp:536-540 | the loop counts the queued transfers |
| `Tracker.RequestTracker.Finalize` | src/interceptor/ranklens_mpi.cpp:712-732 | at the end every group ever acquired is released, none twice, and no transfer is left open |
| `TrackerRuns.EveryRunIsSound` | src/interceptor/ranklens_mpi.cpp:536-650 | over every sequence of calls, with memory running out anywhere, tables stay within the limit and each group acquired is either held by one owner or released |
| `TrackerRuns.NothingCompletesTwice` | src/interceptor/ranklens_mpi.cpp:622-650 | no run reports a one-shot transfer as completed twice |
| `TrackerRuns.NothingDangles` | src/interceptor/ranklens_mpi.cpp:605-642 | no run leaves a queued transfer whose group was released, although started requests share the saved group |
| `TrackerRuns.ReplacingDanglesExactly` | src/interceptor/ranklens_mpi.cpp:559-563 | replacing a saved entry leaves a transfer with a released group behind exactly if the entry was started and not completed |
| `Completions.CallsMoveTheirQueue` | src/interceptor/ranklens_mpi.cpp:542-650 | a tracked transfer joins the end of its handle's queue, a completion takes the front, a freed handle has no queue |
| `Completions.CallsMoveTheirEntry` | src/interceptor/ranklens_mpi.cpp:542-620 | only an accepted persistent request and a freed handle change the saved entry |
| `Completions.OtherHandlesStay` | src/interceptor/ranklens_mpi.cpp:542-650 | no call changes the queue or the saved entry of another handle |
| `Completions.CompletedAsRemembered` | src/interceptor/ranklens_mpi.cpp:622-632 | over every sequence of calls, what completes under a number has the direction, group, peer and tag it was tracked with |
| `Completions.CompletionsComeInOrder` | src/interceptor/ranklens_mpi.cpp:622-632 | transfers under one handle complete in the order in which they were tracked |
| `Completions.StartedAsSaved` | src/interceptor/ranklens_mpi.cpp:605-620 | until a persistent request is replaced or freed, each started transfer is queued with what the request was saved with |
| `Completions.FatesAreExplained` | src/interceptor/ranklens_mpi.cpp:542-650 | where a call decides a number, its fate says what the call did with it |
| `Tracker.CancelledReports` | src/interceptor/ranklens_mpi.cpp:632-648 | a cancelled transfer is reported without bytes and without a peer |
| `Tracker.SendReports` | src/interceptor/ranklens_mpi.cpp:632-648 | a finished send is reported with its own tag and no bytes, to its peer as the world numbers it |
| `Tracker.ReceiveReports` | src/interceptor/ranklens_mpi.cpp:632-648 | a finished receive is reported with the status's tag and bytes, from the sender as the world numbers it |
| `Recorder.OperationIndex` | src/interceptor/ranklens_mpi.cpp:179-184 | the search finds the first place of a name, or one past the table |
| `Recorder.RankRecorder.Record` | src/interceptor/ranklens_mpi.cpp:257-296 | counters and buffers stay consistent with each other, whatever is recorded, and a disabled recorder records nothing |
| `Recorder.RankRecorder.Drain` | src/interceptor/ranklens_mpi.cpp:350-373 | everything buffered reaches the file in order and is counted |
| `Recorder.RankRecorder.WriteSummary` | src/interceptor/ranklens_mpi.cpp:451-470 | the loop writes one row for each operation that occurred |
| `Analyzer.LoadSummary` | python/ranklens/analyzer.py:60-86 | a summary is accepted exactly if its counters agree with its table |
| `Analyzer.LoadFile` | python/ranklens/analyzer.py:146-215 | every edge from the rank grows by exactly the bytes and messages of the accepted sends to its destination, and no other edge changes |
| `Analyzer.FillTimeline` | python/ranklens/analyzer.py:194-200 | each bucket of the timeline grows by exactly the calls and time of the accepted lines that fall into it |
| `Capture.SnapshotsAreAccepted` | python/ranklens/analyzer.py:80-86 | a snapshot taken at any moment of any run passes the analyzer's cross-checks |
| `Capture.EveryNumberIsAccountedFor` | src/interceptor/ranklens_mpi.cpp:283-293 | issued numbers equal written plus buffered plus dropped events |
| `Capture.LinesAreAccepted` | python/ranklens/analyzer.py:164-193 | every written line passes schema, rank and sequence checks, and the kind check exactly if its name tells its kind |
| `Capture.TrafficIsCounted` | src/interceptor/ranklens_mpi.cpp:280-293 | the traffic in a rank's file never exceeds the bytes sent that a summary taken then reports |
| `Capture.LoadEdges` | python/ranklens/analyzer.py:135-215 | the loop over the ranks adds up exactly the accepted traffic of every file |
| `Capture.SharesAreAtMostOne` | python/ranklens/analyzer.py:217-231 | over the files that recorders leave, the traffic shares of all edges add up to at most one |
| `Accounts.SummariesCountTheRun` | src/interceptor/ranklens_mpi.cpp:268-281 | over every run, each counter of a summary is the total over the recorded events, by their names |
| `Accounts.SummariesListTheRun` | src/interceptor/ranklens_mpi.cpp:451-470 | a summary has a row for exactly the names that occurred, with their calls, time, bytes and kind |
| `Accounts.DroppedExactly` | src/interceptor/ranklens_mpi.cpp:283-293 | an event is dropped exactly where the limit or the buffer is full, else it follows all others |
| `Accounts.FilesHoldWhatWasRecorded` | src/interceptor/ranklens_mpi.cpp:350-373 | the file holds recorded events unaltered, each under its number and in order |
| `Accounts.SmallRunsAreComplete` | src/interceptor/ranklens_mpi.cpp:283-373 | where no more is recorded than buffer and limit hold, the written file is the whole recording |
| `Readings.SentExactly` | python/ranklens/analyzer.py:164-212 | a line of any file counts as traffic exactly if it is a credible send without error between two ranks of the world |
| `Readings.RepeatedLinesAddNothing` | python/ranklens/analyzer.py:172-180 | lines of version 2 that are read again add no traffic |
| `Readings.TrafficIsWhatWasSent` | python/ranklens/analyzer.py:201-215 | over every run, the traffic to each rank is exactly the sends to it in the file that did not fail |
| `Readings.BucketsDivideTheRuntime` | python/ranklens/analyzer.py:196-198 | the fifty buckets divide the runtime evenly, and what comes later is in the last |
| `Readings.TimelineIsWhatHappened` | python/ranklens/analyzer.py:192-200 | a bucket gets exactly the calls and time of the file's events that did not fail and fall into it |
| `Readings.ChangedSnapshotsAreRefused` | python/ranklens/analyzer.py:48-106 | a snapshot with a checked field changed is accepted exactly if the field is as it was or still within its range |
| `Telemetry.TellableExactly` | python/ranklens/analyzer.py:184-187 | suffix and table index agree on what is a completion exactly for names in the table or without the suffix |
| `Timeline.Derive` | python/ranklens_enterprise/scheduler.py:240-350 | observations of one job give the timeline of their time order; none, or several jobs, are refused |
| `Timeline.TimelinesAreWellFormed` | python/ranklens_enterprise/scheduler.py:273-328 | closed intervals end no earlier than they start, and only the last can be open, for a job still going |
| `Timeline.OrderDoesNotMatter` | python/ranklens_enterprise/scheduler.py:247-248 | the order of arrival does not matter where times tell observations apart |
| `Coverage.SortingIsStable` | python/ranklens_enterprise/scheduler.py:247 | observations of the same time keep the order in which they are given |
| `Coverage.ReportsTheLatest` | python/ranklens_enterprise/scheduler.py:326-345 | the timeline reports the state and the job number observed last |
| `Coverage.SteadyJobIsOneInterval` | python/ranklens_enterprise/scheduler.py:271-324 | a job seen running and then over has one interval, from its start to its end as far as it tells them |
| `Coverage.RunningJobIsOpen` | python/ranklens_enterprise/scheduler.py:271-328 | a job seen running has one open interval |
| `Coverage.ChangedJobIsTwoIntervals` | python/ranklens_enterprise/scheduler.py:281-305 | a change of resources splits the allocation where it was observed, unless that is before it began |
| `Coverage.EndedJobIsOneInterval` | python/ranklens_enterprise/scheduler.py:271-324 | a job first seen when over has one interval exactly if it tells its size and a start before its end |
| `Coverage.ReasonsExactly` | python/ranklens_enterprise/scheduler.py:306-340 | every coverage reason, and exactly when it is given |
| `Contiguity.IntervalsJoinExactly` | python/ranklens_enterprise/scheduler.py:271-328 | for all observations: intervals join end to start with different resources exactly if every observation that opens a kept interval starts at the end set by the last closing observation before it, with other resources; the condition speaks of observations only |
| `Contiguity.AlwaysAgrees` | python/ranklens_enterprise/scheduler.py:271-324 | what the observations tell about the running allocation and the last closed interval is what the loop has |
| `Contiguity.IntervalsJoin` | python/ranklens_enterprise/scheduler.py:281-324 | where nothing follows a terminal observation, nothing reopens and the intervals join |
| `Contiguity.RepeatedEndReopens` | python/ranklens_enterprise/scheduler.py:271-280 | every sized terminal observation with a start that comes after the end adds the whole allocation as one more interval |
| `Contiguity.RepeatedEndJoinsExactly` | python/ranklens_enterprise/scheduler.py:271-280 | such a repetition keeps the timeline in one piece exactly if the job started anew, with other resources, where it had ended |
| `Contiguity.RepeatedEndOverlaps` | python/ranklens_enterprise/scheduler.py:271-280 | an ended job polled twice has the same interval twice |
| `Poller.PollingLeavesNoGap` | python/ranklens_enterprise/scheduler.py:423-525 | over any run with failures, takeovers and stale pollers the cursor never goes back, and published queries cover all time up to it |
| `Poller.StalePollersAreInert` | python/ranklens_enterprise/scheduler.py:489-496 | a lease that was taken over can neither begin, publish nor fail any more |
| `Poller.OwnersWhileLeased` | python/ranklens_enterprise/scheduler.py:445-448 | the cursor row has an owner exactly while it is leased |
| `Poller.DelaysAreOrderly` | python/ranklens_enterprise/scheduler.py:517-520 | failure delays never shrink with more failures and lie between the interval and the maximum |
| `Poller.DelaysDouble` | python/ranklens_enterprise/scheduler.py:517-520 | the first failure waits the interval, each further one twice as long up to the maximum |
| `Poller.LeasesRunTheirTime` | python/ranklens_enterprise/scheduler.py:423-448 | a claimed cursor is nobody else's until its lease has run out, and then anybody's |
| `Poller.PublishedPollsMoveTheCursor` | python/ranklens_enterprise/scheduler.py:456-505 | publishing under the lease moves the cursor to when the query began, clears the failures, and makes the row due after the interval |
| `Poller.FailuresBackOff` | python/ranklens_enterprise/scheduler.py:507-525 | a failure is counted and the row is due again after exactly the delay for the count |
| `Poller.SchedulerPoller.ClaimCursor` | python/ranklens_enterprise/scheduler.py:423-454 | a due and free cursor row is leased under a higher generation |
| `Poller.SchedulerPoller.BeginPoll` | python/ranklens_enterprise/scheduler.py:460-474 | a query under the current lease asks from the lookback before the cursor on |
| `Poller.SchedulerPoller.PublishPoll` | python/ranklens_enterprise/scheduler.py:488-505 | publishing under the current lease moves the cursor forward to the start of the query |
| `Poller.SchedulerPoller.FailPoll` | python/ranklens_enterprise/scheduler.py:507-525 | a failure under the current lease backs off and releases the row |
| `Notifications.StaleWorkersAreInert` | python/ranklens_enterprise/notifications.py:148-203 | a lease superseded by a claim or a redrive can neither deliver nor fail |
| `Notifications.DeliveryIsFinal` | python/ranklens_enterprise/notifications.py:165-175 | a delivered notification never changes again |
| `Notifications.NotificationQueue.ClaimRow` | python/ranklens_enterprise/notifications.py:110-146 | a due row is leased under a higher generation that the ticket owns |
| `Notifications.NotificationQueue.NextRow` | python/ranklens_enterprise/notifications.py:110-135 | the due row whose next try comes first, the lowest identifier among equals, or none exactly if none is due |
| `Notifications.NotificationQueue.ClaimNextRow` | python/ranklens_enterprise/notifications.py:110-146 | the next row in that order is the one that is claimed |
| `Notifications.NotificationQueue.BeginDelivery` | python/ranklens_enterprise/notifications.py:149-157 | nothing is sent under a lease that is no longer the row's own |
| `Notifications.OwnersWhileProcessing` | python/ranklens_enterprise/notifications.py:137-141 | a notification has an owner exactly while it is processed |
| `Notifications.RetriesBackOff` | python/ranklens_enterprise/notifications.py:195-203 | retry delays never shrink and lie between the base and an hour |
| `Notifications.RetriesDouble` | python/ranklens_enterprise/notifications.py:198-203 | the first retry waits the base, each further one twice as long up to an hour |
| `Notifications.LeasesRunTheirTime` | python/ranklens_enterprise/notifications.py:110-146 | a claimed notification is nobody else's until its lease has run out, and then anybody's |
| `Notifications.FailuresWaitTheirTurn` | python/ranklens_enterprise/notifications.py:184-203 | a failed delivery can be claimed exactly after the delay for its tries, and never once the limit is reached |
| `Notifications.DeliveriesAreRecorded` | python/ranklens_enterprise/notifications.py:165-175 | a delivery is recorded with its time, and nobody can claim the row any more |
| `Notifications.RedrivesStartOver` | python/ranklens_enterprise/notifications.py:260-274 | a redriven notification is logged, due at once without tries, and out of reach of every earlier lease |
| `Notifications.OnlyFailuresAreRedriven` | python/ranklens_enterprise/notifications.py:251-259 | exactly failed notifications are redriven |
| `Notifications.NotificationQueue.RedriveOnce` | python/ranklens_enterprise/notifications.py:220-274 | accepted exactly if the notification failed, or is under way and its latest redrive was the same; only a failed one is queued again |
| `Notifications.NotificationQueue.ExecuteRow` | python/ranklens_enterprise/notifications.py:148-203 | an outcome is recorded only under the lease the delivery started with |
| `Incidents.NotificationsAreComplete` | python/ranklens_enterprise/integrity.py:34-63 | each occurrence is announced once, the last is closed exactly if the incident is, and resolutions match resolved notifications |
| `Incidents.NotificationsAreUnique` | python/ranklens_enterprise/integrity.py:34-63 | no notification is ever enqueued twice, so the unique constraint never fires |
| `Incidents.DetectionsAreCounted` | python/ranklens_enterprise/integrity.py:107-134 | an incident exists exactly if it was detected, and counts how often |
| `Incidents.DetectionsReopen` | python/ranklens_enterprise/integrity.py:107-134 | a detection leaves its incident open without a resolution, and no other changes |
| `Incidents.SettlementsClose` | python/ranklens_enterprise/integrity.py:148-184 | a settlement closes an open incident in its own name and for its reason, and nothing else |
| `Incidents.ScopesKeepObjects` | python/ranklens_enterprise/integrity.py:66-89 | an object has a reference scope exactly if the collector finds it referenced |
| `Incidents.IncidentService.RecordIncidents` | python/ranklens_enterprise/integrity.py:92-139 | the loop opens or reopens exactly one incident per tenant and cluster |
| `Incidents.IncidentService.ResolveIncident` | python/ranklens_enterprise/integrity.py:148-184 | an incident is resolved exactly if it is open and its own scope no longer misses the object |

## Left out

- Authentication, routing, settings, view serialization, web UI, diagnosis text: plumbing with one-branch checks.
- File system, hashing, signatures, JSON and Parquet encoding: replaced by an abstract store and injective digests; the 10 MiB limit on bundles is not modelled.
- Database locking, SQL evaluation and schema migrations: replaced by atomic steps over maps and sequences.
- Liveness: nothing is said about work getting done without a worker that does it; what each worker achieves where it does is stated.
- Lease attempts are not bounded by the retry cap, since reclaiming an expired lease counts too; no bound is stated.
- Row columns that nothing reads back (error texts, credential identifiers, counters of deleted rows, timestamps kept for display) are not in the tables.
- Scheduler observations: the reconciler that stores them, and their deletion with an attempt, are not modelled.
- The retention sweeper appears as deletion requests at any time; that it picks only attempts that are due is not stated.
- Service.EvidenceService.ClaimDeletion: claims the row it is given; `ClaimNextDeletion` picks it. In the transition system any claimable row may be claimed. The same holds for `ClaimRecord`.
- Notifications.NotificationQueue.ClaimRow: claims the row it is given; `ClaimNextRow` picks it.
- Poller.SchedulerPoller.ClaimCursor: models one cursor row; the order in which a poller picks among several clusters is left open.
- Service.EvidenceService.NormalizeSegment: takes the manifest read by the earlier session as given; parsing the payload is not modelled, a payload that does not parse is a failure of the lease.
- Service.EvidenceService.PublishReport: the limits on segments, records and bytes of a report are not modelled; exceeding them is a failure of the lease.
- Recorder.RankRecorder.Record: counters are unbounded, 64-bit wrap-around is not modelled, and neither is an output stream that fails.
- Analyzer.LoadFile: the timeline is filled by `FillTimeline`; warnings are not modelled.
- Notifications.NotificationQueue.ExecuteRow: the delivery itself is a parameter; a receiver may see an event more than once.
- Webhook sending, `sacct` calls, MPI launch, benchmarks, demo data and the Go agent.
