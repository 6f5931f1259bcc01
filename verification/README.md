# DocsMint: a verified model

This project models the protocols and algorithms at the heart of the DocsMint document server in
Dafny and proves what they guarantee. `dafny verify dfyconfig.toml` checks all of it.

| Modules | Subject |
|---|---|
| `AttachmentProtocol`, `AttachmentInvariant`, `AttachmentSteps`, `AttachmentSafety`, `AttachmentLog`, `AttachmentDrain`, `AttachmentLeases`, `AttachmentSweep`, `AttachmentLimits` | attachment uploads: admission, presigned URL, confirmation, sweep, cleanup outbox, quota |
| `SourceText`, `Sanitizer`, `Paragraphs`, `Splitter`, `Chunker`, `ChunkerProperties` | the chunker of the embedding pipeline |
| `EmbeddingRows`, `EmbeddingGenerations`, `EmbeddingWorker` | embedding generations and incremental re-embedding |
| `MetadataStaging`, `MetadataDrain` | the metadata re-embed outbox |
| `PurgeSaga`, `PurgeWorker` | the resumable account purge |
| `FolderTopology`, `ShareAccess` | folder chains, inherited categories, share links |
| `CredentialSave`, `AttachmentUrls`, `JobGraph` | credential save with rollback, URL rewriting, reachability of release jobs |

The protocols are state machines: one event per database transaction, per call to the object store,
the quota adapter or the provider, and per crash, with one clock. Theorems speak about every run of
every number of workers. The loops that drive the protocols (`StorageCleanup.Drain`, `CleanupExpired`,
`EmbeddingStore.ProcessDocument`, `PurgeService.PurgeUserData`) are methods of classes that keep the
run they have seen as ghost state, so whatever they do between the actions of others is a run of the
state machine, and every theorem about runs applies to them. An `Environment` says what others do
meanwhile, how calls end, and which transactions fail.

## Findings

* An object can outlive its cleanup intent. The admission expires a URL lifetime after the request
  began (`backend/src/api/routes/attachments.ts:448`), but the URL is signed later and is valid for a
  full lifetime from then (`backend/src/api/routes/attachments.ts:548-552`). An attachment that is
  removed while its upload URL still works has no time to retain either.
  `AttachmentLimits.OrphanExactlyWhenUrlLate` proves that orphans are possible exactly when the URL
  outlasts the time the cleanup goes by.
* `sanitizeEmbeddingText` is idempotent: the marker holds white space, so a comma that a replacement
  brings nearer lies behind white space and makes no header valid (`Sanitizer.SanitizeTwice`).
* The texts of all chunks equal their spans exactly when no chunk is opened by an overlap that jumps
  over dropped white space (`ChunkerProperties.Chunking`). A text with a chunk that is not its span exists
  for every setting with an overlap, and for none without (`ChunkerProperties.GapPossible`). A dropped
  piece alone does no harm (`ChunkerProperties.DroppedYetExact`).
* The counters of the outbox drain can add up to more than was claimed: when a transaction fails in the
  middle of a page, the whole page is counted as failed, including what had been counted already
  (`backend/src/lib/attachment-storage-cleanup.ts:428-435`). The totals are a function of what the drain did
  (`AttachmentDrain.StorageCleanup.Drain`), and they balance exactly when no page broke after a deferral or a
  failure had been counted (`AttachmentLog.BalancedExactly`): a row deferred or given back before the failing
  transaction, or the row whose failure that transaction should have recorded
  (`AttachmentDrain.StorageCleanup.SettlePage`). `AttachmentLimits.CountedTwice` is a drain of two rows that
  reports three outcomes.
* Rewriting attachment URLs one source after the other is a simultaneous substitution exactly when no
  target in the table of replacements is the source of a later entry that changes it
  (`AttachmentUrls.SequentialIsSimultaneous`, `AttachmentUrls.HandedOnExample`).
* The table of status transitions (`backend/src/embedding/generation.ts:36-45`) is not enforced.
  `EmbeddingGenerations.PermittedExactly` says for every writer from which statuses its write is permitted,
  and `EmbeddingGenerations.TableIsNotEnforced` that each of them breaks the table in some run.
* An active generation has no rows exactly when the queue pipeline activated it for a document without
  chunks (`EmbeddingGenerations.ActiveIsSearchable`).
* A worker whose begin took effect but lost its answer marks the document as failed, even when another
  generation has become active since (`EmbeddingGenerations.FailedThoughReady`); it changes nothing else
  (`EmbeddingGenerations.SupersededWorkerIsHarmless`).

## Assumptions

* The quota adapter keeps one ledger per operation key, is idempotent per key, and rejects a key for
  good or not at all; a failed call may have had its effect, and a request may be delivered late.
* A key is rejected for good only before it has ever been reserved; confirming and releasing may be
  rejected at any time.
* The chunk hash is free of collisions, a provider is deterministic for a model and a text, and vectors
  have real components or components that are not finite.
* Lease owners, generations and admission identifiers are fresh. A drain claims each page under a token
  of its own; the program uses one lease owner for all pages of a call, whose pages do not overlap in time.
* Time is measured in whole seconds, and a claim reads the clock when it writes its lease.
* A failed transaction of the drain or the sweep had no effect; then the drain or the sweep may be rejected
  and leave its claims leased.
* The final transaction of a confirmation relocks the admission, inserts the attachment and deletes the
  admission at once.

## Model

| member | source | states |
|---|---|---|
| AttachmentSafety.Reachable | backend/src/lib/attachment-upload-cleanup.ts:141-343 | in every run of presign, confirm, sweep, purge and drain workers, with crashes, late deliveries and takeovers, every admission keeps the invariant that ties rows, copies held by workers, ledger and object together |
| AttachmentSafety.RetiredOnlyAfterDelete | backend/src/lib/attachment-storage-cleanup.ts:352-439 | an intent is removed only by the holder of its lease, and the run contains an earlier successful delete by that worker at or after the time to retain |
| AttachmentSafety.NoObjectOutlivesItsIntent | backend/src/lib/attachment-storage-cleanup.ts:272-292 | once neither row, attachment nor intent refers to the object, no object is stored, provided the URL expired by the time the cleanup goes by |
| AttachmentLimits.OrphanExactlyWhenUrlLate | backend/src/api/routes/attachments.ts:448-582 | for every lifetime, a run that leaves an orphaned object exists exactly when the URL outlasts the expiry of the admission, or the removal of the attachment |
| AttachmentSafety.DeferredAtMostOnce | backend/src/lib/attachment-storage-cleanup.ts:272-292 | no intent is deferred twice |
| AttachmentSafety.QuotaSettledForGood | backend/src/lib/attachment-storage-cleanup.ts:294-323 | after a retirement without a terminal rejection, the ledger of the operation key holds neither reservation nor usage in every continuation of the run |
| AttachmentLimits.RejectionKeepsReservation | backend/src/lib/attachment-storage-cleanup.ts:402-413 | when the only retirement followed a terminal rejection, the intent is gone although a reservation may still be held |
| AttachmentLimits.UploadSucceeds | backend/src/api/routes/attachments.ts:448-582 | with and without a quota there is a run in which an upload is confirmed, with its object stored and its usage committed |
| AttachmentLimits.RemovalCleansUp | backend/src/lib/attachment-storage-cleanup.ts:352-439 | after the removal of an attachment there is a run at whose end object, rows and usage are gone |
| AttachmentLimits.SweepCleansUp | backend/src/lib/attachment-upload-cleanup.ts:502-540 | an upload that nobody confirms can be swept when it expires, and then object, rows and reservation are gone |
| AttachmentLimits.CountedTwice | backend/src/lib/attachment-storage-cleanup.ts:386-435 | a drain of two rows, the first deferred and the transaction of the second failing, reports one deferral and two failures |
| AttachmentSafety.LeaseHolds | backend/src/lib/attachment-storage-cleanup.ts:209-239 | while a lease is unexpired nobody but its owner changes the intent, whatever others do |
| AttachmentLeases.ClaimKeepsOthersOut | backend/src/lib/attachment-storage-cleanup.ts:177-256 | for 60 seconds after a claim that took effect, in every continuation in which its worker does nothing, the intent is unchanged, nobody else can claim it, and nothing others do changes it |
| AttachmentLeases.NotOnAnotherPage | backend/src/lib/attachment-storage-cleanup.ts:177-256 | no page that anybody takes within these 60 seconds holds the row |
| AttachmentLeases.ClaimLapses | backend/src/lib/attachment-storage-cleanup.ts:20-21 | when nothing else happens, the row can be claimed again from 60 seconds on and not before |
| AttachmentLeases.RetryAfterAMinute | backend/src/lib/attachment-storage-cleanup.ts:325-350 | a claim that is given back can be taken up again from 60 seconds after it was made |
| AttachmentLeases.DeferredUntilRetained | backend/src/lib/attachment-storage-cleanup.ts:272-292 | a deferred intent can be taken up again when its time to retain has passed |
| AttachmentLeases.SweepKeepsOthersOut | backend/src/lib/attachment-upload-cleanup.ts:141-204 | for 60 seconds after a sweep has claimed an admission, nobody else claims or abandons it, unless the presign request fails late |
| AttachmentLeases.ConfirmKeepsOthersOut | backend/src/lib/attachment-upload-cleanup.ts:346-396 | the same for 300 seconds after a confirmation has claimed it; no drain takes its intent either |
| AttachmentLeases.PresignKeepsOthersOut | backend/src/api/routes/attachments.ts:448-582 | the same for 60 seconds after the presign request has inserted it |
| AttachmentLeases.AdmissionLapses | backend/src/lib/attachment-upload-cleanup.ts:141-230 | when nothing else happens, the sweep can take an admission up after exactly these times, and 60 seconds after its own failure |
| AttachmentLeases.FreedAtOnce | backend/src/api/routes/attachments.ts:500-582 | a presign request or a confirmation that gives an admission up leaves it free at once |
| AttachmentLeases.RecordedByOwner | backend/src/lib/attachment-upload-cleanup.ts:232-286 | what a presign request, a confirmation or a sweep records about the quota of an admission takes effect exactly when its worker still has the lease |
| AttachmentLeases.AbandonHandsOver | backend/src/lib/attachment-upload-cleanup.ts:317-343 | an upload that its confirmation, the purge of the account or the client gives up is handed over to the outbox |
| AttachmentLeases.ConfirmClaimExactly | backend/src/lib/attachment-upload-cleanup.ts:346-396 | a confirmation can claim exactly the live admissions whose URL is out and that nobody has leased |
| AttachmentLeases.QuotaNeedsAdapter | backend/src/lib/attachment-storage-cleanup.ts:177-256 | without a quota adapter a drain claims exactly what it would claim with one and has no quota |
| AttachmentLeases.StagedIsDue | backend/src/lib/attachment-upload-cleanup.ts:317-343 | what a purge, a client or an abandoned confirmation stages can be drained at once |
| AttachmentLeases.RemovedIsDue | backend/src/api/routes/attachments.ts:1383-1403 | so can the intent that the removal of an attachment stages |
| AttachmentSafety.StaleWorkerWritesNothing | backend/src/lib/attachment-storage-cleanup.ts:280-289 | whatever a drain worker whose lease was taken over tries, it changes neither rows nor history |
| AttachmentSafety.SweptNeverConfirmed | backend/src/lib/attachment-upload-cleanup.ts:346-435 | once the sweep has claimed an admission, no confirmation can claim or insert it in any continuation |
| AttachmentSafety.LiveAttachmentKept | backend/src/api/routes/attachments.ts:1383-1403 | no event takes the object or the committed usage of a live attachment away; it stops being live only by its removal, which stages an intent |
| AttachmentSteps.SweepStageKeeps | backend/src/lib/attachment-upload-cleanup.ts:317-343 | staging from a copy without a lease check, even by a stale worker, keeps the invariant |
| AttachmentSteps.ReservationSettled | backend/src/lib/attachment-storage-cleanup.ts:303-313 | releasing the reservation of an admission that was never finalized leaves a ledger that nothing can fill again |
| AttachmentSteps.UsageSettled | backend/src/lib/attachment-storage-cleanup.ts:314-323 | releasing the usage of a finalized admission leaves a ledger that nothing can fill again |
| AttachmentSteps.FirstDeferral | backend/src/lib/attachment-storage-cleanup.ts:272-292 | a worker that is about to defer has found the intent before its first deferral |
| AttachmentDrain.StorageCleanup.ClaimPage | backend/src/lib/attachment-storage-cleanup.ts:177-256 | the page is the first due rows, in order of not_before, creation and identifier, among those that the filters admit and nobody has locked, none is passed over while there is room, and the worker holds a copy of every row of the page |
| AttachmentDrain.StorageCleanup.ReleaseQuota | backend/src/lib/attachment-storage-cleanup.ts:294-323 | the worker makes exactly the calls that the kind of release asks for, in order, until one fails; the last reply decides between settled, retry and terminal rejection |
| AttachmentDrain.StorageCleanup.ProcessRow | backend/src/lib/attachment-storage-cleanup.ts:394-414 | a row is deferred, given back, ready to be acknowledged, or breaks the page exactly when its transaction fails; the replies of the adapter decide which, its whole log is stated, and only its own claim changes |
| AttachmentDrain.StorageCleanup.SettlePage | backend/src/lib/attachment-storage-cleanup.ts:393-435 | the rows are worked off in order until one breaks the page; every claim ends in exactly one deferral, failure, acknowledgement or release, or is still held because it could not be given back; the log shows an interruption exactly when a transaction failed and an unrecorded failure exactly when the record of a retryable failure broke the page, and the report is the one that belongs to the log |
| AttachmentDrain.StorageCleanup.DrainPage | backend/src/lib/attachment-storage-cleanup.ts:371-437 | the same from the claim of the page on; the log shows a failed delete exactly when one of the deletes failed; the drain is rejected exactly when the claim fails or a broken page cannot be given back; when the deferral after i deferrals is the first to fail, the report is i deferrals and the whole page as failed |
| AttachmentDrain.StorageCleanup.Drain | backend/src/lib/attachment-storage-cleanup.ts:352-439 | with any interference the drain terminates, what it does is a run of the protocol, and its totals are the sum of the reports that belong to the logs of its pages; each page is the first due rows at a time after the pages before it, and the drain goes on until a page is not full or as many as allowed have been drained; if no transaction fails it is not rejected and its totals balance |
| AttachmentLog.ReportSum | backend/src/lib/attachment-storage-cleanup.ts:386-435 | when every claim of a page is accounted for, its report exceeds the claims by exactly the deferrals and failures that had been counted when it broke |
| AttachmentLog.BalancedExactly | backend/src/lib/attachment-storage-cleanup.ts:428-438 | the totals of a drain balance exactly when no page broke after a deferral or a failure had been counted |
| AttachmentSweep.ClaimExpired | backend/src/lib/attachment-upload-cleanup.ts:141-204 | the page is the first abandoned admissions that nobody has locked, in order of expiry, none is passed over while there is room, and exactly their rows are copied, as they were |
| AttachmentSweep.SweepRow | backend/src/lib/attachment-upload-cleanup.ts:513-526 | an admission is staged exactly when its transactions succeed and nothing is pending with the adapter, or the adapter is there and succeeds; then it has an intent and no row. Otherwise it is given back, and only a failure that cannot be recorded leaves it claimed |
| AttachmentSweep.StageExpired | backend/src/lib/attachment-upload-cleanup.ts:502-527 | every admission of a page of at most 100 ends in exactly one staging or release, and the result counts the staged ones; these are handed over to the outbox for good; when all calls succeed and the adapter is there or not needed, the whole page is staged |
| AttachmentSweep.CleanupExpired | backend/src/lib/attachment-upload-cleanup.ts:502-540 | with any interference the sweep and the exact drains that follow terminate and are a run of the protocol; the result is the number of stagings in it; when all calls succeed it is the number of rows of the page, and each of them has been handed over when the sweep ends; unless a transaction of the drains fails, each row has then been claimed if it was due, and no claim is left |
| AttachmentSweep.ExactMeans | backend/src/lib/attachment-upload-cleanup.ts:528-539 | the exact drain of a row admits that row and no other |
| Sanitizer.Sanitize | backend/src/embedding/chunker.ts:29-84 | the scanner computes the sanitized text and examines at most 212 code units per position |
| Sanitizer.RemovalExists | backend/src/embedding/chunker.ts:32-82 | every text can be cut into kept text and disjoint data URLs, each with a short header without white space and a maximal payload |
| Sanitizer.RemovalUnique | backend/src/embedding/chunker.ts:32-82 | there is only one such cut |
| Sanitizer.AssembleIsSanitized | backend/src/embedding/chunker.ts:80-83 | the sanitized text is the kept text in order with one marker for each removed URL |
| Sanitizer.SanitizeTwice | backend/src/embedding/chunker.ts:29-84 | sanitizing is idempotent |
| Sanitizer.UrlMeans | backend/src/embedding/chunker.ts:32-63 | what is removed begins with `data:` and has its first comma at most 512 code units later, with no blank before it |
| Sanitizer.MarkerReads | backend/src/embedding/chunker.ts:18 | the marker reads `[inline binary asset omitted]` |
| Paragraphs.SourceUnits | backend/src/embedding/chunker.ts:126-144 | the units are the stretches with ink between the greedy breaks of the text, in order, with the break before each |
| Splitter.SplitOversizedParagraph | backend/src/embedding/chunker.ts:92-124 | the loop cuts a long paragraph at the last sentence end within the target or at the target, and drops blank pieces |
| Splitter.PartsChain | backend/src/embedding/chunker.ts:97-123 | the pieces are short enough, lie in order in the paragraph, and only white space lies between them |
| Chunker.UnitsChain | backend/src/embedding/chunker.ts:169-181 | the units of every text form a chain: each is short enough, they lie in order, and only white space lies before, between and after them |
| Chunker.MergeUnits | backend/src/embedding/chunker.ts:183-242 | the loop with its local variables is the fold that the properties are proved about |
| Chunker.ChunkText | backend/src/embedding/chunker.ts:165-252 | the chunks are those of the sanitized text's units; a text without ink has none |
| ChunkerProperties.ChunkOkMeaning | backend/src/embedding/chunker.ts:214-222 | text and span of a chunk agree up to white space, and altogether as soon as their lengths agree |
| ChunkerProperties.Chunking | backend/src/embedding/chunker.ts:189-242 | for every chain of units and all sizes: chunks are bounded, ordered, overlap by at most the overlap and cover all ink; a chunk ends only where the first unit beyond it would make its text too long or white space was dropped, and the next one holds that unit and reaches back as far as overlap and target allow; and the texts are the spans exactly when no chunk is opened over dropped white space |
| ChunkerProperties.ExactWhenNothingDropped | backend/src/embedding/chunker.ts:105-122 | if the splitter drops nothing, every chunk's text is its span |
| ChunkerProperties.GapPossible | backend/src/embedding/chunker.ts:212-230 | for every target of at least four code units: some text has a chunk that is not its span exactly when there is an overlap |
| ChunkerProperties.DroppedYetExact | backend/src/embedding/chunker.ts:105-122 | for all sizes some text has a dropped piece although every chunk's text is its span |
| EmbeddingRows.ChangedIndices | backend/src/embedding/worker.ts:186-202 | the loop collects exactly the chunks that need a fresh vector |
| EmbeddingRows.WithNeighbours | backend/src/embedding/worker.ts:208-213 | the loop adds exactly the direct neighbours within the document |
| EmbeddingRows.ComputeRows | backend/src/embedding/worker.ts:225-265 | the rows take over a stored vector exactly where neither the chunk nor a neighbour changed |
| EmbeddingRows.IncrementalIsFull | backend/src/embedding/incremental.ts:16-39 | if stored valid vectors are the provider's, the rows written with reuse equal those of a full embedding |
| EmbeddingRows.RefreshedExactly | backend/src/embedding/incremental.ts:16-39 | after a full embedding, a chunk of the edited document needs a fresh vector exactly when it is new at its place or has another text or model there |
| EmbeddingRows.ReusedIsUsable | backend/src/embedding/incremental.ts:16-39 | what is not embedded afresh has a stored vector of the same text, model and profile that is valid, finite and not zero |
| EmbeddingRows.AcceptedIsValid | backend/src/embedding/validation.ts:15-28 | an accepted vector has 1024 finite components and a norm above 1e-9, and is stored as valid |
| EmbeddingRows.SumMeans | backend/src/embedding/validation.ts:15-28 | the sum of squares is positive exactly when some component is not zero, and no smaller than the square of any component |
| EmbeddingGenerations.ActiveIsSearchable | backend/src/embedding/searchable-generation.ts:12-24 | in every run the rows of an active generation are all searchable and those of a full embedding of its chunks; there are none exactly when the pipeline activated it for a document without chunks |
| EmbeddingGenerations.FetchMeans | backend/src/embedding/worker.ts:158-178 | a worker compares with the rows of the generation that was active when it read the document |
| EmbeddingGenerations.CompleteEmptyMeans | backend/src/queue/adapters.ts:665-720 | a pending generation without chunks becomes active unless it was cancelled, and then no rows are left |
| EmbeddingGenerations.ActivateMeans | backend/src/embedding/generation.ts:82-194 | each of the five outcomes of an activation, exactly in its case: only the pending generation that is not cancelled, with the expected number of valid rows of one expected model and profile, becomes active, and then all other rows are gone |
| EmbeddingGenerations.OneProfileMeans | backend/src/embedding/worker.ts:130-142 | a document is embedded only if any two of its chunks agree in profile, model and dimensions |
| EmbeddingGenerations.ActivationExactly | backend/src/embedding/generation.ts:82-194 | a worker that has inserted its rows can activate them exactly while its generation is pending and not cancelled; count, validity and profile never stop it |
| EmbeddingGenerations.SupersededForGood | backend/src/embedding/generation.ts:59-76 | a generation that has lost its place never becomes active |
| EmbeddingGenerations.SupersededWorkerIsHarmless | backend/src/embedding/generation.ts:197-235 | nothing that the worker of a superseded generation does changes the active or pending generation, the profile or the active rows; the status changes exactly when the worker does not know of its generation |
| EmbeddingGenerations.FailedThoughReady | backend/src/embedding/worker.ts:323-333 | some run makes a document whose active generation is ready a failed one, by a worker whose generation has been superseded |
| EmbeddingGenerations.PermittedExactly | backend/src/embedding/generation.ts:36-51 | a write of the status respects the table exactly when it begins from another status than processing, marks stale from ready, or ends from processing; nothing else changes the status |
| EmbeddingGenerations.TableIsNotEnforced | backend/src/embedding/generation.ts:47-51 | every writer of the status breaks the table in some run |
| EmbeddingWorker.EmbeddingStore.ProcessDocument | backend/src/embedding/worker.ts:74-342 | when a document with chunks is reported as done, its generation has been active with the rows of a full embedding; when no call fails and others neither begin nor prepare another generation nor cancel this one, it is done, and the generation is active |
| EmbeddingWorker.EmbeddingStore.Build | backend/src/embedding/worker.ts:144-276 | success of all four transactions means an active generation with full rows, under any interference; without faults and competitors it succeeds; after a failure that could be recorded the worker holds nothing, and its generation is not pending or the document is failed |
| MetadataStaging.OneLiveRun | backend/src/lib/reembed.ts:684-719 | a document one of whose staged rows has a run is left with exactly one unfinished run, if it had any: the one requested last, by generation among equals, unchanged; the others are cancelled |
| MetadataStaging.StagedRuns | backend/src/lib/reembed.ts:640-683 | staging adds exactly the runs of staged rows whose document still has the owner, workspace and revision of the row, as the row says |
| MetadataStaging.OtherRunsKept | backend/src/lib/reembed.ts:713-719 | runs of documents none of whose staged rows has a run, and runs that were not live, do not change |
| MetadataStaging.SupersedeIs | backend/src/lib/reembed.ts:702-719 | comparing with the latest live run cancels the same runs as comparing with every live run |
| MetadataStaging.StageUnion | backend/src/lib/reembed.ts:586-748 | staging two pages one after the other gives the run table of staging their union, so order and page split do not matter |
| MetadataStaging.StageAgain | backend/src/lib/reembed.ts:655-683 | staging the same rows again after a crash leaves the run table unchanged |
| MetadataStaging.StaleUnion | backend/src/lib/reembed.ts:606-642 | the same documents are marked stale in one stage or in two |
| MetadataDrain.MetadataOutbox.LoadPage | backend/src/lib/reembed.ts:528-571 | the page holds the first rows behind the cursor, in key order |
| MetadataDrain.MetadataOutbox.Dispatch | backend/src/lib/reembed.ts:483-503 | the jobs handed over are exactly those of staged rows whose run is pending and that the queue takes, and a row is acknowledged exactly when its job was handed over or its run is not pending |
| MetadataDrain.MetadataOutbox.Drain | backend/src/lib/reembed.ts:466-526 | the drain terminates, visits every selected row once in key order while deleting, and counts each as completed or failed; the enqueued ones are the jobs that were taken; it deletes only rows of staged pages whose job was taken or whose run is no longer pending, and leaves a staged row only when the queue refused its job; it stages as if all pages were one; when staging, queue and acknowledgements work, every selected row is deleted and none has failed |
| PurgeSaga.RecordedIsPrefix | backend/src/lib/lifecycle-service.ts:279-345 | in every run the recorded steps are a beginning of the plan, exactly they have a count, and a completed operation has recorded the whole plan |
| PurgeSaga.TerminalStays | backend/src/lib/lifecycle-service.ts:244-277 | a completed or rejected operation never changes again |
| PurgeSaga.ProgressStays | backend/src/lib/lifecycle-service.ts:299-320 | no worker takes back what another has recorded |
| PurgeSaga.RecordFollowsActions | backend/src/lib/lifecycle-service.ts:323-345 | every recorded step has been carried out, and no action runs ahead of the first step that is not recorded |
| PurgeSaga.StaleWorkerStops | backend/src/lib/lifecycle-service.ts:335-343 | a worker that has lost the lease carries out at most one more action |
| PurgeSaga.StaleWorkerWritesNothing | backend/src/lib/lifecycle-service.ts:279-320 | in every continuation, nothing that a worker without the lease does changes the record |
| PurgeSaga.AcquireKeepsOthersOut | backend/src/lib/lifecycle-service.ts:244-277 | for 60 seconds after a worker has acquired the operation nobody else acquires it, and nothing that others do changes its record |
| PurgeSaga.AcquireLapses | backend/src/lib/lifecycle-service.ts:244-277 | when nothing else happens, another worker can acquire it once more than 60 seconds have passed |
| PurgeSaga.RecordedExactly | backend/src/lib/lifecycle-service.ts:279-321 | a step that has been carried out is recorded exactly while its worker has the lease and it has not run out |
| PurgeSaga.GivenUp | backend/src/lib/lifecycle-service.ts:1147-1175 | a worker with the lease that gives up ends the operation for good after a rejected fence, and leaves it to the next worker at once otherwise |
| PurgeSaga.FencedFirst | backend/src/lib/lifecycle-service.ts:540-562 | the fence is written before the first action of any worker |
| PurgeSaga.PlanIsDistinct | backend/src/lib/lifecycle-service.ts:205-212 | the plan names every step once when the host's identifiers are unique |
| PurgeWorker.PurgeService.RunStep | backend/src/lib/lifecycle-service.ts:323-345 | a step that is recorded is skipped and nothing happens; otherwise it is carried out and recorded, or the attempt ends |
| PurgeWorker.PurgeService.PurgeUserData | backend/src/lib/lifecycle-service.ts:519-1178 | a reported completion means a completed operation with the whole plan recorded and its counts; an attempt that finds the operation free completes it when no call fails and it is over within 60 seconds; within that time a rejected fence ends the operation for good, and any other failure that can be recorded leaves it to the next worker |
| FolderTopology.IsFolderDescendant | backend/src/lib/share-access.ts:11-37 | the walk decides whether the parent chain leads to the folder, with cycles and missing folders |
| FolderTopology.EffectiveFolderCategory | backend/src/lib/share-access.ts:269-280 | the walk finds the category of the nearest folder that has one, or that there is none, even on a cycle |
| FolderTopology.UpResultIsInherited | backend/src/lib/content-access.ts:54-78 | the recursive query up the chain, ordered by depth, gives exactly the inherited category |
| FolderTopology.DownIsUp | backend/src/lib/reembed.ts:139-151 | the propagation from the roots gives a folder a row exactly when its chain ends at a root, in the round of its depth, with the category that the upward lookup gives |
| FolderTopology.CategorySnapshot | backend/src/lib/reembed.ts:160-178 | a category change selects exactly the documents whose effective category it is, except those that inherit it over a chain that does not end at a root |
| FolderTopology.CategorySnapshotIsExact | backend/src/lib/content-access.ts:54-118 | in a forest without cycles in which parents exist, the selected documents are exactly those of the effective category |
| FolderTopology.FolderSnapshot | backend/src/lib/reembed.ts:120-136 | a folder change selects exactly the documents whose folder is the target or below it |
| ShareAccess.EffectiveCategoryOf | backend/src/lib/share-access.ts:105-130 | the walk for a document computes its own category or else the inherited one |
| ShareAccess.ShareTokenAccess | backend/src/lib/share-access.ts:58-135 | the answer is missing, expired, granted or no access, each exactly in its case |
| ShareAccess.FolderScope | backend/src/lib/share-access.ts:241-253 | the search with a stack terminates on every forest and finds exactly the folders at or below the target |
| ShareAccess.ResolveScope | backend/src/lib/share-access.ts:199-318 | the scope is absent exactly for missing and expired links, and otherwise holds exactly the documents of the link's first target |
| ShareAccess.GrantedIsInScope | backend/src/lib/share-access.ts:58-318 | for a link as the constraints of its table allow it (`packages/db/src/schema.ts:530-560`) and content of its creator, a document is granted exactly when it is in the scope |
| CredentialSave.Profile.Save | packages/dsh-plugin/index.js:1208-1236 | under any faults the changed credentials are all new or all old, or the key is gone, unless a rollback write and the removal both failed; the save succeeds exactly when it is not too late, no call fails and nobody disturbs it, one that is too late changes nothing, and the profile is blocked exactly when it fails |
| CredentialSave.Profile.SaveConnection | packages/dsh-plugin/index.js:1159-1239 | the same for the whole save, which invalidates older saves first and succeeds exactly when no call fails and nobody disturbs it |
| CredentialSave.Profile.Rollback | packages/dsh-plugin/index.js:1222-1229 | restoring goes on after a failure, touches nothing else, reports a failure exactly when a write failed, and has restored everything otherwise |
| CredentialSave.Profile.ResolveKey | packages/dsh-plugin/index.js:199-281 | the key of the configuration comes before the stored one and that before the inherited one, a failing store counts as empty, and while the profile is blocked no connection carries a key |
| CredentialSave.Serve | packages/dsh-plugin/index.js:65-70 | in every sequence of saves and resolutions, a connection resolved after a failed save and before the next successful one carries no key |
| CredentialSave.BlockedUntilSaved | packages/dsh-plugin/index.js:1204-1219 | after a failed save the profile stays blocked until a save succeeds |
| AttachmentUrls.Rewrite | backend/src/lib/duplicate-attachments.ts:43-56 | the loop performs the replacements of the table one after the other |
| AttachmentUrls.NoOverlap | backend/src/lib/duplicate-attachments.ts:45-46 | inside an attachment URL no attachment URL can begin |
| AttachmentUrls.TableMeans | backend/src/lib/duplicate-attachments.ts:43-48 | the table has one entry for each source, and it is the target of the last plan for it |
| AttachmentUrls.RewriteFollows | backend/src/lib/duplicate-attachments.ts:43-56 | the replacements rename the URLs of a text and change nothing else |
| AttachmentUrls.SequentialIsSimultaneous | backend/src/lib/duplicate-attachments.ts:43-56 | replacing one after the other is one simultaneous substitution on every text exactly when no target in the table is the source of a later entry that changes it |
| AttachmentUrls.HandedOnExample | backend/src/lib/duplicate-attachments.ts:50-56 | with the plans a to b and b to c, a link to a becomes one to c |
| AttachmentUrls.RepeatedSourceExample | backend/src/lib/duplicate-attachments.ts:43-48 | of two plans for one source the last one counts, and nothing is handed on between them |
| AttachmentUrls.InverseUndoes | backend/src/lib/duplicate-attachments.ts:39-66 | with fresh identifiers the inverse plan restores a text exactly when no target occurred in it |
| AttachmentUrls.TreeUndone | backend/src/lib/duplicate-attachments.ts:49-65 | rewriting keeps the shape of the tree, and the inverse plan restores it exactly when no target occurred in it |
| AttachmentUrls.TreeIsSimultaneous | backend/src/lib/duplicate-attachments.ts:49-65 | unless an identifier is handed on, every string of the tree is substituted at once |
| JobGraph.JobSearch.ReachesJob | scripts/release-workflow-contract.ts:458-472 | the search with one shared set terminates on every graph and returns true exactly when a chain of needs leads to the target |

## Left out

* PostgreSQL itself: row-level security, isolation levels, drivers, advisory locks; a transaction is one event.
* The in-process upload route with its `uncommitted_upload` intents and the storage write hold.
* The presign and confirm routes as programs: their transactions and calls are events that occur in the order the code allows.
* Sizes, owners, actors and filters of attachment rows, and the object list of a batch delete beyond one request per key.
* The chunk hash in the chunk result, and the configured ranges of the chunk sizes, which the theorems do not need.
* Transactions of the drain and the sweep that take effect but lose their answer.
* The batches of the queue pipeline for documents with chunks; its activation of a document without chunks is modelled.
* The embedding context hash, metrics, entity extraction and retry delays.
* Locks and time stamps of the staging transaction; queue workers that change runs while the outbox is drained.
* What the steps of the purge do, the export of user data, and the writes of the purge fence beyond its lease check.
* Termination of the recursive queries on folders with cycles, which the database does not guarantee; the model takes the union of their rounds.
* Row-level ownership of folders in the upward walk: the walk sees every folder, the scope only those of the creator.
* The endpoint, mode and workspace of a connection, the trimming of values and the parsing of panel parameters; the key is resolved as in the program.
* `$` patterns in replacements and JSON numbers, booleans and null beyond being kept.
* OAuth, MCP transport, HTTP, the dashboard, secret scans and schema validators.
