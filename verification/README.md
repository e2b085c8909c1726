# Publish-job verification

A Dafny model of how a campaign post becomes one remote post per target, and proofs about
it. The rows of `social_publish_jobs` are changed by several workers, by the editorial API,
by the outbox dispatcher and by a database trigger; workers stall, crash and act on stale
snapshots; leases expire and nothing fences a worker that outlived its lease; the provider
may accept a write whose answer never arrives. The question is what stays true.

`dafny verify dfyconfig.toml` checks everything.

## How it is built

- `Schema`, `PostEntity`: the tables as one value `Db`, the CHECK constraints of the job rows,
  the outbox trigger, and the class `Database` with one field a table.
- `PostRepository`, `PublishOutboxRepository`: the repositories as classes over `Database`.
  Every SQL statement or transaction has a function on `Db`, and the method that executes it
  is proved to leave the tables the function says. `PostRefinement` compares the Postgres
  repository with the in-memory reference; `EditContract` says in a few words what an
  editorial transaction does.
- `PostService`, `EditorialService`: the editorial commands. `PublishingService`,
  `RetryPolicy`: the values a worker computes.
- `PublishProtocol`: the state machine. A `State` holds the clock, the tables, every worker
  (phase, local `job`, lease), every provider call, the dispatchers and the queue; an `Event`
  is one statement of one party. `IsRun(s, run)` says each event is allowed when it
  happens; `Init` is the empty database. A theorem about runs holds for every interleaving.
  An edit is any change that meets `EditContract`; in `GenuineRuns` it is a transaction of
  the repository. What is shown to happen is shown for genuine runs.
- `ProtocolInvariant`, `WorkerSteps`, `EditorialSteps`, `CreateAndDispatch`, `ProtocolSafety`:
  an invariant of every run, with no timing assumption. `PublishGuarantees`,
  `ApprovedContent`: what it means. `StepFacts` sums every step up in a few words, from which
  the invariants below are proved.
- `AtMostOnce`, `LeaseTiming`, `DoublePosts`, `CancelSafety`, `SendTimes`, `SendBudget`: at most
  one remote post, exactly when, and what follows for cancelling and rescheduling.
- `Scenes`, `Stories`, `BrokenRules`: complete runs from the empty database that break a rule,
  told chapter by chapter.
- `WorkerProgress`, `PublishWorker`: `process` terminates, and the imperative program is a run.
- `CallResults`, `CommandResults`, `CursorText`: what a call of `process` leaves, what an editorial
  command does, and what a cursor's text is, column by column and character by character; the
  programs are proved against these words.
- `Deliveries`: what the queue's deliveries do for a job.
- `RawMetrics`, `CursorCodec` with `Numerals`, `Templates`, `Base64Url` and `IsoDate`: paging by
  keyset and the text of its cursor.
- `FailureAlerts`, `AlertDelivery`: the delivery of final-failure alerts, alone and together with
  publishing.
- `PublishingQueue`, `TextFormatting`, `SqlOrder`: the smaller cores.

## What came out

- **At most one post.** On a platform without idempotent publish it holds in every run in
  which `markRemoteRequesting` starts a new write only while no other request of the job is
  pending (`AtMostOnce.AtMostOnePost`); a NULL `remote_request_key` is the sign of it the guard
  could test (`NullKeysMeanOnePost`). The guard also accepts an equal key, and the key is the
  same for every attempt of a job, so the program alone does not ensure this:
  `BrokenRules.LateMarkPostsTwice` is a complete run, with the default lease, in which a worker
  that stalled between claim and mark posts a second time. The condition is exact: from every
  state in which a job without a request key has no request pending and any other at most one,
  a new write can be followed by two posts if and only if another request is pending
  (`DoublePosts.NewWriteCanDoubleExactly`).
- **Marking in time is not enough.** One would expect it to suffice that a worker marks before
  its own lease expires. `BrokenRules.LateFailurePostsTwice` is a run in which every mark is
  well in time and the job is still posted twice, because a definite failure was saved late:
  it clears the key while another worker is about to record the fourth ambiguous failure,
  that deferral ends in `failed`, the user retries, and two unexpired claims of a row without
  a key exist. If both statements come in time, the job is posted at most once
  (`LeaseTiming.TimelyWorkersPublishAtMostOnce`); everything else may be arbitrarily late.
- **Cancel.** Without idempotent publish a cancelled job is never posted, after clean runs. With
  it, it can be, even if nothing is late (`BrokenRules.CancelledJobIsPosted`): a request that got
  no answer is repeated, the repetition is refused, and saving that clears the key while the
  first call may still be accepted. In general a cancelled job can still be posted if and only
  if a request of it is open when the cancel succeeds (`CancelSafety.CancelledJobCanBePosted`).
  None is open if, in addition to the two timely statements, a definite failure is saved only
  when it did not answer a request repeated over an existing key
  (`CancelSafety.CancelIsSafeAfterCarefulRun`, for every platform). No adapter of the repository
  sets `supportsIdempotentPublish`; the interface and `canSafelyRepeatRemoteRequest` provide for it
  (backend/src/publishing/publishing.service.ts:73-75).
- **Sending on time.** The worker's copy of a row is always due, but the row may have been
  rescheduled since. Under the conditions above it has not. With idempotent publish the same
  refusal of a repeated request lets the user retry and reschedule under a worker that is
  about to send (`BrokenRules.JobIsSentBeforeItsTime`); a rescheduled job can be sent early if and
  only if there is such a worker (`SendTimes.ScheduledJobCanBeSentEarly`).
- **Deliveries.** Database and queue keep separate delays for a failed attempt. Deliveries that
  follow one another undisturbed never come too early, and four of them suffice
  (`Deliveries.AttemptsSuffice`). After a crash one may: it finds an unexpired lease, `process`
  reports null, and BullMQ counts the job as done. A row left without a delivery in this way is
  stuck: cancel, schedule and retry refuse it, and the outbox does not hand it over again
  (`Deliveries.StrandedStays`, `Deliveries.CrashCanStrandAJob`).
- **The database refuses one write only**: claims and marks never, and of the writes that end
  an attempt only a pending deferral over a row whose key was cleared meanwhile, which violates
  the CHECK of migration 013 and is rolled back (`PublishGuarantees.OnlyStaleDeferralsAreRefused`).
- **Raw metrics** are paged by a cursor in milliseconds over a column in microseconds. Paging
  lists everything for every page size exactly if the snapshots are far enough apart for
  that (`RawMetrics.PagingIsExact`); whole milliseconds, which the collector writes, are. The
  cursor's text is read back as the cursor it was written from (`CursorCodec.DecodeOfEncode`).

## Assumptions

- A definite (4xx) answer means the provider did not and will not accept the write, and a
  lookup reports only posts that exist. Both are guards of events in `PublishProtocol.Enabled`.
- A provider never gives two jobs one post id: a remote post is named by the call that made it.
- One clock that never runs backwards; each SQL statement or transaction is atomic; BullMQ
  keeps one job an id and may deliver it any number of times; `gen_random_uuid()` and
  `randomUUID()` never repeat (`nextQueueId`, fresh ids).
- `UPDATE ... RETURNING` hands back the rows in the order of the candidates; only the order of a
  batch depends on it, not which rows are in it.
- A provider with idempotent publish answers a known key with the post it already has.

## Where code and documentation differ

The model follows the code. `docs/data-model.md` describes a manual retry as moving to
`retrying` and increasing the retry count; the code sets `waiting` and zero.
`docs/publishing-queue.md` describes a deterministic BullMQ job id; migration 014 appends a fresh
UUID. A job that fails again after a manual retry raises no second alert, because its alert row
already exists.

## Model

| member | source | states |
|---|---|---|
| RetryPolicy.RetryDelayForFailure | backend/src/publishing/publish-retry.policy.ts:7-11 | 30, 120 and 600 s after the first, second and third failure, and no delay otherwise |
| RetryPolicy.RetryDelayForBullMq | backend/src/publishing/publish-retry.policy.ts:13-15 | the same delays by attempts made, with the first for fewer and the last for more |
| RetryPolicy.ClassifyPublishFailure | backend/src/publishing/publish-failure.ts:20-30 | the code for each status and kind of error, both ways; unambiguous exactly for 4xx answers; retried without ambiguity exactly for 429; whatever is ambiguous is retryable |
| TextFormatting.CompactRespectsLimit | backend/src/publishing/formatters/text-formatting.ts:7-11 | the result is within the limit exactly if the limit is at least 2 or nothing is cut; it is the trimmed text, or a right-trimmed non-empty prefix of it plus the ellipsis |
| TextFormatting.CompactIsIdempotent | backend/src/publishing/formatters/text-formatting.ts:7-11 | for limits of at least 2, compacting twice is compacting once |
| TextFormatting.JoinNonEmpty | backend/src/publishing/formatters/text-formatting.ts:3-5 | the length of the joined text, its prefix, and when it is empty |
| TextFormatting.GateIgnoresMissingBodies | backend/src/posts/post.service.ts:82-88 | a missing `platformBodies` and an empty one pass the gate alike, on every platform with a gate |
| TextFormatting.XTextFits | backend/src/publishing/formatters/x-content.formatter.ts:8-11 | formatter and adapter together: the text sent to X has at most 280 code points exactly in the listed cases, in particular for every link of at most 277 |
| TextFormatting.BodyIsSentUnchanged | backend/src/publishing/adapters/x.adapter.ts:142-147 | the trim of the adapter never changes what the formatter produced |
| TextFormatting.BodyIsWritten | backend/src/publishing/formatters/text-formatting.ts:3-11 | what each formatter makes of title and message, or of a body written for the platform: whole for LinkedIn and Facebook, the message for Threads, and whole for X while it fits beside the link; else a beginning and an ellipsis |
| TextFormatting.TextIsSent | backend/src/publishing/adapters/x.adapter.ts:142-147 | Threads and X send the body and then the link on a line of its own; nothing of neither is refused, but for X with media |
| TextFormatting.GateExactly | backend/src/posts/post.service.ts:85-88 | the limits 3000, 10000, 500 and 280; Threads counts the link, X counts 24 for it and characters outside ASCII twice |
| TextFormatting.ThreadsGateIsExact | backend/src/publishing/adapters/threads.adapter.ts:108-113 | what passes the preview gate is sent to Threads with at most 500 code points, link included; what has body text and does not pass would be longer |
| PostService.SummaryIgnoresOrder | backend/src/posts/post.service.ts:23-31 | the aggregate status depends on the multiset of jobs only and is never draft for a post with jobs |
| PostService.SummaryExactly | backend/src/posts/post.service.ts:23-31 | when each of the six statuses is shown |
| PostService.PresentedExactly | backend/src/posts/post.service.ts:79 | a post is shown as a draft exactly while it is one; otherwise it is shown with the status its jobs tell, and nothing else changes |
| PostService.PushNew | backend/src/posts/post.service.ts:88-94 | the findings so far and the new ones, each once |
| PostService.Issues | backend/src/posts/post.service.ts:80-95 | the loop reports each finding once, exactly those that hold of some target by platform, text and number of media, and nothing exactly when every target is publishable |
| PostService.FindingsExactly | backend/src/posts/post.service.ts:85-92 | what each finding means |
| Schema.Database.Commit | backend/src/posts/pg-post.repository.ts:36 | the tables become those the transaction computed |
| PostRepository.PgPostRepository.FindOwned | backend/src/posts/pg-post.repository.ts:57-63 | the stored record of an owned post, or NotFound |
| PostRepository.PgPostRepository.Save | backend/src/posts/pg-post.repository.ts:12-23 | the tables after the INSERTs of a new post and its jobs, trigger included; CreateAndDispatch.DraftReadsBack says which rows these are |
| CreateAndDispatch.DraftReadsBack | backend/src/posts/pg-post.repository.ts:12-23 | a new draft is stored column by column as it was given, and read back as given: the post but for a missing `platformBodies`, its media in order, and its jobs once each by id |
| PostRepository.PgPostRepository.Mutate | backend/src/posts/pg-post.repository.ts:35-56 | the transaction is `PgMutate`: a failure at any point leaves the tables alone, a success stores what the callback returned |
| PostRepository.UpdateChangedJobs | backend/src/posts/pg-post.repository.ts:44-49 | the loop updates changed jobs only and fails exactly if a written row violates a CHECK |
| PostRepository.RewriteMedia | backend/src/posts/pg-post.repository.ts:64-67 | one row a position, holding the media in order |
| PostRepository.InsertMissingOutboxRows | backend/src/posts/pg-post.repository.ts:50-52 | row by row: a listed waiting job without an outbox row gets a fresh one under a new id, every other row and every other table stays |
| PostRepository.InMemoryPostRepository.Mutate | backend/src/posts/post.repository.ts:23-27 | the reference: the record of the callback, one revision later, under its id |
| PostRefinement.ReadAfterWrite | backend/src/posts/pg-post.repository.ts:35-67 | reading after the column-wise, positional writes gives the record the callback returned |
| PostRefinement.JobsAfterWrite | backend/src/posts/pg-post.repository.ts:41-52 | every job row holds what the callback returned, and its outbox row follows by the trigger and the extra INSERT |
| PostRefinement.WriteTouchesOnly | backend/src/posts/pg-post.repository.ts:41-52 | rows of other posts, alerts and social posts stay as they are |
| PostRefinement.WriteKeepsShape | backend/src/posts/pg-post.repository.ts:41-52 | keys, foreign keys and the uniqueness of queue ids survive a transaction |
| PostRefinement.ApplyIgnoresRepresentation | backend/src/posts/post.service.ts:34-73 | every command treats records alike that differ only in job order or a missing `platformBodies` |
| PostRefinement.CommandsPassChecks | backend/src/posts/post.service.ts:46-73 | no command makes a row violate a CHECK |
| EditContract.MutateIsEdit | backend/src/posts/pg-post.repository.ts:35-56 | every successful transaction of a command does to each row, to the outbox and to the post, column by column, what the contract of edits says, and touches nothing of other posts |
| PostRefinement.PgRefinesReference | backend/src/posts/pg-post.repository.ts:35-67 | main result: for every command, the Postgres repository succeeds and fails as the in-memory reference does, and what is read back is the same record up to job order and a missing `platformBodies` |
| EditorialService.PostEditor.NewJobs | backend/src/posts/post.service.ts:18-20 | one new job a target, in order, with all its columns |
| EditorialService.PostEditor.Create | backend/src/posts/post.service.ts:12-22 | refused exactly, and with its own error, for blank content, missing or repeated targets, a bad media URL, a foreign campaign or unusable accounts; otherwise the Create step of the protocol, stored and read back as given |
| EditorialService.PostEditor.Execute | backend/src/posts/post.service.ts:34-73 | a refused command changes nothing; in the caller's terms, when each command succeeds, the error of each refusal, what becomes of the post and of each job, and that the same is read back; it succeeds exactly if the protocol allows an Edit step that is this transaction, and is that step |
| CommandResults.AcceptedExactly | backend/src/posts/post.service.ts:34-73 | when each command is accepted |
| CommandResults.RefusedExactly | backend/src/posts/post.service.ts:34-73 | which error each refusal has |
| CommandResults.AcceptedIsEdited | backend/src/posts/post.service.ts:34-73 | what an accepted command makes of the post and of each job, column by column |
| PublishOutboxRepository.PgPublishOutboxRepository.Claim | backend/src/publishing/pg-publish-outbox.repository.ts:64-100 | the claim as a guarded update: null and no change unless the WHERE clause holds |
| PublishOutboxRepository.PgPublishOutboxRepository.Mark | backend/src/publishing/pg-publish-outbox.repository.ts:102-116 | the mark, which also lets an equal key pass and keeps an existing key |
| PublishOutboxRepository.PgPublishOutboxRepository.Confirm | backend/src/publishing/pg-publish-outbox.repository.ts:118-131 | the confirmation of a remote_requesting row |
| PublishOutboxRepository.PgPublishOutboxRepository.RecordAmbiguous | backend/src/publishing/pg-publish-outbox.repository.ts:133-152 | the deferral, its alert when it is final, or a rollback |
| PublishOutboxRepository.PgPublishOutboxRepository.SaveOk | backend/src/publishing/pg-publish-outbox.repository.ts:154-192 | published with its social post, or a rollback when the unique index objects |
| PublishOutboxRepository.PgPublishOutboxRepository.SaveFailed | backend/src/publishing/pg-publish-outbox.repository.ts:193-211 | the definite failure, which clears the request key |
| PublishOutboxRepository.PgPublishOutboxRepository.StoreFailure | backend/src/publishing/pg-publish-outbox.repository.ts:221-239 | UPDATE and alert of a failure; a second failure keeps the first alert |
| PublishOutboxRepository.PgPublishOutboxRepository.ClaimOutbox | backend/src/publishing/pg-publish-outbox.repository.ts:14-44 | the due rows scheduled earliest, by time and then job id, get a dispatch lease and one attempt more; a due row is left out only at the limit and comes after them; all others stay |
| PublishOutboxRepository.PgPublishOutboxRepository.MarkEnqueued | backend/src/publishing/pg-publish-outbox.repository.ts:46-53 | marks the row only under the queue id of the record |
| PublishOutboxRepository.PgPublishOutboxRepository.Release | backend/src/publishing/pg-publish-outbox.repository.ts:55-62 | releases the row only under the queue id of the record |
| PublishOutboxRepository.ClaimIsDistinct | backend/src/publishing/pg-publish-outbox.repository.ts:19-27 | no job is claimed twice in one batch |
| SqlOrder.FirstOfIsPage | backend/src/publishing/pg-publish-outbox.repository.ts:20-26 | ORDER BY and LIMIT select the first rows, in order, each once |
| ProtocolSafety.InitHasInv | backend/migrations/013_publish_remote_reconciliation.sql:18-24 | the empty database satisfies the protocol invariant |
| ProtocolSafety.StepKeepsInv | backend/src/publishing/publish-worker.processor.ts:25-91 | every step of every party keeps it: rows, outbox, alerts, posts, workers, calls, hand-off |
| ProtocolSafety.RunKeepsInv | backend/src/publishing/publish-worker.processor.ts:25-91 | so does every run |
| ProtocolSafety.RunEvolves | backend/src/publishing/pg-publish-outbox.repository.ts:118-192 | over every run: jobs keep their target, successes their remote id, published and cancelled rows everything; alerts and social posts stay; queue ids are never reused |
| ProtocolSafety.StatementTouchesOneRow | backend/src/publishing/pg-publish-outbox.repository.ts:64-211 | a worker statement changes one row, its alert and its social post |
| EditorialSteps.EditKeepsInv | backend/src/posts/post.service.ts:34-73 | an editorial transaction keeps the invariant and lets the tables only grow |
| EditorialSteps.EditedRowEdits | backend/src/posts/post.service.ts:34-73 | the four things a command may do to a job, and the status of the post that goes with each |
| CreateAndDispatch.CreateKeepsInv | backend/src/posts/pg-post.repository.ts:12-23 | creating a draft keeps the invariant and queues nothing |
| CreateAndDispatch.DispatchKeepsInv | backend/src/publishing/publishing.queue.ts:18-35 | dispatch steps keep the invariant and touch dispatch columns only |
| WorkerSteps.RemotePostIsFree | backend/src/publishing/pg-publish-outbox.repository.ts:170-178 | as no provider gives two jobs one post id, the unique index of social_posts is never hit |
| PublishGuarantees.NoStuckRow | backend/src/publishing/pg-publish-outbox.repository.ts:72-78 | in every reachable state the claim of a job of a non-draft post, with its current queue id, matches and passes every CHECK from its wake-up time on, exactly unless it is published, failed or cancelled |
| PublishGuarantees.OutboxAgreement | backend/migrations/014_editorial_workflow.sql:6-27 | an outbox row exists exactly for the non-cancelled jobs of non-draft posts, with the time of the job |
| PublishGuarantees.SupersededIdNeverClaims | backend/src/publishing/pg-publish-outbox.repository.ts:75 | an id that is not the current one of a job never claims it again |
| PublishGuarantees.NoLostHandOff | backend/src/publishing/publishing.queue.ts:18-35 | enqueued_at set means the queue has the current id; ids are unshared; a row not enqueued becomes dispatchable |
| PublishGuarantees.RetryBudget | backend/src/publishing/publish-retry.policy.ts:4-19 | retryCount is at most 4, at most 3 on a live row, 1 to 4 on a failed row and its alert, however stale the writers |
| PublishGuarantees.FailuresAreAlwaysRecorded | backend/src/publishing/publish-worker.processor.ts:64-66 | retryDelayForFailure never throws: a worker that hits a failure always reaches the statement that records it |
| PublishGuarantees.ClaimAndMarkAreNeverRefused | backend/src/publishing/pg-publish-outbox.repository.ts:64-116 | no CHECK ever refuses a claim, of whatever job and lease, or a mark |
| PublishGuarantees.OnlyStaleDeferralsAreRefused | backend/src/publishing/publish-worker.processor.ts:73-91 | of the writes that end an attempt the database refuses one exactly if it is a pending deferral over a row that lost its key |
| PublishGuarantees.SuccessIsFinal | backend/src/publishing/pg-publish-outbox.repository.ts:118-192 | a remote id is never rewritten, its row can only become published, and its one social post names a post the provider holds |
| PublishGuarantees.RemotePostsAreUnique | backend/migrations/011_postgresql_canonical_social_model.sql:64 | in every run two rows of `social_posts` never name one remote post |
| PublishGuarantees.DuplicateIsRefused | backend/src/publishing/pg-publish-outbox.repository.ts:154-192 | saving a success whose remote post another row names is rolled back |
| PublishGuarantees.AlertsAreNeverLost | backend/src/publishing/pg-publish-outbox.repository.ts:225-231 | a failed job has its alert, and no event of publishing changes it, through retries and later failures |
| AlertDelivery.SystemRunIsAlertRun | backend/src/publishing/failure-alert.service.ts:14-47 | publishing and delivery interleaved over one table of alerts: every such run keeps the protocol invariant and is, for the alerts, a run of the delivery |
| AlertDelivery.AlertsStay | backend/src/publishing/pg-publish-outbox.repository.ts:225-231 | in every interleaved run a failed job has an alert and keeps it; only its delivery columns change, and none once it is delivered |
| AlertDelivery.FailuresAreReported | backend/src/publishing/failure-alert.service.ts:14-47 | main result: in every interleaved run from the empty database each failed job has an alert, due from its wake-up time on exactly unless delivered, and acknowledged by the webhook if delivered |
| PublishGuarantees.WorkersAreIsolated | backend/src/publishing/publishing.service.ts:22 | a worker statement changes nothing of any other job and no post |
| PublishGuarantees.FrozenPostStays | backend/src/posts/post.service.ts:58-65 | a post whose jobs are all published or cancelled keeps exactly these jobs for ever |
| PublishGuarantees.DisplayedEndIsFinal | backend/src/posts/post.service.ts:79 | the displayed `completed` and `cancelled` are absorbing over all runs |
| ApprovedContent.RevisionCountsEdits | backend/src/posts/pg-post.repository.ts:41-42 | over every run the revision grows by one for each successful command and by nothing else; content outside draft is frozen |
| ApprovedContent.RevisionsAreConsumedOnce | backend/src/posts/post.service.ts:78 | of two successful commands on a post the later one names a higher revision, by one more than the commands in between |
| ApprovedContent.ScheduleApprovesWhatIsStored | backend/src/posts/post.service.ts:46-56 | schedule succeeds only for the stored revision and approves the stored content |
| ApprovedContent.SendsWhatWasApproved | backend/src/publishing/publish-worker.processor.ts:50-51 | in every run a provider call carries the content approved last, which is the content stored now, for a post that is no draft; the time in the worker's copy of the row has come |
| ApprovedContent.ThreadsTextsFit | backend/src/posts/post.service.ts:80-95 | every text that reaches Threads in any run has at most 500 code points |
| SendTimes.CleanSendIsDue | backend/src/publishing/pg-publish-outbox.repository.ts:73 | without idempotent publish, after a clean run, a call is sent at or after the time in the row |
| SendTimes.CarefulSendIsDue | backend/src/publishing/pg-publish-outbox.repository.ts:73 | on any platform so is every call after a careful run |
| SendTimes.DueUnlessRescheduled | backend/src/posts/post.service.ts:46-73 | a row that was due, as at its claim, is due later exactly unless the last schedule or retry since then gave it a time that has not come |
| SendTimes.ScheduledJobCanBeSentEarly | backend/src/posts/post.service.ts:46-56 | main result: a job scheduled for later can be sent before that time, without another schedule or retry, if and only if a worker is about to send it when the schedule succeeds; then a genuine run does so, and otherwise no run does |
| BrokenRules.JobIsSentBeforeItsTime | backend/src/publishing/publish-worker.processor.ts:46-51 | a complete run, with idempotent publish and nothing late, to a send before the time in the row |
| AtMostOnce.StepKeepsToken | backend/src/publishing/publish-worker.processor.ts:25-71 | a NULL request key means nothing accepted, in flight, about to be sent or failed unsaved; otherwise there is at most one such thing; every step under the condition keeps this |
| AtMostOnce.AtMostOnePost | backend/src/publishing/pg-publish-outbox.repository.ts:102-116 | main result: in every run from the empty database in which a new write starts only while no other request of its job is pending, every job has at most one remote post |
| AtMostOnce.NullKeyMeansNothingPending | backend/src/publishing/pg-publish-outbox.repository.ts:108 | a NULL key, which the guard could test, shows that none is pending |
| AtMostOnce.NullKeysMeanOnePost | backend/src/publishing/pg-publish-outbox.repository.ts:102-116 | so it suffices that new writes start over a NULL key |
| AtMostOnce.CallsCarryOneKey | backend/src/publishing/publish-worker.processor.ts:46-50 | in every run, on every platform, all calls of a job carry one key, and its row holds that key or none |
| AtMostOnce.IdempotentAtMostOnePost | backend/src/publishing/publish-worker.processor.ts:46-50 | with idempotent publish a job has at most one remote post in every run |
| LeaseTiming.TimelyMarkFindsNullKey | backend/src/publishing/pg-publish-outbox.repository.ts:108 | a new write started within its lease finds its own claim, a NULL key, and nothing pending |
| LeaseTiming.StepKeepsExclusive | backend/src/publishing/publish-worker.processor.ts:25-91 | on any set of platforms, every step that keeps the three conditions keeps workers with live leases apart |
| LeaseTiming.CarefulRunFindsNullKeys | backend/src/publishing/publish-worker.processor.ts:50-67 | careful runs start every new write over a NULL key |
| LeaseTiming.TimelyWorkersPublishAtMostOnce | backend/src/publishing/publish-worker.processor.ts:25-91 | main result: if the mark of a new write and the save of a definite failure come within the lease, every job has at most one remote post and at most one call that was or may be accepted |
| DoublePosts.MarkKeepsTokenExactly | backend/src/publishing/pg-publish-outbox.repository.ts:102-110 | a mark keeps the token exactly if no other write of the job is pending |
| DoublePosts.NewWriteCanDoubleExactly | backend/src/publishing/pg-publish-outbox.repository.ts:108 | main result, the exact condition: from every state with the token, a new write can be followed by two posts, though every later new write finds a NULL key, if and only if another request of the job was accepted, is open, is about to be sent or failed unsaved |
| DoublePosts.NewWriteCanDoubleAmongCleanOnes | backend/src/publishing/pg-publish-outbox.repository.ts:108 | the same where later new writes start only while nothing is pending: then it is so if and only if another request was accepted, is open or is about to be sent |
| BrokenRules.LateMarkPostsTwice | backend/src/publishing/publish-worker.processor.ts:50-51 | a complete run with a late mark, and all else in time, that posts twice |
| BrokenRules.LateFailurePostsTwice | backend/src/publishing/publish-worker.processor.ts:64-67 | a complete run with a late save of a definite failure, and every mark in time, that posts twice |
| CancelSafety.CancelFreezes | backend/src/posts/post.service.ts:58-65 | after a successful cancel every job is published or cancelled |
| CancelSafety.SilenceStays | backend/src/posts/post.service.ts:58-65 | once a published or cancelled job has no open call and no worker about to send, no run ever starts or changes a call of it |
| CancelSafety.CancelledJobCanBePosted | backend/src/posts/post.service.ts:58-65 | main result, the exact condition on every platform: a job that cancel cancels can still be posted if and only if one of its calls was accepted or is open, or a worker is about to send one; then a genuine run posts it, and otherwise no run does |
| CancelSafety.CancelIsSafe | backend/src/posts/post.service.ts:58-65 | main result: without idempotent publish, if cancel succeeds after a clean run, no run that follows starts a call of the post or changes the outcome of one; cancelled jobs have no accepted or open call, published ones exactly the call they name |
| CancelSafety.CancelIsSafeAfterCarefulRun | backend/src/posts/post.service.ts:58-65 | main result: on any platform, after a careful run, a cancelled job is never posted |
| BrokenRules.CancelledJobIsPosted | backend/src/publishing/publish-worker.processor.ts:46-70 | a complete run, with idempotent publish and nothing late, to a cancelled job that is posted: the refusal of a repeated request clears the key |
| SendBudget.AtMostFourCallsBetweenRetries | backend/src/publishing/publish-retry.policy.ts:3-5 | at most four provider calls a job between manual retries where new writes find a NULL key, and no more than its failures while the key is NULL |
| WorkerProgress.OneCallMakesProgress | backend/src/publishing/publish-worker.processor.ts:25-91 | an undisturbed call takes at most seven steps after its claim and leaves the job published, failed, or with one failure more and a time to be claimed again; every CHECK holds |
| WorkerProgress.FourCallsSuffice | backend/src/publishing/publish-retry.policy.ts:3-5 | after four such calls at the latest the job is published or failed, whatever adapter and lookup answer |
| Deliveries.DelaysAlwaysAgree | backend/src/publishing/publish-retry.policy.ts:7-15 | in every run the time a failed attempt leaves in its row, or is about to, comes no later than BullMQ, with its own delay for as many attempts, would deliver again |
| Deliveries.DeliveryClaimsExactly | backend/src/publishing/pg-publish-outbox.repository.ts:69-84 | a delivery of the current queue id claims a live row exactly from its wake-up time on |
| Deliveries.AttemptsSuffice | backend/src/publishing/bullmq-publish.queue.ts:17-24 | main result: while undisturbed deliveries have neither published nor failed a fresh or manually retried job, BullMQ has an attempt left, and its next delivery claims the row |
| Deliveries.StrandedStays | backend/src/publishing/publish-worker.processor.ts:26-29 | main result: a row in flight that is handed over and that no worker works on stays exactly as it is in every run in which no delivery claims it: no command applies to it, and the outbox never hands it over again |
| Deliveries.StrandedIsClaimedExactly | backend/src/publishing/pg-publish-outbox.repository.ts:69-84 | a delivery of such a row claims it exactly from the end of the lease, or of the delay, on; an earlier one comes to nothing |
| Deliveries.CrashStrands | backend/src/publishing/publish-worker.processor.ts:25-29 | a worker that crashes after its claim leaves its row so |
| Deliveries.CrashCanStrandAJob | backend/src/publishing/publish-worker.processor.ts:25-29 | a complete run, with every statement in time, to such a row, which no delivery can claim for the next 30 s |
| PublishWorker.PublishWorkerProcessor.Process | backend/src/publishing/publish-worker.processor.ts:25-71 | the program is one call of the protocol, event by event; it reports null exactly if the claim matches no row; otherwise every column it leaves in the row, the social post and the alert, and what it reports, follow from the row and the answers as CallResults spells out |
| PublishWorker.PublishWorkerProcessor.Work | backend/src/publishing/publish-worker.processor.ts:30-71 | the branches after the claim, with everything they leave |
| PublishWorker.PublishWorkerProcessor.MarkAndPublish | backend/src/publishing/publish-worker.processor.ts:50-71 | mark, publish, and what follows the answer |
| PublishWorker.PublishWorkerProcessor.Conclude | backend/src/publishing/publish-worker.processor.ts:52-71 | success, ambiguous and definite failure |
| PublishWorker.PublishWorkerProcessor.PersistSuccess | backend/src/publishing/publish-worker.processor.ts:73-77 | confirm, then save: the job ends published with the result's columns and its social post |
| PublishWorker.PublishWorkerProcessor.DeferAmbiguousRemoteOutcome | backend/src/publishing/publish-worker.processor.ts:79-91 | one failure more, the key kept: deferred for 30, 120 or 600 s after at most two failures, else failed with an alert |
| PublishWorker.PublishWorkerProcessor.SaveDefiniteFailure | backend/src/publishing/publish-worker.processor.ts:64-70 | one failure more, the key cleared: retrying in 30, 120 or 600 s exactly for a 429 after at most two failures, else failed with an alert |
| PublishingService.PlanRetry | backend/src/publishing/publish-worker.processor.ts:65-66 | a pending retry is planned 30, 120 or 600 s ahead after the first, second and third failure; no delay exists otherwise; what is not pending is given up |
| PublishingQueue.PublishingQueue.HandleAll | backend/src/publishing/publishing.queue.ts:22-33 | the loop treats every record once and counts it once |
| PublishingQueue.PublishingQueue.DispatchPending | backend/src/publishing/publishing.queue.ts:18-35 | the due rows scheduled earliest are claimed; enqueued + failed is their number; a row is marked exactly if its id was added and the UPDATE went through, and is due again at once otherwise; what is marked is in the queue |
| FailureAlerts.AlertsAreDelivered | backend/src/publishing/failure-alert.service.ts:32-47 | with any number of overlapping dispatchers: an alert is due from its wake-up time exactly unless delivered, delivered means acknowledged, and elapsed time bounds the attempts |
| FailureAlerts.ClaimsAreALeaseApart | backend/src/publishing/failure-alert.service.ts:32-44 | any two claims of one alert are more than a lease apart, by whichever dispatchers and whatever happens in between |
| FailureAlerts.DeliveredIsFinal | backend/src/publishing/failure-alert.service.ts:45-46 | no alert is lost or rewritten, and a delivered one stays exactly as it is |
| FailureAlerts.FailureAlertService.DispatchPending | backend/src/publishing/failure-alert.service.ts:14-30 | nothing is claimed without a usable endpoint; otherwise the first alerts to be sent, at most 100, are counted once, each delivered for good or failed with the next delivery in five minutes |
| FailureAlerts.FailureAlertService.Claim | backend/src/publishing/failure-alert.service.ts:32-44 | the alerts to be sent that come first by next delivery, creation and job get a lease of 30 s and one attempt more |
| FailureAlerts.FailedIsDueAgain | backend/src/publishing/failure-alert.service.ts:46 | a failed delivery is due again exactly from five minutes later on |
| RawMetrics.PagingEqualsListing | backend/src/analytics/pg-analytics.repository.ts:154-186 | following nextCursor lists every snapshot of the platform asked for once, by falling time and id, ends, and is undisturbed by newer snapshots |
| RawMetrics.PageIs | backend/src/analytics/pg-analytics.repository.ts:173-178 | the page is the first `limit` candidates and has a cursor exactly if there are more |
| RawMetrics.PageExactly | backend/src/analytics/pg-analytics.repository.ts:163-187 | a page holds the newest snapshots of the platform asked for below the cursor, in order, and a cursor at its last one exactly if there are more |
| RawMetrics.PagingIsExact | backend/src/analytics/analytics.service.ts:101-107 | paging works for every page size exactly if rounding a cursor to milliseconds never passes an older snapshot |
| RawMetrics.WholeMillisecondsSeparate | backend/src/analytics/pg-analytics.repository.ts:61 | which holds for whole milliseconds |
| RawMetrics.OlderIsNeverShown | backend/migrations/011_postgresql_canonical_social_model.sql:81 | where the condition fails, a walk one by one says it has listed everything and never shows the older snapshot |
| RawMetrics.MicrosecondsCanBeSkipped | backend/migrations/011_postgresql_canonical_social_model.sql:81 | two snapshots within a millisecond of which the second is never shown, however many pages are asked for |
| RawMetrics.TextWalkIsWalk | backend/src/analytics/analytics.service.ts:101-122 | no cursor text the service hands out is refused, and following texts is following the cursors they stand for |
| RawMetrics.TextPagingEqualsListing | backend/src/analytics/analytics.service.ts:93-127 | main result for the API as it is: following nextCursor as text lists every snapshot of the platform asked for once, by falling time and id, and ends |
| CursorCodec.DecodeOfEncode | backend/src/analytics/analytics.service.ts:125-142 | main result: decodeCursor(encodeCursor(c)) is c for every time a Date can hold and every id that passes the UUID test |
| CursorCodec.DecodesExactly | backend/src/analytics/analytics.service.ts:129-142 | this model of decodeCursor reads a text as c exactly if c has such a time and id and the text is the base64url of its JSON object, hexadecimal letters in either case |
| CursorText.CursorIsWrittenAndRead | backend/src/analytics/analytics.service.ts:125-142 | for every time a Date can hold and every id the pattern matches, the text written is the base64url of the object spelled out, and it is read as the same cursor |
| CursorText.JsonIsWritten | backend/src/analytics/analytics.service.ts:126 | the object, its two keys, the time as YYYY-MM-DDTHH:mm:ss.sssZ with four digits or a sign and six for the year, and the id in its five groups |
| CursorText.UuidExactly | backend/src/analytics/analytics.service.ts:135 | which ids match the pattern: version 1 to 5, variant 8, 9, a or b |
| IsoDate.CivilTimeIsUnique | backend/src/analytics/analytics.service.ts:126-134 | the calendar of toISOString: every valid date and time of day is what its time value is turned into, and back |
| IsoDate.CalendarExactly | backend/src/analytics/analytics.service.ts:126 | day 0 is 1 January 1970, and each day is followed by the next one of the Gregorian calendar |
| IsoDate.TimeExactly | backend/src/analytics/analytics.service.ts:126 | the time of day in milliseconds |
| Base64Url.FromBase64UrlExactly | backend/src/analytics/analytics.service.ts:126-131 | a text is read as a byte string exactly if it is what that is written as |
| Base64Url.ThreeArePacked | backend/src/analytics/analytics.service.ts:126 | every three bytes are four times six bits from the left |
| Base64Url.AlphabetExactly | backend/src/analytics/analytics.service.ts:126 | the alphabet of table 2 of RFC 4648 |
| Templates.ParsesExactly | backend/src/analytics/analytics.service.ts:131-136 | a text of fixed form is read as these numbers exactly if, letter case in numbers aside, it is what they are written as |

## Left out

- HTTP clients, provider adapters beyond `postText`, credentials, OAuth and roles: I/O; a provider call is accepted, refused or unanswered.
- Redis and BullMQ internals, clock skew, row locks, and a failure of the database connection itself: see Assumptions.
- The mechanics of BullMQ: when it takes a job for stalled, and an attempt spent on a failing database, which counts there but not in `retry_count`. Deliveries says what a delivery does when it comes and what is left if none does.
- PublishWorkerProcessor.Process is proved for one undisturbed call; overlapping and crashing workers are the subject of the protocol's runs, whose events are its statements.
- SendBudget.AtMostFourCallsBetweenRetries: for platforms without idempotent publish; a provider that deduplicates may be called any number of times.
- The `remotePostId` branch of `reconcile` (backend/src/publishing/publishing.service.ts:55-67): not reachable from `process`, which looks up only rows without a remote id.
- PostService.Issues: the findings about an Instagram caption, its hashtags and the PNG rule are one input of schedule.
- Schema: the CHECKs on the length of title and body of a post are not modelled; the index behind `WHERE post_id = $1 ORDER BY id` and the fresh ids of the outbox are tables of the model; error texts count code points instead of UTF-16 units when they are cut.
- CursorCodec.DecodesExactly: the model reads the texts encodeCursor writes, hexadecimal letters in either case. `Buffer`, `JSON.parse` and `Date` also accept padding, white space, other key orders, other spellings of a date and the like; no such text comes from the service.
- The wording of findings and refusals, audit logs, `list`, `preview`, `duplicate`, media validation, heartbeats, the Kakao funnel, the X cost ledger: single statements with easy claims.
- RawMetrics.CampaignRawMetrics: the snapshots of one owned campaign; ownership, the parsing of platform and limit, and `numericRawMetrics` are not modelled.
- FailureAlerts: alerts are keyed by their job, which has at most one; the 10 s timeout of the request is one of its failures.
- Frontend, DTO validation, deployment, and migrations of legacy rows.
