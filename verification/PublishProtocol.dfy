/**
 * The publish-job protocol as a state machine: workers running
 * backend/src/publishing/publish-worker.processor.ts statement by statement, the outbox
 * dispatcher, the editorial API, and the provider, interleaved in any order.
 */
module PublishProtocol {
  import opened Wrappers
  import opened PostEntity
  import opened RetryPolicy
  import opened Schema
  import opened PostService
  import opened PostRepository
  import opened EditContract
  import opened PublishOutboxRepository
  import opened PublishingService

  type WorkerId = nat
  type DispatcherId = nat
  type CallId = nat

  // -------------------------------------------------------------- state

  // Where a worker stands in `process`. A worker that ended, threw or crashed is gone.
  datatype Phase =
    | Reconciling                                             // claimed with a request key: look the post up first
    | ReadyToMark                                             // about to run markRemoteRequesting and then publish
    | Remarking(found: PublishResult)                         // looked up and found: mark, then persist
    | Marked                                                  // marked, provider not called yet
    | AwaitingProvider(call: CallId)                          // adapter.publish is running
    | Rechecking(failure: PublishFailure)                     // ambiguous answer: look the post up
    | Confirming                                              // about to run confirmRemotePublication(job)
    | Finishing                                               // about to run saveExecution(ok)
    | Deferring(retryPending: bool, nextRetryAt: Option<Time>)  // about to run recordAmbiguousRemoteOutcome
    | Failing(retryPending: bool, nextRetryAt: Option<Time>)    // definite failure: about to run saveExecution

  // `job` is the local variable of `process`; leaseEnd is when the last lease it took expires.
  // repeats: the row it claimed already had a request key.
  datatype Worker = Worker(job: SocialPublishJob, post: Post, leaseEnd: Time, phase: Phase, repeats: bool)

  // A remote post is named by the call that created it.
  datatype CallState = InFlight | Refused | Accepted(remotePost: RemoteId)

  datatype ProviderCall = ProviderCall(jobId: JobId, platform: SocialPlatform, key: RequestKey, content: PostContent,
      sentAt: Time, state: CallState)

  datatype DispatchRecord = DispatchRecord(jobId: JobId, queueJobId: nat, added: bool)

  // History: what the last successful schedule approved.
  datatype Approval = Approval(revision: nat, content: PostContent)

  datatype State = State(
    now: Time,
    db: Db,
    workers: map<WorkerId, Worker>,
    calls: map<CallId, ProviderCall>,
    dispatchers: map<DispatcherId, DispatchRecord>,
    queue: set<nat>,                       // queue job ids BullMQ has accepted
    idempotent: set<SocialPlatform>,       // adapters with supportsIdempotentPublish
    approvals: map<PostId, Approval>,
    sends: map<JobId, nat>)                // provider calls since the last manual retry

  ghost predicate Init(s: State) {
    && s.db == EMPTY_DB && s.workers == map[] && s.calls == map[] && s.dispatchers == map[]
    && s.queue == {} && s.approvals == map[] && s.sends == map[]
  }

  function Sends(s: State, j: JobId): nat {
    if j in s.sends then s.sends[j] else 0
  }

  /** The provider holds remote post r, and it belongs to job j. */
  predicate IsPostOf(s: State, r: RemoteId, j: JobId) {
    r in s.calls && s.calls[r].jobId == j && s.calls[r].state == Accepted(r)
  }

  // -------------------------------------------------------------- events

  datatype Event =
    | Tick(to: Time)
    // worker
    | Claim(w: WorkerId, jobId: JobId, leaseMs: nat, queueJobId: Option<nat>)
    | FindPost(w: WorkerId, result: PublishResult)
    | MissPost(w: WorkerId)
    | Mark(w: WorkerId, leaseMs: nat)
    | Send(w: WorkerId, call: CallId)
    | FailLocally(w: WorkerId, error: ThrownError)
    | ReceiveSuccess(w: WorkerId, url: Option<string>, publishedAt: Time)
    | ReceiveFailure(w: WorkerId, error: ThrownError)
    | Confirm(w: WorkerId)
    | Finish(w: WorkerId)
    | Defer(w: WorkerId)
    | Fail(w: WorkerId)
    | Crash(w: WorkerId)
    // provider
    | Accept(call: CallId, remotePost: RemoteId)
    | Refuse(call: CallId)
    // editorial API
    | Create(post: Post, jobs: seq<SocialPublishJob>)
    | Edit(postId: PostId, ownerId: OwnerId, command: Command, after: Db)
    // outbox dispatcher
    | ClaimOutbox(d: DispatcherId, outboxJob: JobId, leaseMs: nat)
    | Enqueue(d: DispatcherId)
    | MarkEnqueued(d: DispatcherId)
    | Release(d: DispatcherId, message: string)
    | DispatcherCrash(d: DispatcherId)

  /** A job as `create` builds it. */
  predicate IsNewJob(job: SocialPublishJob, post: Post) {
    job == SocialPublishJob(job.id, post.id, job.platform, job.accountId, Waiting, post.scheduledAt,
                            None, None, None, None, None, 0, None, None, None, None)
  }

  predicate IsNewDraft(s: State, post: Post, jobs: seq<SocialPublishJob>) {
    && post.id !in s.db.posts && post.status == DraftPost && post.revision == 1 && |jobs| > 0
    && (forall i | 0 <= i < |jobs| :: IsNewJob(jobs[i], post) && jobs[i].id !in s.db.jobs)
    && (forall i, k | 0 <= i < k < |jobs| :: jobs[i].id != jobs[k].id)
  }

  predicate Owns(db: Db, ownerId: OwnerId, p: PostId) {
    p in db.posts && db.posts[p].ownerId == ownerId
  }

  predicate TimelyCommand(s: State, command: Command) {
    match command
    case Schedule(scheduledAt, requestedAt, _, _) => requestedAt <= s.now && requestedAt < scheduledAt
    case Retry(_, _, retriedAt) => retriedAt <= s.now
    case _ => true
  }

  predicate Deduplicates(s: State, call: CallId, remotePost: RemoteId)
    requires call in s.calls
  {
    && remotePost in s.calls && s.calls[remotePost].state == Accepted(remotePost)
    && s.calls[remotePost].platform == s.calls[call].platform && s.calls[remotePost].key == s.calls[call].key
  }

  predicate IsLooking(s: State, w: WorkerId) {
    w in s.workers && (s.workers[w].phase.Reconciling? || s.workers[w].phase.Rechecking?)
  }

  predicate IsReadyToMark(s: State, w: WorkerId) {
    w in s.workers && (s.workers[w].phase.ReadyToMark? || s.workers[w].phase.Remarking?)
  }

  predicate IsAwaiting(s: State, w: WorkerId) {
    w in s.workers && s.workers[w].phase.AwaitingProvider? && s.workers[w].phase.call in s.calls
  }

  predicate IsMarked(s: State, w: WorkerId) {
    w in s.workers && s.workers[w].phase.Marked?
  }

  function AnswerTo(s: State, w: WorkerId): CallState
    requires IsAwaiting(s, w)
  {
    s.calls[s.workers[w].phase.call].state
  }

  /** An idempotent provider answers a known key with the post it already has. */
  ghost predicate MayAccept(s: State, call: CallId, remotePost: RemoteId) {
    && call in s.calls && s.calls[call].state == InFlight
    && (remotePost == call || (s.calls[call].platform in s.idempotent && Deduplicates(s, call, remotePost)))
    && (s.calls[call].platform in s.idempotent && remotePost == call ==>
         forall r | r in s.calls :: !Deduplicates(s, call, r))
  }

  predicate IsInFlight(s: State, call: CallId) {
    call in s.calls && s.calls[call].state == InFlight
  }

  /** What the environment and the program allow next. */
  ghost predicate Enabled(s: State, e: Event) {
    match e
    case Tick(to) => s.now <= to
    case Claim(w, j, leaseMs, queueJobId) =>
      && w !in s.workers && (queueJobId.Some? ==> queueJobId.value in s.queue)
      && ClaimPublishJob(s.db, s.now, j, leaseMs, queueJobId).Updated?
    case FindPost(w, result) =>   // assumption: a lookup reports only posts that exist
      IsLooking(s, w) && IsPostOf(s, result.remotePostId, s.workers[w].job.id)
    case MissPost(w) => IsLooking(s, w)
    case Mark(w, _) => IsReadyToMark(s, w)
    case Send(w, call) => IsMarked(s, w) && call !in s.calls
    case FailLocally(w, _) => IsMarked(s, w)
    case ReceiveSuccess(w, _, _) => IsAwaiting(s, w) && AnswerTo(s, w).Accepted?
    case ReceiveFailure(w, error) =>   // assumption: a definite failure was not and will not be accepted
      IsAwaiting(s, w) && (!ClassifyPublishFailure(error).ambiguous ==> AnswerTo(s, w) == Refused)
    case Confirm(w) => w in s.workers && s.workers[w].phase.Confirming?
    case Finish(w) => w in s.workers && s.workers[w].phase.Finishing?
    case Defer(w) => w in s.workers && s.workers[w].phase.Deferring?
    case Fail(w) => w in s.workers && s.workers[w].phase.Failing?
    case Crash(w) => w in s.workers
    case Accept(call, remotePost) => MayAccept(s, call, remotePost)
    case Refuse(call) => IsInFlight(s, call)
    case Create(post, jobs) => IsNewDraft(s, post, jobs)
    case Edit(p, ownerId, command, after) => TimelyCommand(s, command) && Owns(s.db, ownerId, p)
        && IsEdit(s.db, p, command, after)
    case ClaimOutbox(d, j, _) => d !in s.dispatchers && Dispatchable(s.db, s.now, j)
    case Enqueue(d) => d in s.dispatchers
    case MarkEnqueued(d) => d in s.dispatchers && s.dispatchers[d].added
    case Release(d, _) => d in s.dispatchers
    case DispatcherCrash(d) => d in s.dispatchers
  }

  // -------------------------------------------------------------- steps

  /** Worker w is at this point of the program with this local variable `job`. */
  predicate Stands(s: State, w: WorkerId, job: SocialPublishJob, phase: Phase) {
    w in s.workers && s.workers[w].job == job && s.workers[w].phase == phase
  }

  function Without(s: State, w: WorkerId): State {
    s.(workers := s.workers - {w})
  }

  function PutWorker(s: State, w: WorkerId, worker: Worker): State {
    s.(workers := s.workers[w := worker])
  }

  function PutDb(s: State, db: Db): State {
    s.(db := db)
  }

  /** The worker goes on with this job in this phase. */
  function Goes(worker: Worker, job: SocialPublishJob, phase: Phase): Worker {
    worker.(job := job, phase := phase)
  }

  /** It has run a statement that renewed its lease and returned the row. */
  function Renewed(worker: Worker, row: SocialPublishJob, leaseEnd: Time, phase: Phase): Worker {
    worker.(job := row, leaseEnd := leaseEnd, phase := phase)
  }

  function FirstPhase(row: SocialPublishJob): Phase {
    if row.status == RemoteConfirmed && row.remotePostId.Some? && row.publishedAt.Some? then Finishing
    else if row.remoteRequestKey.Some? then Reconciling
    else ReadyToMark
  }

  function ClaimStep(s: State, w: WorkerId, j: JobId, leaseMs: nat, queueJobId: Option<nat>): State {
    ClaimOutcome(s, w, ClaimPublishJob(s.db, s.now, j, leaseMs, queueJobId), leaseMs)
  }

  function ClaimOutcome(s: State, w: WorkerId, outcome: SqlOutcome, leaseMs: nat): State {
    if outcome.Updated? && outcome.row.postId in outcome.db.posts && outcome.row.postId in outcome.db.media
    then PutWorker(PutDb(s, outcome.db), w,
        NewWorker(outcome.row, ReadPost(outcome.db, outcome.row.postId), s.now + leaseMs))
    else s
  }

  function NewWorker(row: SocialPublishJob, post: Post, leaseEnd: Time): Worker {
    Worker(row, post, leaseEnd, FirstPhase(row), row.remoteRequestKey.Some?)
  }

  function BeginDefer(s: State, w: WorkerId, job: SocialPublishJob): State
    requires w in s.workers
  {
    WithPlan(s, w, DeferredJob(job),
        PlanRetry(DeferralIsPending(DeferredJob(job)), DeferredJob(job).retryCount, s.now), true)
  }

  /** About to record the failure; without a delay the worker throws. */
  function WithPlan(s: State, w: WorkerId, job: SocialPublishJob, plan: RetryPlan, deferral: bool): State
    requires w in s.workers
  {
    if plan.NoDelay? then Without(s, w)
    else PutWorker(s, w,
        Goes(s.workers[w], job, if deferral then Deferring(plan.RetryAt?, PlannedTime(plan))
            else Failing(plan.RetryAt?, PlannedTime(plan))))
  }

  function BeginConfirm(s: State, w: WorkerId, job: SocialPublishJob, result: PublishResult): State
    requires w in s.workers
  {
    PutWorker(s, w, Goes(s.workers[w], ConfirmedJob(job, result), Confirming))
  }

  function AfterFailure(s: State, w: WorkerId, failure: PublishFailure): State
    requires w in s.workers
  {
    if failure.ambiguous then PutWorker(s, w, Goes(s.workers[w], s.workers[w].job, Rechecking(failure)))
    else BeginFail(s, w, FailedJob(s.workers[w].job, failure), failure)
  }

  function BeginFail(s: State, w: WorkerId, failed: SocialPublishJob, failure: PublishFailure): State
    requires w in s.workers
  {
    WithPlan(s, w, failed, PlanRetry(ShouldRetryPublish(failure, failed.retryCount), failed.retryCount, s.now), false)
  }

  function MissStep(s: State, w: WorkerId): State
    requires w in s.workers
  {
    MissOf(s, w, s.workers[w])
  }

  function MissOf(s: State, w: WorkerId, worker: Worker): State
    requires w in s.workers
  {
    if worker.phase.Rechecking? then BeginDefer(s, w, FailedJob(worker.job, worker.phase.failure))
    else if worker.job.platform in s.idempotent then PutWorker(s, w, Goes(worker, worker.job, ReadyToMark))
    else BeginDefer(s, w, worker.job)
  }

  function MarkStep(s: State, w: WorkerId, leaseMs: nat): State
    requires w in s.workers
  {
    MarkOf(s, w, s.workers[w],
        MarkRemoteRequesting(s.db, s.now, s.workers[w].job.id, RequestKeyOf(s.workers[w].job), leaseMs), leaseMs)
  }

  function RequestKeyOf(job: SocialPublishJob): RequestKey {
    job.remoteRequestKey.GetOr(KeyOf(job.id))
  }

  function MarkOf(s: State, w: WorkerId, worker: Worker, outcome: SqlOutcome, leaseMs: nat): State {
    if !outcome.Updated? then Without(s, w)
    else PutWorker(PutDb(s, outcome.db), w,
           if worker.phase.Remarking?
               then Renewed(worker, ConfirmedJob(outcome.row, worker.phase.found), s.now + leaseMs, Confirming)
           else Renewed(worker, outcome.row, s.now + leaseMs, Marked))
  }

  function SendStep(s: State, w: WorkerId, call: CallId): State
    requires w in s.workers
  {
    SendOf(s, w, s.workers[w], call)
  }

  function NewCall(worker: Worker, now: Time): ProviderCall {
    ProviderCall(worker.job.id, worker.job.platform, RequestKeyOf(worker.job), worker.post.content, now, InFlight)
  }

  function SendOf(s: State, w: WorkerId, worker: Worker, call: CallId): State {
    s.(calls := s.calls[call := NewCall(worker, s.now)],
       workers := s.workers[w := Goes(worker, worker.job, AwaitingProvider(call))],
       sends := s.sends[worker.job.id := Sends(s, worker.job.id) + 1])
  }

  function ConfirmStep(s: State, w: WorkerId): State
    requires w in s.workers
  {
    ConfirmOf(s, w, s.workers[w], ConfirmRemotePublication(s.db, s.workers[w].job))
  }

  function ConfirmOf(s: State, w: WorkerId, worker: Worker, outcome: SqlOutcome): State {
    if outcome.Updated? then PutWorker(PutDb(s, outcome.db), w, Goes(worker, outcome.row, Finishing)) else Without(s, w)
  }

  function FinishStep(s: State, w: WorkerId): State
    requires w in s.workers
  {
    Without(PutDb(s, After(SaveSuccess(s.db, s.workers[w].job), s.db)), w)
  }

  function DeferStep(s: State, w: WorkerId): State
    requires w in s.workers && s.workers[w].phase.Deferring?
  {
    DeferOf(s, w, s.workers[w].job, s.workers[w].phase)
  }

  function DeferOf(s: State, w: WorkerId, job: SocialPublishJob, phase: Phase): State
    requires phase.Deferring?
  {
    Without(PutDb(s,
        After(RecordAmbiguousRemoteOutcome(s.db, s.now, job, phase.retryPending, phase.nextRetryAt), s.db)), w)
  }

  function FailStep(s: State, w: WorkerId): State
    requires w in s.workers && s.workers[w].phase.Failing?
  {
    FailOf(s, w, s.workers[w].job, s.workers[w].phase)
  }

  function FailOf(s: State, w: WorkerId, job: SocialPublishJob, phase: Phase): State
    requires phase.Failing?
  {
    Without(PutDb(s, After(SaveFailure(s.db, s.now, job, phase.retryPending, phase.nextRetryAt), s.db)), w)
  }

  function FindStep(s: State, w: WorkerId, result: PublishResult): State
    requires w in s.workers
  {
    if s.workers[w].phase.Reconciling? then PutWorker(s, w, Goes(s.workers[w], s.workers[w].job, Remarking(result)))
    else BeginConfirm(s, w, s.workers[w].job, result)
  }

  function ReceiveStep(s: State, w: WorkerId, url: Option<string>, publishedAt: Time): State
    requires w in s.workers && s.workers[w].phase.AwaitingProvider?
    requires s.workers[w].phase.call in s.calls && s.calls[s.workers[w].phase.call].state.Accepted?
  {
    BeginConfirm(s, w, s.workers[w].job,
        PublishResult(s.calls[s.workers[w].phase.call].state.remotePost, url, publishedAt))
  }

  function EditStep(s: State, p: PostId, command: Command, after: Db): State {
    s.(db := after, approvals := Approved(s, p, command),
       sends := if command.Retry? then s.sends[command.jobId := 0] else s.sends)
  }

  /** schedule approves the stored content. */
  function Approved(s: State, p: PostId, command: Command): map<PostId, Approval> {
    if command.Schedule? && p in s.db.posts && p in s.db.media
    then s.approvals[p := Approval(command.approvedRevision, ReadPost(s.db, p).content)]
    else s.approvals
  }

  function SetCall(s: State, call: CallId, state: CallState): State
    requires call in s.calls
  {
    s.(calls := s.calls[call := s.calls[call].(state := state)])
  }

  function ClaimOutboxStep(s: State, d: DispatcherId, j: JobId, leaseMs: nat): State
    requires j in s.db.outbox
  {
    PutDispatcher(PutDb(s, PutOutbox(s.db, j, DispatchClaimedRow(s.db.outbox[j], s.now, leaseMs))), d,
        DispatchRecord(j, s.db.outbox[j].queueJobId, false))
  }

  function PutDispatcher(s: State, d: DispatcherId, record: DispatchRecord): State {
    s.(dispatchers := s.dispatchers[d := record])
  }

  function EnqueueStep(s: State, d: DispatcherId, record: DispatchRecord): State {
    s.(queue := s.queue + {record.queueJobId}, dispatchers := s.dispatchers[d := record.(added := true)])
  }

  function Dismiss(s: State, d: DispatcherId, db: Db): State {
    s.(db := db, dispatchers := s.dispatchers - {d})
  }

  /** A step that is not allowed changes nothing. */
  ghost function Next(s: State, e: Event): State {
    if Enabled(s, e) then Effect(s, e) else s
  }

  function Effect(s: State, e: Event): State
    requires Enabled(s, e)
  {
    match e
    case Tick(to) => s.(now := to)
    case Claim(w, j, leaseMs, queueJobId) => ClaimStep(s, w, j, leaseMs, queueJobId)
    case FindPost(w, result) => FindStep(s, w, result)
    case MissPost(w) => MissStep(s, w)
    case Mark(w, leaseMs) => MarkStep(s, w, leaseMs)
    case Send(w, call) => SendStep(s, w, call)
    case FailLocally(w, error) => AfterFailure(s, w, ClassifyPublishFailure(error))
    case ReceiveSuccess(w, url, publishedAt) => ReceiveStep(s, w, url, publishedAt)
    case ReceiveFailure(w, error) => AfterFailure(s, w, ClassifyPublishFailure(error))
    case Confirm(w) => ConfirmStep(s, w)
    case Finish(w) => FinishStep(s, w)
    case Defer(w) => DeferStep(s, w)
    case Fail(w) => FailStep(s, w)
    case Crash(w) => Without(s, w)
    case Accept(call, remotePost) => SetCall(s, call, Accepted(remotePost))
    case Refuse(call) => SetCall(s, call, Refused)
    case Create(post, jobs) => PutDb(s, PgSave(s.db, post, jobs))
    case Edit(p, _, command, after) => EditStep(s, p, command, after)
    case ClaimOutbox(d, j, leaseMs) => ClaimOutboxStep(s, d, j, leaseMs)
    case Enqueue(d) => EnqueueStep(s, d, s.dispatchers[d])
    case MarkEnqueued(d) => Dismiss(s, d,
        MarkOutboxEnqueued(s.db, s.now, s.dispatchers[d].jobId, s.dispatchers[d].queueJobId))
    case Release(d, message) => Dismiss(s, d,
        ReleaseOutbox(s.db, s.dispatchers[d].jobId, s.dispatchers[d].queueJobId, message))
    case DispatcherCrash(d) => Dismiss(s, d, s.db)
  }

  // -------------------------------------------------------------- runs

  /** Every event of the run is allowed when it happens. */
  ghost predicate IsRun(s: State, run: seq<Event>)
    decreases |run|
  {
    run == [] || (Enabled(s, run[0]) && IsRun(Next(s, run[0]), run[1..]))
  }

  ghost function Exec(s: State, run: seq<Event>): State
    decreases |run|
  {
    if run == [] then s else Exec(Next(s, run[0]), run[1..])
  }
}
