/**
 * backend/src/publishing/publish-worker.processor.ts: `process` as it runs against the
 * repository, one undisturbed call at a time, proved to be a run of the protocol.
 */
module PublishWorker {
  import opened Wrappers
  import opened PostEntity
  import opened RetryPolicy
  import opened Schema
  import opened PublishOutboxRepository
  import opened PublishingService
  import opened PublishProtocol
  import opened ProtocolInvariant
  import opened WorkerSteps
  import opened ProtocolSafety
  import opened PublishGuarantees
  import opened WorkerProgress
  import opened CallResults

  // -------------------------------------------------------------- what the provider may answer

  ghost predicate KnownPost(s: State, platform: SocialPlatform, key: RequestKey, d: CallId) {
    d in s.calls && s.calls[d].state == Accepted(d) && s.calls[d].platform == platform && s.calls[d].key == key
  }

  /** The remote post the provider may create, or already has, for a new call under this key. */
  ghost predicate Acceptable(s: State, platform: SocialPlatform, key: RequestKey, call: CallId, r: RemoteId) {
    if platform in s.idempotent && exists d ::
        KnownPost(s, platform, key, d) then KnownPost(s, platform, key, r) else r == call
  }

  ghost predicate HonestAnswers(s: State, j: JobId, call: CallId, world: World) {
    j in s.db.jobs ==>
      && (world.answer.Posted? ==>
           Acceptable(s, s.db.jobs[j].platform, KeyOf(j), call, world.answer.result.remotePostId))
      && (world.after.Found? ==> Acceptable(s, s.db.jobs[j].platform, KeyOf(j), call, world.after.result.remotePostId))
  }

  ghost predicate Honest(s: State, j: JobId, call: CallId, world: World) {
    && (world.before.Found? ==> IsPostOf(s, world.before.result.remotePostId, j))
    && HonestAnswers(s, j, call, world)
    && s.now <= world.claimedAt <= world.markedAt <= world.endedAt
  }

  // -------------------------------------------------------------- runs of one or two events

  lemma OneEvent(s: State, e: Event, w: WorkerId, j: JobId)
    requires Enabled(s, e) && Undisturbed(s, e, w, j)
    ensures IsUndisturbedRun(s, [e], w, j) && IsRun(s, [e]) && Exec(s, [e]) == Next(s, e)
  {
    assert [e][1..] == [];
  }

  lemma {:induction false} RunsCompose(s: State, first: seq<Event>, second: seq<Event>, w: WorkerId, j: JobId)
    requires IsUndisturbedRun(s, first, w, j) && IsRun(s, first) && IsUndisturbedRun(Exec(s, first), second, w, j)
    requires IsRun(Exec(s, first), second)
    ensures IsUndisturbedRun(s, first + second, w, j) && IsRun(s, first + second)
    ensures Exec(s, first + second) == Exec(Exec(s, first), second)
    decreases |first|
  {
    if first == [] {
      assert first + second == second;
    } else {
      RunsCompose(Next(s, first[0]), first[1..], second, w, j);
      assert (first + second)[0] == first[0] && (first + second)[1..] == first[1..] + second;
    }
  }

  /** Steps of worker w on job j that lead from s to t. */
  ghost predicate Leads(s: State, run: seq<Event>, t: State, w: WorkerId, j: JobId) {
    IsUndisturbedRun(s, run, w, j) && IsRun(s, run) && Exec(s, run) == t
  }

  lemma Step(s: State, run: seq<Event>, t: State, e: Event, w: WorkerId, j: JobId)
    requires Leads(s, run, t, w, j) && Enabled(t, e) && Undisturbed(t, e, w, j)
    ensures Leads(s, run + [e], Next(t, e), w, j)
  {
    OneEvent(t, e, w, j);
    RunsCompose(s, run, [e], w, j);
  }

  lemma Then(s: State, run: seq<Event>, t: State, more: seq<Event>, u: State, w: WorkerId, j: JobId)
    requires Leads(s, run, t, w, j) && Leads(t, more, u, w, j)
    ensures Leads(s, run + more, u, w, j)
  {
    RunsCompose(s, run, more, w, j);
  }

  lemma NoSteps(s: State, w: WorkerId, j: JobId)
    ensures Leads(s, [], s, w, j)
  {
  }

  /** The call is over: the worker is gone and the tables are those of the protocol. */
  ghost predicate Ends(s: State, run: seq<Event>, db: Db, w: WorkerId, j: JobId) {
    IsUndisturbedRun(s, run, w, j) && IsRun(s, run) && Exec(s, run).db == db && w !in Exec(s, run).workers
  }

  /** What the caller is told is what the row says; an undisturbed call is never broken off. */
  predicate Means(outcome: Outcome, db: Db, j: JobId, failures: nat) {
    && j in db.jobs
    && match outcome
       case Logged => db.jobs[j].status == Published
       case RetryScheduled =>
         db.jobs[j].status in {Retrying, RemoteRequesting} && db.jobs[j].retryCount == failures + 1
             && db.jobs[j].nextRetryAt.Some?
       case GivenUp => db.jobs[j].status == Failed
       case Ignored => false
       case Broken => false
  }

  /** Worker w is at work on job j, its row in step with it. */
  ghost predicate AtWork(s: State, w: WorkerId, j: JobId, failures: nat) {
    Inv(s) && w in s.workers && OnTrack(s, w, j, failures)
  }

  lemma StaysAtWork(s: State, run: seq<Event>, t: State, w: WorkerId, j: JobId, failures: nat)
    requires AtWork(s, w, j, failures) && Leads(s, run, t, w, j) && w in t.workers
    ensures AtWork(t, w, j, failures)
  {
    StaysOnTrack(s, run, w, j, failures);
    RunKeepsInv(s, run);
  }

  lemma ConfirmingIsStored(s: State, w: WorkerId, job: SocialPublishJob, failures: nat)
    requires AtWork(s, w, job.id, failures) && Stands(s, w, job, Confirming)
    ensures ConfirmRemotePublication(s.db, job).Updated?
  {
    LocalFacts(s, w);
    ConfirmOutcome(s.db, job);
  }

  lemma FinishingRow(s: State, w: WorkerId, j: JobId, failures: nat)
    requires Local(s, w) && OnTrack(s, w, j, failures) && s.workers[w].phase.Finishing?
    ensures var job := s.workers[w].job;
            && job.id == j && job.remotePostId.Some? && job.publishedAt.Some?
            && s.db.jobs[j].status == RemoteConfirmed && JobChecks(s.db.jobs[j])
  {
  }

  lemma FinishingIsStored(s: State, w: WorkerId, job: SocialPublishJob, failures: nat) returns (db: Db)
    requires AtWork(s, w, job.id, failures) && Stands(s, w, job, Finishing)
    ensures IsUpdatedTo(SaveSuccess(s.db, job), db) && Means(Logged, db, job.id, failures)
    ensures IsSaved(s.db, db, job)
  {
    FinishIsReady(s, w);
    FinishingRow(s, w, job.id, failures);
    FinishOutcome(s.db, job);
    db := SaveSuccess(s.db, job).db;
    RowKey(s, job.id);
    SuccessIsSaved(s.db, job, db);
  }

  /** Job's result was published over the row as it stands in the tables. */
  ghost predicate IsSaved(before: Db, after: Db, job: SocialPublishJob) {
    && job.id in before.jobs && job.remotePostId.Some? && job.publishedAt.Some?
    && IsPublished(before, after, job.id, ResultOf(job), before.jobs[job.id].remoteRequestStartedAt)
  }

  /** The provider's result in the columns of a job that has one. */
  function ResultOf(job: SocialPublishJob): PublishResult {
    PublishResult(job.remotePostId.GetOr(0), job.remotePostUrl, job.publishedAt.GetOr(0))
  }

  lemma RowKey(s: State, j: JobId)
    requires Inv(s) && j in s.db.jobs && s.db.jobs[j].remoteRequestKey.Some?
    ensures s.db.jobs[j].remoteRequestKey == Some(SocialPublish(j)) && s.db.jobs[j].id == j
  {
    assert JobInv(s, j);
  }

  lemma RowId(s: State, j: JobId)
    requires Inv(s) && j in s.db.jobs
    ensures s.db.jobs[j].id == j
  {
    assert JobInv(s, j);
  }

  lemma DeferringRow(s: State, w: WorkerId, j: JobId, failures: nat)
    requires Local(s, w) && OnTrack(s, w, j, failures) && s.workers[w].phase.Deferring?
    ensures var job, phase := s.workers[w].job, s.workers[w].phase;
            && job.id == j && WorkerMayFail(s.db, j) && JobChecks(s.db.jobs[j]) && s.db.jobs[j].remoteRequestKey.Some?
            && 1 <= job.retryCount <= 4 && job.retryCount == failures + 1
            && (phase.retryPending ==> phase.nextRetryAt.Some?)
  {
  }

  lemma DeferringIsStored(s: State, w: WorkerId, job: SocialPublishJob, retryPending: bool, nextRetryAt: Option<Time>,
      failures: nat)
    returns (db: Db)
    requires AtWork(s, w, job.id, failures) && Stands(s, w, job, Deferring(retryPending, nextRetryAt))
    ensures IsUpdatedTo(RecordAmbiguousRemoteOutcome(s.db, s.now, job, retryPending, nextRetryAt), db)
    ensures Means(if retryPending then RetryScheduled else GivenUp, db, job.id, failures)
  {
    LocalFacts(s, w);
    DeferringRow(s, w, job.id, failures);
    DeferOutcome(s.db, s.now, job, retryPending, nextRetryAt);
    db := RecordAmbiguousRemoteOutcome(s.db, s.now, job, retryPending, nextRetryAt).db;
  }

  lemma FailingRow(s: State, w: WorkerId, j: JobId, failures: nat)
    requires Local(s, w) && OnTrack(s, w, j, failures) && s.workers[w].phase.Failing?
    ensures var job, phase := s.workers[w].job, s.workers[w].phase;
            && job.id == j && WorkerMayFail(s.db, j) && JobChecks(s.db.jobs[j])
            && 1 <= job.retryCount <= 4 && job.retryCount == failures + 1
            && (phase.retryPending ==> phase.nextRetryAt.Some?)
  {
  }

  lemma FailingIsStored(s: State, w: WorkerId, job: SocialPublishJob, retryPending: bool, nextRetryAt: Option<Time>,
      failures: nat)
    returns (db: Db)
    requires AtWork(s, w, job.id, failures) && Stands(s, w, job, Failing(retryPending, nextRetryAt))
    ensures IsUpdatedTo(SaveFailure(s.db, s.now, job, retryPending, nextRetryAt), db)
    ensures Means(if retryPending then RetryScheduled else GivenUp, db, job.id, failures)
  {
    LocalFacts(s, w);
    FailingRow(s, w, job.id, failures);
    FailOutcome(s.db, s.now, job, retryPending, nextRetryAt);
    db := SaveFailure(s.db, s.now, job, retryPending, nextRetryAt).db;
  }

  // -------------------------------------------------------------- leaving with a failure

  lemma BegunDeferral(s: State, w: WorkerId, job: SocialPublishJob) returns (plan: RetryPlan)
    requires w in s.workers && (job.status == Failed ==> 1 <= job.retryCount)
    ensures var t, deferred := BeginDefer(s, w, job), DeferredJob(job);
            && plan == PlanRetry(DeferralIsPending(deferred), deferred.retryCount, s.now) && !plan.NoDelay?
            && t.db == s.db && t.now == s.now
            && Stands(t, w, deferred, Deferring(DeferralIsPending(deferred), PlannedTime(plan)))
  {
    var deferred := DeferredJob(job);
    plan := PlanRetry(DeferralIsPending(deferred), deferred.retryCount, s.now);
  }

  lemma DeferralIsBegun(s: State, w: WorkerId, job: SocialPublishJob, failures: nat)
    requires AtWork(s, w, job.id, failures) && Enabled(s, MissPost(w)) && Next(s, MissPost(w)) == Deferral(s, w, job)
    requires IsDeferring(Deferral(s, w, job), w)
    ensures Leads(s, [MissPost(w)], Deferral(s, w, job), w, job.id) && AtWork(Deferral(s, w, job), w, job.id, failures)
  {
    One(s, MissPost(w), w, job.id);
    StaysAtWork(s, [MissPost(w)], Deferral(s, w, job), w, job.id, failures);
  }

  predicate IsDeferring(s: State, w: WorkerId) {
    w in s.workers && s.workers[w].phase.Deferring?
  }

  /** BeginDefer for a worker that is there. */
  function Deferral(s: State, w: WorkerId, job: SocialPublishJob): State {
    if w in s.workers then BeginDefer(s, w, job) else s
  }

  lemma LeavesDeferring(s: State, w: WorkerId, job: SocialPublishJob, retryPending: bool, nextRetryAt: Option<Time>,
      failures: nat)
    returns (db: Db)
    requires AtWork(s, w, job.id, failures) && Stands(s, w, job, Deferring(retryPending, nextRetryAt))
    ensures IsUpdatedTo(RecordAmbiguousRemoteOutcome(s.db, s.now, job, retryPending, nextRetryAt), db)
    ensures Ends(s, [Defer(w)], db, w, job.id)
    ensures Means(if retryPending then RetryScheduled else GivenUp, db, job.id, failures)
  {
    db := DeferringIsStored(s, w, job, retryPending, nextRetryAt, failures);
    One(s, Defer(w), w, job.id);
  }

  /** The two steps by which a worker leaves with a deferral, and the tables then. */
  lemma DeferralSteps(s: State, w: WorkerId, job: SocialPublishJob, failures: nat)
      returns (run: seq<Event>, plan: RetryPlan, db: Db)
    requires AtWork(s, w, job.id, failures) && (job.status == Failed ==> 1 <= job.retryCount)
    requires Enabled(s, MissPost(w)) && Next(s, MissPost(w)) == Deferral(s, w, job)
    ensures var deferred := DeferredJob(job);
            && plan == PlanRetry(DeferralIsPending(deferred), deferred.retryCount, s.now) && !plan.NoDelay?
            && IsUpdatedTo(RecordAmbiguousRemoteOutcome(s.db, s.now, deferred, DeferralIsPending(deferred),
                 PlannedTime(plan)), db)
            && Ends(s, run, db, w, job.id)
            && Means(if DeferralIsPending(deferred) then RetryScheduled else GivenUp, db, job.id, failures)
            && job.id in s.db.jobs
            && IsDeferred(s.db, db, job.id, s.db.jobs[job.id].remoteRequestStartedAt, s.now,
                 if DeferralIsPending(deferred) then RetryScheduled else GivenUp)
  {
    var t, deferred := Deferral(s, w, job), DeferredJob(job);
    plan := BegunDeferral(s, w, job);
    DeferralIsBegun(s, w, job, failures);
    db := LeavesDeferring(t, w, deferred, DeferralIsPending(deferred), PlannedTime(plan), failures);
    DeferralIsStored(s, t, w, job, PlannedTime(plan), db, failures);
    Then(s, [MissPost(w)], t, [Defer(w)], Exec(t, [Defer(w)]), w, job.id);
    run := [MissPost(w)] + [Defer(w)];
  }

  lemma LookingRow(s: State, w: WorkerId, j: JobId, failures: nat)
    requires AtWork(s, w, j, failures) && Enabled(s, MissPost(w))
    ensures s.db.jobs[j].retryCount == failures
  {
  }

  lemma DeferringCount(t: State, w: WorkerId, j: JobId, failures: nat)
    requires AtWork(t, w, j, failures) && t.workers[w].phase.Deferring?
    ensures t.workers[w].job.retryCount == failures + 1 && t.db.jobs[j].remoteRequestKey.Some?
  {
    LocalFacts(t, w);
    DeferringRow(t, w, j, failures);
  }

  lemma DeferralIsStored(s: State, t: State, w: WorkerId, job: SocialPublishJob, nextRetryAt: Option<Time>, db: Db,
      failures: nat)
    requires AtWork(s, w, job.id, failures) && Enabled(s, MissPost(w)) && AtWork(t, w, job.id, failures) && t.db == s.db
    requires var deferred := DeferredJob(job);
             && Stands(t, w, deferred, Deferring(DeferralIsPending(deferred), nextRetryAt))
             && nextRetryAt == PlannedTime(PlanRetry(DeferralIsPending(deferred), deferred.retryCount, s.now))
             && IsUpdatedTo(RecordAmbiguousRemoteOutcome(s.db, s.now, deferred, DeferralIsPending(deferred),
                  nextRetryAt), db)
    ensures IsDeferred(s.db, db, job.id, s.db.jobs[job.id].remoteRequestStartedAt, s.now,
              if DeferralIsPending(DeferredJob(job)) then RetryScheduled else GivenUp)
  {
    LookingRow(s, w, job.id, failures);
    DeferringCount(t, w, job.id, failures);
    RowKey(s, job.id);
    DeferralIsSaved(s.db, s.now, job, nextRetryAt, db);
  }

  lemma BegunFailure(s: State, w: WorkerId, job: SocialPublishJob, failure: PublishFailure) returns (plan: RetryPlan)
    requires w in s.workers && s.workers[w].job == job && !failure.ambiguous
    ensures var t, failed := AfterFailure(s, w, failure), FailedJob(job, failure);
            var retryPending := ShouldRetryPublish(failure, failed.retryCount);
            && plan == PlanRetry(retryPending, failed.retryCount, s.now) && !plan.NoDelay?
            && t.db == s.db && t.now == s.now && Stands(t, w, failed, Failing(retryPending, PlannedTime(plan)))
  {
    var failed := FailedJob(job, failure);
    plan := PlanRetry(ShouldRetryPublish(failure, failed.retryCount), failed.retryCount, s.now);
  }

  lemma LeavesFailing(s: State, w: WorkerId, job: SocialPublishJob, retryPending: bool, nextRetryAt: Option<Time>,
      failures: nat)
    returns (db: Db)
    requires AtWork(s, w, job.id, failures) && Stands(s, w, job, Failing(retryPending, nextRetryAt))
    ensures IsUpdatedTo(SaveFailure(s.db, s.now, job, retryPending, nextRetryAt), db)
    ensures Ends(s, [Fail(w)], db, w, job.id)
    ensures Means(if retryPending then RetryScheduled else GivenUp, db, job.id, failures)
  {
    db := FailingIsStored(s, w, job, retryPending, nextRetryAt, failures);
    One(s, Fail(w), w, job.id);
  }

  lemma HearsFailure(s: State, w: WorkerId, job: SocialPublishJob, call: CallId, error: ThrownError, failures: nat)
    returns (t: State, plan: RetryPlan)
    requires AtWork(s, w, job.id, failures) && !ClassifyPublishFailure(error).ambiguous
    requires Stands(s, w, job, AwaitingProvider(call)) && Enabled(s, ReceiveFailure(w, error))
    ensures var failed := FailedJob(job, ClassifyPublishFailure(error));
            var retryPending := ShouldRetryPublish(ClassifyPublishFailure(error), failed.retryCount);
            && plan == PlanRetry(retryPending, failed.retryCount, s.now) && !plan.NoDelay? && t.db == s.db
            && t.now == s.now
            && Leads(s, [ReceiveFailure(w, error)], t, w, job.id) && AtWork(t, w, job.id, failures)
            && Stands(t, w, failed, Failing(retryPending, PlannedTime(plan)))
  {
    t := AfterFailure(s, w, ClassifyPublishFailure(error));
    plan := BegunFailure(s, w, job, ClassifyPublishFailure(error));
    One(s, ReceiveFailure(w, error), w, job.id);
    StaysAtWork(s, [ReceiveFailure(w, error)], t, w, job.id, failures);
  }

  lemma AwaitingRow(s: State, w: WorkerId, job: SocialPublishJob, call: CallId, failures: nat)
    requires AtWork(s, w, job.id, failures) && Stands(s, w, job, AwaitingProvider(call))
    ensures job.id in s.db.jobs && s.db.jobs[job.id] == job && job.status == RemoteRequesting
  {
  }

  lemma RefusalIsStored(db: Db, now: Time, job: SocialPublishJob, error: ThrownError, plan: RetryPlan, after: Db)
    requires job.id in db.jobs && db.jobs[job.id] == job && !ClassifyPublishFailure(error).ambiguous
    requires var failed := FailedJob(job, ClassifyPublishFailure(error));
             var retryPending := ShouldRetryPublish(ClassifyPublishFailure(error), failed.retryCount);
             && plan == PlanRetry(retryPending, failed.retryCount, now)
             && IsUpdatedTo(SaveFailure(db, now, failed, retryPending, PlannedTime(plan)), after)
    ensures IsRefused(db, after, job.id, error, now,
              if ShouldRetryPublish(ClassifyPublishFailure(error), job.retryCount + 1) then RetryScheduled else GivenUp)
  {
    var retryPending := ShouldRetryPublish(ClassifyPublishFailure(error), job.retryCount + 1);
    RefusalIsSaved(db, now, job, error, retryPending, PlannedTime(plan), after);
  }

  /** The two steps by which a worker leaves with a definite failure, and the tables then. */
  lemma FailureSteps(s: State, w: WorkerId, job: SocialPublishJob, call: CallId, error: ThrownError, failures: nat)
    returns (run: seq<Event>, plan: RetryPlan, db: Db)
    requires AtWork(s, w, job.id, failures) && !ClassifyPublishFailure(error).ambiguous
    requires Stands(s, w, job, AwaitingProvider(call)) && Enabled(s, ReceiveFailure(w, error))
    ensures var failed := FailedJob(job, ClassifyPublishFailure(error));
            var retryPending := ShouldRetryPublish(ClassifyPublishFailure(error), failed.retryCount);
            && plan == PlanRetry(retryPending, failed.retryCount, s.now) && !plan.NoDelay?
            && IsUpdatedTo(SaveFailure(s.db, s.now, failed, retryPending, PlannedTime(plan)), db)
            && Ends(s, run, db, w, job.id)
            && Means(if retryPending then RetryScheduled else GivenUp, db, job.id, failures)
            && IsRefused(s.db, db, job.id, error, s.now, if retryPending then RetryScheduled else GivenUp)
  {
    var failed := FailedJob(job, ClassifyPublishFailure(error));
    var t;
    t, plan := HearsFailure(s, w, job, call, error, failures);
    var retryPending := ShouldRetryPublish(ClassifyPublishFailure(error), failed.retryCount);
    db := LeavesFailing(t, w, failed, retryPending, PlannedTime(plan), failures);
    AwaitingRow(s, w, job, call, failures);
    RefusalIsStored(s.db, s.now, job, error, plan, db);
    Then(s, [ReceiveFailure(w, error)], t, [Fail(w)], Exec(t, [Fail(w)]), w, job.id);
    run := [ReceiveFailure(w, error)] + [Fail(w)];
  }

  // -------------------------------------------------------------- the processor

  class PublishWorkerProcessor {
    const repository: PgPublishOutboxRepository
    const idempotent: set<SocialPlatform>

    constructor (repository: PgPublishOutboxRepository, idempotent: set<SocialPlatform>)
      ensures this.repository == repository && this.idempotent == idempotent
    {
      this.repository := repository;
      this.idempotent := idempotent;
    }

    /** saveExecution for a row that is remote_confirmed. */
    method Finish(job: SocialPublishJob, ghost s: State, ghost w: WorkerId, ghost failures: nat)
      returns (outcome: Outcome, ghost run: seq<Event>)
      requires repository.database.Contents() == s.db && AtWork(s, w, job.id, failures) && Stands(s, w, job, Finishing)
      modifies repository.database
      ensures Ends(s, run, repository.database.Contents(), w, job.id)
      ensures Means(outcome, repository.database.Contents(), job.id, failures)
      ensures outcome == Logged && IsSaved(s.db, repository.database.Contents(), job)
    {
      ghost var db := FinishingIsStored(s, w, job, failures);
      One(s, Event.Finish(w), w, job.id);
      run := [Event.Finish(w)];
      var raised := repository.SaveOk(job);
      outcome := if raised then Broken else Logged;
    }

    method PersistSuccess(job: SocialPublishJob, ghost s: State, ghost w: WorkerId, ghost failures: nat)
      returns (outcome: Outcome, ghost run: seq<Event>)
      requires repository.database.Contents() == s.db && AtWork(s, w, job.id, failures) && Stands(s, w, job, Confirming)
      modifies repository.database
      ensures Ends(s, run, repository.database.Contents(), w, job.id)
      ensures Means(outcome, repository.database.Contents(), job.id, failures)
      ensures outcome == Logged && IsSaved(s.db, repository.database.Contents(), job)
    {
      ghost var t, row := ConfirmedNow(s, w, job, failures);
      var confirmed := repository.Confirm(job);
      if confirmed.None? { return Broken, [Confirm(w)]; }
      outcome, run := Finish(confirmed.value, t, w, failures);
      ConfirmedIsSaved(s, w, job, t.db, confirmed.value, repository.database.Contents(), failures);
      Then(s, [Confirm(w)], t, run, Exec(t, run), w, job.id);
      run := [Confirm(w)] + run;
    }

    method DeferAmbiguousRemoteOutcome(now: Time, job: SocialPublishJob, ghost s: State, ghost w: WorkerId,
        ghost failures: nat)
      returns (outcome: Outcome, ghost run: seq<Event>)
      requires repository.database.Contents() == s.db && now == s.now && AtWork(s, w, job.id, failures)
      requires Enabled(s, MissPost(w)) && Next(s, MissPost(w)) == Deferral(s, w, job)
      requires job.status == Failed ==> 1 <= job.retryCount
      modifies repository.database
      ensures Ends(s, run, repository.database.Contents(), w, job.id)
      ensures Means(outcome, repository.database.Contents(), job.id, failures)
      ensures IsDeferred(s.db, repository.database.Contents(), job.id, StartedAt(s.db, job.id), now, outcome)
    {
      ghost var planned, db;
      run, planned, db := DeferralSteps(s, w, job, failures);
      var deferred := DeferredJob(job);
      var retryPending := deferred.retryCount <= 3;
      var plan := PlanRetry(retryPending, deferred.retryCount, now);
      if plan.NoDelay? { return Broken, run; }
      var raised := repository.RecordAmbiguous(now, deferred, retryPending, PlannedTime(plan));
      outcome := if raised then Broken else if retryPending then RetryScheduled else GivenUp;
    }

    /** saveExecution for a definite failure. */
    method SaveDefiniteFailure(now: Time, job: SocialPublishJob, error: ThrownError, ghost s: State, ghost w: WorkerId,
        ghost call: CallId, ghost failures: nat)
      returns (outcome: Outcome, ghost run: seq<Event>)
      requires repository.database.Contents() == s.db && now == s.now && AtWork(s, w, job.id, failures)
      requires !ClassifyPublishFailure(error).ambiguous
      requires Stands(s, w, job, AwaitingProvider(call)) && Enabled(s, ReceiveFailure(w, error))
      modifies repository.database
      ensures Ends(s, run, repository.database.Contents(), w, job.id)
      ensures Means(outcome, repository.database.Contents(), job.id, failures)
      ensures IsRefused(s.db, repository.database.Contents(), job.id, error, now, outcome)
    {
      ghost var planned, db;
      run, planned, db := FailureSteps(s, w, job, call, error, failures);
      var failure := ClassifyPublishFailure(error);
      var failed := FailedJob(job, failure);
      var retryPending := ShouldRetryPublish(failure, failed.retryCount);
      var plan := PlanRetry(retryPending, failed.retryCount, now);
      if plan.NoDelay? { return Broken, run; }
      var raised := repository.SaveFailed(now, failed, retryPending, PlannedTime(plan));
      outcome := if raised then Broken else if retryPending then RetryScheduled else GivenUp;
    }

    method ConcludePosted(job: SocialPublishJob, result: PublishResult, ghost s: State, ghost w: WorkerId,
        ghost call: CallId, ghost failures: nat)
      returns (outcome: Outcome, ghost run: seq<Event>)
      requires repository.database.Contents() == s.db && AtWork(s, w, job.id, failures)
      requires IsSent(s, w, call, job) && MayAccept(s, call, result.remotePostId)
      modifies repository.database
      ensures Ends(s, run, repository.database.Contents(), w, job.id)
      ensures Means(outcome, repository.database.Contents(), job.id, failures)
      ensures outcome == Logged
      ensures IsPublished(s.db, repository.database.Contents(), job.id, result, StartedAt(s.db, job.id))
    {
      ghost var steps, t := Received(s, w, call, job, result);
      StaysAtWork(s, steps, t, w, job.id, failures);
      outcome, run := PersistSuccess(ConfirmedJob(job, result), t, w, failures);
      SavedIsPublished(s.db, repository.database.Contents(), job, result);
      Then(s, steps, t, run, Exec(t, run), w, job.id);
      run := steps + run;
    }

    method ConcludeFound(job: SocialPublishJob, found: PublishResult, error: ThrownError, ghost s: State,
        ghost w: WorkerId, ghost call: CallId, ghost failures: nat)
      returns (outcome: Outcome, ghost run: seq<Event>)
      requires repository.database.Contents() == s.db && AtWork(s, w, job.id, failures)
      requires IsSent(s, w, call, job) && MayAccept(s, call, found.remotePostId)
      requires ClassifyPublishFailure(error).ambiguous
      modifies repository.database
      ensures Ends(s, run, repository.database.Contents(), w, job.id)
      ensures Means(outcome, repository.database.Contents(), job.id, failures)
      ensures outcome == Logged
      ensures IsPublished(s.db, repository.database.Contents(), job.id, found, StartedAt(s.db, job.id))
    {
      ghost var steps, t := FoundLater(s, w, call, job, error, found);
      StaysAtWork(s, steps, t, w, job.id, failures);
      outcome, run := PersistSuccess(ConfirmedJob(job, found), t, w, failures);
      SavedIsPublished(s.db, repository.database.Contents(), job, found);
      Then(s, steps, t, run, Exec(t, run), w, job.id);
      run := steps + run;
    }

    method ConcludeUnclear(job: SocialPublishJob, endedAt: Time, error: ThrownError, ghost s: State, ghost w: WorkerId,
        ghost call: CallId, ghost failures: nat)
      returns (outcome: Outcome, ghost run: seq<Event>)
      requires repository.database.Contents() == s.db && s.now <= endedAt && AtWork(s, w, job.id, failures)
      requires IsSent(s, w, call, job) && ClassifyPublishFailure(error).ambiguous
      modifies repository.database
      ensures Ends(s, run, repository.database.Contents(), w, job.id)
      ensures Means(outcome, repository.database.Contents(), job.id, failures)
      ensures IsDeferred(s.db, repository.database.Contents(), job.id, StartedAt(s.db, job.id), endedAt, outcome)
    {
      ghost var steps, t := StillUnclear(s, w, call, job, error, endedAt);
      StaysAtWork(s, steps, t, w, job.id, failures);
      var failed := FailedJob(job, ClassifyPublishFailure(error));
      outcome, run := DeferAmbiguousRemoteOutcome(endedAt, failed, t, w, failures);
      Then(s, steps, t, run, Exec(t, run), w, job.id);
      run := steps + run;
    }

    method ConcludeRefused(job: SocialPublishJob, endedAt: Time, error: ThrownError, ghost s: State, ghost w: WorkerId,
        ghost call: CallId, ghost failures: nat)
      returns (outcome: Outcome, ghost run: seq<Event>)
      requires repository.database.Contents() == s.db && s.now <= endedAt && AtWork(s, w, job.id, failures)
      requires IsSent(s, w, call, job) && !ClassifyPublishFailure(error).ambiguous
      modifies repository.database
      ensures Ends(s, run, repository.database.Contents(), w, job.id)
      ensures Means(outcome, repository.database.Contents(), job.id, failures)
      ensures IsRefused(s.db, repository.database.Contents(), job.id, error, endedAt, outcome)
    {
      ghost var steps, t := RefusedBy(s, w, call, job, error, endedAt);
      StaysAtWork(s, steps, t, w, job.id, failures);
      outcome, run := SaveDefiniteFailure(endedAt, job, error, t, w, call, failures);
      Then(s, steps, t, run, Exec(t, run), w, job.id);
      run := steps + run;
    }

    /** What follows the adapter's answer; `job` is the marked row. */
    method Conclude(job: SocialPublishJob, world: World, ghost s: State, ghost w: WorkerId, ghost call: CallId,
        ghost failures: nat)
      returns (outcome: Outcome, ghost run: seq<Event>)
      requires repository.database.Contents() == s.db && s.now <= world.endedAt && AtWork(s, w, job.id, failures)
      requires IsSent(s, w, call, job) && AnswersHonestly(s, call, world)
      modifies repository.database
      ensures Ends(s, run, repository.database.Contents(), w, job.id)
      ensures Means(outcome, repository.database.Contents(), job.id, failures)
      ensures IsAnswered(s.db, repository.database.Contents(), job.id, StartedAt(s.db, job.id), world, outcome)
    {
      match world.answer {
        case Posted(result) => outcome, run := ConcludePosted(job, result, s, w, call, failures);
        case Threw(error) =>
          if ClassifyPublishFailure(error).ambiguous {
            if world.after.Found? {
              outcome, run := ConcludeFound(job, world.after.result, error, s, w, call, failures);
            } else {
              outcome, run := ConcludeUnclear(job, world.endedAt, error, s, w, call, failures);
            }
          } else {
            outcome, run := ConcludeRefused(job, world.endedAt, error, s, w, call, failures);
          }
      }
    }

    /** From markRemoteRequesting on. */
    method MarkAndPublish(job: SocialPublishJob, leaseMs: nat, world: World, ghost s: State, ghost w: WorkerId,
        ghost call: CallId, ghost failures: nat)
      returns (outcome: Outcome, ghost run: seq<Event>)
      requires repository.database.Contents() == s.db && AtWork(s, w, job.id, failures)
      requires Stands(s, w, job, ReadyToMark) && call !in s.calls && Honest(s, job.id, call, world)
      modifies repository.database
      ensures Ends(s, run, repository.database.Contents(), w, job.id)
      ensures Means(outcome, repository.database.Contents(), job.id, failures)
      ensures IsAnswered(s.db, repository.database.Contents(), job.id,
                MarkedSince(s.db, job.id, world.markedAt), world, outcome)
    {
      ghost var steps, t, row := SentAfterMark(s, w, job, call, leaseMs, world, failures);
      var marked := repository.Mark(world.markedAt, job.id, job.remoteRequestKey.GetOr(KeyOf(job.id)), leaseMs);
      if marked.None? { return Broken, steps; }
      outcome, run := Conclude(marked.value, world, t, w, call, failures);
      AnsweredAfterMark(s.db, world.markedAt, job, leaseMs, t.db, row, repository.database.Contents(), world, outcome);
      Then(s, steps, t, run, Exec(t, run), w, job.id);
      run := steps + run;
    }

    /** A confirmed lookup before any new write: mark, then persist what was found. */
    method Adopt(job: SocialPublishJob, found: PublishResult, leaseMs: nat, markedAt: Time, ghost s: State,
        ghost w: WorkerId, ghost failures: nat)
      returns (outcome: Outcome, ghost run: seq<Event>)
      requires repository.database.Contents() == s.db && AtWork(s, w, job.id, failures)
      requires Stands(s, w, job, Reconciling) && IsPostOf(s, found.remotePostId, job.id) && s.now <= markedAt
      modifies repository.database
      ensures Ends(s, run, repository.database.Contents(), w, job.id)
      ensures Means(outcome, repository.database.Contents(), job.id, failures)
      ensures outcome == Logged
      ensures IsPublished(s.db, repository.database.Contents(), job.id, found, MarkedSince(s.db, job.id, markedAt))
    {
      ghost var steps, t, row := AdoptedAt(s, w, job, found, leaseMs, markedAt, failures);
      var marked := repository.Mark(markedAt, job.id, job.remoteRequestKey.GetOr(KeyOf(job.id)), leaseMs);
      if marked.None? { return Broken, steps; }
      outcome, run := PersistSuccess(ConfirmedJob(marked.value, found), t, w, failures);
      PublishedAfterMark(s.db, markedAt, job, leaseMs, t.db, row, repository.database.Contents(), found);
      Then(s, steps, t, run, Exec(t, run), w, job.id);
      run := steps + run;
    }

    /** Nothing found, and no write may be repeated. */
    method DeferUnconfirmed(job: SocialPublishJob, now: Time, ghost s: State, ghost w: WorkerId, ghost failures: nat)
      returns (outcome: Outcome, ghost run: seq<Event>)
      requires repository.database.Contents() == s.db && AtWork(s, w, job.id, failures) && s.now <= now
      requires Stands(s, w, job, Reconciling) && job.platform !in s.idempotent
      modifies repository.database
      ensures Ends(s, run, repository.database.Contents(), w, job.id)
      ensures Means(outcome, repository.database.Contents(), job.id, failures)
      ensures IsDeferred(s.db, repository.database.Contents(), job.id, StartedAt(s.db, job.id), now, outcome)
    {
      ghost var steps, t := LookedInVain(s, w, job, now, failures);
      outcome, run := DeferAmbiguousRemoteOutcome(now, job, t, w, failures);
      Then(s, steps, t, run, Exec(t, run), w, job.id);
      run := steps + run;
    }

    /** Nothing found, but the provider deduplicates by key: repeat the write. */
    method Repeat(job: SocialPublishJob, leaseMs: nat, world: World, ghost s: State, ghost w: WorkerId,
        ghost call: CallId, ghost failures: nat)
      returns (outcome: Outcome, ghost run: seq<Event>)
      requires repository.database.Contents() == s.db && AtWork(s, w, job.id, failures)
      requires Stands(s, w, job, Reconciling) && job.platform in s.idempotent
      requires call !in s.calls && Honest(s, job.id, call, world)
      modifies repository.database
      ensures Ends(s, run, repository.database.Contents(), w, job.id)
      ensures Means(outcome, repository.database.Contents(), job.id, failures)
      ensures IsAnswered(s.db, repository.database.Contents(), job.id,
                MarkedSince(s.db, job.id, world.markedAt), world, outcome)
    {
      ghost var steps, t := RepeatsSafely(s, w, job);
      StaysAtWork(s, steps, t, w, job.id, failures);
      StaysHonest(s, t, job.id, call, world);
      outcome, run := MarkAndPublish(job, leaseMs, world, t, w, call, failures);
      Then(s, steps, t, run, Exec(t, run), w, job.id);
      run := steps + run;
    }

    /** What follows the claim; `job` is the claimed row. */
    method Work(job: SocialPublishJob, leaseMs: nat, world: World, ghost s: State, ghost w: WorkerId,
        ghost call: CallId, ghost failures: nat)
      returns (outcome: Outcome, ghost run: seq<Event>)
      requires repository.database.Contents() == s.db && idempotent == s.idempotent && AtWork(s, w, job.id, failures)
      requires Stands(s, w, job, FirstPhase(job)) && call !in s.calls && Honest(s, job.id, call, world)
      requires job.id in s.db.jobs && s.db.jobs[job.id] == job
      modifies repository.database
      ensures Ends(s, run, repository.database.Contents(), w, job.id)
      ensures Means(outcome, repository.database.Contents(), job.id, failures)
      ensures IsProcessed(s.db, repository.database.Contents(), job.id, idempotent, world, outcome)
    {
      if job.status == RemoteConfirmed && job.remotePostId.Some? && job.publishedAt.Some? {
        outcome, run := Finish(job, s, w, failures);
      } else if job.remoteRequestKey.None? {
        outcome, run := MarkAndPublish(job, leaseMs, world, s, w, call, failures);
      } else if world.before.Found? {
        outcome, run := Adopt(job, world.before.result, leaseMs, world.markedAt, s, w, failures);
      } else if job.platform !in idempotent {
        outcome, run := DeferUnconfirmed(job, world.endedAt, s, w, failures);
      } else {
        outcome, run := Repeat(job, leaseMs, world, s, w, call, failures);
      }
    }

    /**
     * `process`: a delivery whose claim matches no row is acknowledged and changes nothing;
     * any other call is one call in the sense of WorkerProgress, and tells the truth.
     */
    method Process(jobId: JobId, leaseMs: nat, queueJobId: Option<nat>, world: World, ghost s: State,
        ghost w: WorkerId, ghost call: CallId)
      returns (outcome: Outcome, ghost run: seq<Event>)
      requires repository.database.Contents() == s.db && idempotent == s.idempotent && Inv(s)
      requires s.now == world.claimedAt
      requires w !in s.workers && call !in s.calls && (queueJobId.Some? ==> queueJobId.value in s.queue)
      requires Honest(s, jobId, call, world)
      modifies repository.database
      ensures outcome == Ignored <==> !Claimable(s.db, world.claimedAt, jobId, queueJobId)
      ensures outcome == Ignored ==> repository.database.Contents() == s.db
      ensures outcome != Ignored ==>
                && IsProcessed(s.db, repository.database.Contents(), jobId, idempotent, world, outcome)
                && IsCall(s, w, jobId, leaseMs, queueJobId, run, repository.database.Contents(), outcome)
    {
      run := [];
      if Claimable(s.db, s.now, jobId, queueJobId) { ClaimedNow(s, w, jobId, leaseMs, queueJobId); }
      var claimed := repository.Claim(world.claimedAt, jobId, leaseMs, queueJobId);
      if claimed.None? { return Ignored, run; }
      outcome, run := WorkOn(claimed.value.job, leaseMs, queueJobId, world, s, w, call);
    }

    /** The rest of `process` once the claim has returned a row. */
    method WorkOn(job: SocialPublishJob, leaseMs: nat, queueJobId: Option<nat>, world: World, ghost s: State,
        ghost w: WorkerId, ghost call: CallId)
      returns (outcome: Outcome, ghost run: seq<Event>)
      requires IsClaimedBy(s, w, job, leaseMs, queueJobId, repository.database.Contents())
      requires idempotent == s.idempotent && call !in s.calls && Honest(s, job.id, call, world)
      modifies repository.database
      ensures IsProcessed(s.db, repository.database.Contents(), job.id, idempotent, world, outcome)
      ensures IsCall(s, w, job.id, leaseMs, queueJobId, run, repository.database.Contents(), outcome)
    {
      ghost var t := AtWorkAfterClaim(s, w, job, leaseMs, queueJobId, repository.database.Contents());
      StaysHonest(s, t, job.id, call, world);
      outcome, run := Work(job, leaseMs, world, t, w, call, FailuresOf(s.db, job.id));
      CallIsOver(s, t, w, job, leaseMs, queueJobId, run, repository.database.Contents(), outcome);
      ProcessedAfterClaim(s.db, s.now, job.id, leaseMs, queueJobId, t.db, repository.database.Contents(), idempotent,
        world, outcome);
    }
  }

  /** `job` is the row that the claim of worker w returned, and db the tables it left. */
  ghost predicate IsClaimedBy(s: State, w: WorkerId, job: SocialPublishJob, leaseMs: nat, queueJobId: Option<nat>,
      db: Db) {
    && Inv(s) && w !in s.workers && (queueJobId.Some? ==> queueJobId.value in s.queue)
    && Claimable(s.db, s.now, job.id, queueJobId) && job == ClaimedRow(s.db.jobs[job.id], s.now, leaseMs)
    && IsUpdatedTo(ClaimPublishJob(s.db, s.now, job.id, leaseMs, queueJobId), db)
  }

  /** The run is one call of the protocol; it leads to these tables, and the outcome is what they say. */
  ghost predicate IsCall(s: State, w: WorkerId, j: JobId, leaseMs: nat, queueJobId: Option<nat>, run: seq<Event>,
      db: Db, outcome: Outcome) {
    && IsOneCall(s, Claim(w, j, leaseMs, queueJobId), run, j)
    && Exec(Next(s, Claim(w, j, leaseMs, queueJobId)), run).db == db
    && Means(outcome, db, j, FailuresOf(s.db, j))
  }

  lemma AtWorkAfterClaim(s: State, w: WorkerId, job: SocialPublishJob, leaseMs: nat, queueJobId: Option<nat>, db: Db)
      returns (t: State)
    requires IsClaimedBy(s, w, job, leaseMs, queueJobId, db)
    ensures t == Next(s, Claim(w, job.id, leaseMs, queueJobId)) && Enabled(s, Claim(w, job.id, leaseMs, queueJobId))
    ensures t.db == db && AtWork(t, w, job.id, FailuresOf(s.db, job.id)) && Stands(t, w, job, FirstPhase(job))
    ensures t.calls == s.calls && t.now == s.now && t.idempotent == s.idempotent && SamePlatform(s, t, job.id)
    ensures job.id in db.jobs && db.jobs[job.id] == job
  {
    ClaimedNow(s, w, job.id, leaseMs, queueJobId);
    ClaimIsBooked(s.db, s.now, job.id, leaseMs, queueJobId, db);
    t := Next(s, Claim(w, job.id, leaseMs, queueJobId));
  }

  lemma CallIsOver(s: State, t: State, w: WorkerId, job: SocialPublishJob, leaseMs: nat, queueJobId: Option<nat>,
      run: seq<Event>, db: Db, outcome: Outcome)
    requires t == Next(s, Claim(w, job.id, leaseMs, queueJobId)) && Enabled(s, Claim(w, job.id, leaseMs, queueJobId))
    requires Ends(t, run, db, w, job.id) && Means(outcome, db, job.id, FailuresOf(s.db, job.id))
    ensures IsCall(s, w, job.id, leaseMs, queueJobId, run, db, outcome)
  {
  }

  // -------------------------------------------------------------- from the rows after a statement to those before

  /** When a request under the key of job j was started. */
  function StartedAt(db: Db, j: JobId): Option<Time> {
    if j in db.jobs then db.jobs[j].remoteRequestStartedAt else None
  }

  /** The same if the row is marked at this time. */
  function MarkedSince(db: Db, j: JobId, markedAt: Time): Option<Time> {
    if j in db.jobs then Some(db.jobs[j].remoteRequestStartedAt.GetOr(markedAt)) else None
  }

  lemma SavedIsPublished(db: Db, after: Db, job: SocialPublishJob, result: PublishResult)
    requires IsSaved(db, after, ConfirmedJob(job, result))
    ensures IsPublished(db, after, job.id, result, StartedAt(db, job.id))
  {
  }

  lemma ConfirmingJob(s: State, w: WorkerId, job: SocialPublishJob, failures: nat)
    requires AtWork(s, w, job.id, failures) && Stands(s, w, job, Confirming)
    ensures job.remotePostId.Some? && job.publishedAt.Some? && job.id in s.db.jobs
  {
  }

  lemma ConfirmedIsSaved(s: State, w: WorkerId, job: SocialPublishJob, middle: Db, row: SocialPublishJob, after: Db,
      failures: nat)
    requires AtWork(s, w, job.id, failures) && Stands(s, w, job, Confirming)
    requires ConfirmRemotePublication(s.db, job) == Updated(middle, row) && row.id == job.id
    requires IsSaved(middle, after, row)
    ensures IsSaved(s.db, after, job)
  {
    ConfirmingJob(s, w, job, failures);
    ConfirmedColumns(s.db, job, middle, row);
    PublishedAfterConfirm(s.db, middle, after, job, row, ResultOf(job), s.db.jobs[job.id].remoteRequestStartedAt);
  }

  lemma ConfirmedColumns(db: Db, job: SocialPublishJob, middle: Db, row: SocialPublishJob)
    requires ConfirmRemotePublication(db, job) == Updated(middle, row) && job.id in db.jobs
    ensures ResultOf(row) == ResultOf(job) && job.id in middle.jobs
    ensures middle.jobs[job.id].remoteRequestStartedAt == db.jobs[job.id].remoteRequestStartedAt
  {
    UpdateKeepsOutbox(db, job.id, row);
  }

  lemma AnsweredAfterMark(db: Db, now: Time, job: SocialPublishJob, leaseMs: nat, middle: Db, row: SocialPublishJob,
      after: Db, world: World, outcome: Outcome)
    requires MarkOutcomeOf(db, now, job, leaseMs) == Updated(middle, row)
    requires job.id in middle.jobs
    requires IsAnswered(middle, after, job.id, middle.jobs[job.id].remoteRequestStartedAt, world, outcome)
    ensures IsAnswered(db, after, job.id, MarkedSince(db, job.id, now), world, outcome)
  {
    MarkIsBooked(db, now, job.id, job.remoteRequestKey.GetOr(KeyOf(job.id)), leaseMs, middle, row);
    AnsweredAfterBooking(db, middle, after, job.id, MarkedSince(db, job.id, now), world, outcome);
  }

  lemma PublishedAfterMark(db: Db, now: Time, job: SocialPublishJob, leaseMs: nat, middle: Db, row: SocialPublishJob,
      after: Db, result: PublishResult)
    requires MarkOutcomeOf(db, now, job, leaseMs) == Updated(middle, row) && row.id == job.id
    requires IsSaved(middle, after, ConfirmedJob(row, result))
    ensures IsPublished(db, after, job.id, result, MarkedSince(db, job.id, now))
  {
    MarkIsBooked(db, now, job.id, job.remoteRequestKey.GetOr(KeyOf(job.id)), leaseMs, middle, row);
    PublishedAfterBooking(db, middle, after, job.id, result, MarkedSince(db, job.id, now));
  }

  lemma ProcessedAfterClaim(db: Db, now: Time, j: JobId, leaseMs: nat, queueJobId: Option<nat>, middle: Db, after: Db,
      idempotent: set<SocialPlatform>, world: World, outcome: Outcome)
    requires IsUpdatedTo(ClaimPublishJob(db, now, j, leaseMs, queueJobId), middle)
    requires IsProcessed(middle, after, j, idempotent, world, outcome)
    ensures IsProcessed(db, after, j, idempotent, world, outcome)
  {
    ClaimIsBooked(db, now, j, leaseMs, queueJobId, middle);
    ProcessedAfterBooking(db, middle, after, j, idempotent, world, outcome);
  }

  function FailuresOf(db: Db, j: JobId): nat {
    if j in db.jobs then db.jobs[j].retryCount else 0
  }

  // -------------------------------------------------------------- how an answer moves the protocol

  predicate IsUndecided(s: State, call: CallId, j: JobId) {
    call in s.calls && s.calls[call].jobId == j && s.calls[call].state == InFlight
  }

  /** Worker w waits for its only call, which the provider has not decided. */
  predicate IsSent(s: State, w: WorkerId, call: CallId, job: SocialPublishJob) {
    Stands(s, w, job, AwaitingProvider(call)) && IsUndecided(s, call, job.id)
  }

  ghost predicate AnswersHonestly(s: State, call: CallId, world: World) {
    && (world.answer.Posted? ==> MayAccept(s, call, world.answer.result.remotePostId))
    && (world.after.Found? ==> MayAccept(s, call, world.after.result.remotePostId))
  }

  lemma One(s: State, e: Event, w: WorkerId, j: JobId)
    requires Enabled(s, e) && Undisturbed(s, e, w, j)
    ensures Leads(s, [e], Next(s, e), w, j)
  {
    OneEvent(s, e, w, j);
  }

  lemma Two(s: State, a: Event, b: Event, w: WorkerId, j: JobId)
    requires Enabled(s, a) && Undisturbed(s, a, w, j) && Enabled(Next(s, a), b) && Undisturbed(Next(s, a), b, w, j)
    ensures Leads(s, [a, b], Next(Next(s, a), b), w, j)
  {
    One(s, a, w, j);
    Step(s, [a], Next(s, a), b, w, j);
    assert [a] + [b] == [a, b];
  }

  lemma ConfirmedNow(s: State, w: WorkerId, job: SocialPublishJob, failures: nat)
      returns (t: State, row: SocialPublishJob)
    requires AtWork(s, w, job.id, failures) && Stands(s, w, job, Confirming)
    ensures ConfirmRemotePublication(s.db, job) == Updated(t.db, row) && row.id == job.id
    ensures Leads(s, [Confirm(w)], t, w, job.id) && AtWork(t, w, job.id, failures) && Stands(t, w, row, Finishing)
  {
    ConfirmingIsStored(s, w, job, failures);
    t, row := ConfirmStep(s, w), ConfirmRemotePublication(s.db, job).row;
    ConfirmedWorker(s, w);
    One(s, Confirm(w), w, job.id);
    StaysAtWork(s, [Confirm(w)], t, w, job.id, failures);
    LocalFacts(s, w);
    ConfirmOutcome(s.db, job);
  }

  lemma ConfirmedWorker(s: State, w: WorkerId)
    requires w in s.workers
    ensures var t, outcome := ConfirmStep(s, w), ConfirmRemotePublication(s.db, s.workers[w].job);
            outcome.Updated? ==> Stands(t, w, outcome.row, Finishing) && t.db == outcome.db
  {
  }

  predicate IsAccepted(s: State, w: WorkerId, call: CallId, job: SocialPublishJob, r: RemoteId) {
    && Stands(s, w, job, AwaitingProvider(call))
    && call in s.calls && s.calls[call].jobId == job.id && s.calls[call].state == Accepted(r)
  }

  lemma AcceptedBy(s: State, w: WorkerId, call: CallId, job: SocialPublishJob, r: RemoteId) returns (t: State)
    requires IsSent(s, w, call, job) && MayAccept(s, call, r)
    ensures Leads(s, [Accept(call, r)], t, w, job.id) && t.db == s.db && t == SetCall(s, call, Accepted(r))
    ensures IsAccepted(t, w, call, job, r)
  {
    t := Next(s, Accept(call, r));
    One(s, Accept(call, r), w, job.id);
  }

  lemma Received(s: State, w: WorkerId, call: CallId, job: SocialPublishJob, result: PublishResult)
      returns (steps: seq<Event>, t: State)
    requires IsSent(s, w, call, job) && MayAccept(s, call, result.remotePostId)
    ensures Leads(s, steps, t, w, job.id) && t.db == s.db && Stands(t, w, ConfirmedJob(job, result), Confirming)
  {
    var u := AcceptedBy(s, w, call, job, result.remotePostId);
    var b := ReceiveSuccess(w, result.remotePostUrl, result.publishedAt);
    Step(s, [Accept(call, result.remotePostId)], u, b, w, job.id);
    steps, t := [Accept(call, result.remotePostId)] + [b], Next(u, b);
  }

  lemma AcceptedPostExists(s: State, t: State, call: CallId, r: RemoteId, j: JobId)
    requires CallsInv(s) && MayAccept(s, call, r) && s.calls[call].jobId == j && t == SetCall(s, call, Accepted(r))
    ensures IsPostOf(t, r, j)
  {
    assert CallInv(s, call);
    if r != call { assert CallInv(s, r); }
  }

  lemma HeardUnclear(s: State, w: WorkerId, call: CallId, job: SocialPublishJob, error: ThrownError) returns (t: State)
    requires Stands(s, w, job, AwaitingProvider(call)) && call in s.calls && ClassifyPublishFailure(error).ambiguous
    ensures Leads(s, [ReceiveFailure(w, error)], t, w, job.id) && t.db == s.db && t.now == s.now && t.calls == s.calls
    ensures Stands(t, w, job, Rechecking(ClassifyPublishFailure(error)))
  {
    t := Next(s, ReceiveFailure(w, error));
    One(s, ReceiveFailure(w, error), w, job.id);
  }

  lemma FoundAt(s: State, w: WorkerId, job: SocialPublishJob, failure: PublishFailure, result: PublishResult)
      returns (t: State)
    requires Stands(s, w, job, Rechecking(failure)) && IsPostOf(s, result.remotePostId, job.id)
    ensures Leads(s, [FindPost(w, result)], t, w, job.id) && t.db == s.db
    ensures Stands(t, w, ConfirmedJob(job, result), Confirming)
  {
    t := Next(s, FindPost(w, result));
    One(s, FindPost(w, result), w, job.id);
  }

  lemma FoundLater(s: State, w: WorkerId, call: CallId, job: SocialPublishJob, error: ThrownError,
      result: PublishResult)
    returns (steps: seq<Event>, t: State)
    requires IsSent(s, w, call, job) && MayAccept(s, call, result.remotePostId)
    requires ClassifyPublishFailure(error).ambiguous
    requires CallsInv(s)
    ensures Leads(s, steps, t, w, job.id) && t.db == s.db && Stands(t, w, ConfirmedJob(job, result), Confirming)
  {
    var u := AcceptedBy(s, w, call, job, result.remotePostId);
    AcceptedPostExists(s, u, call, result.remotePostId, job.id);
    var v := HeardUnclear(u, w, call, job, error);
    t := FoundAt(v, w, job, ClassifyPublishFailure(error), result);
    Then(u, [ReceiveFailure(w, error)], v, [FindPost(w, result)], t, w, job.id);
    Then(s, [Accept(call, result.remotePostId)], u, [ReceiveFailure(w, error)] + [FindPost(w, result)], t, w, job.id);
    steps := [Accept(call, result.remotePostId)] + ([ReceiveFailure(w, error)] + [FindPost(w, result)]);
  }

  lemma RecheckDefers(s: State, w: WorkerId, job: SocialPublishJob, failure: PublishFailure)
    requires Stands(s, w, job, Rechecking(failure))
    ensures Enabled(s, MissPost(w)) && Next(s, MissPost(w)) == Deferral(s, w, FailedJob(job, failure))
  {
    assert MissStep(s, w) == BeginDefer(s, w, FailedJob(job, failure));
  }

  lemma TickedTo(s: State, to: Time, w: WorkerId, j: JobId) returns (t: State)
    requires s.now <= to
    ensures Leads(s, [Tick(to)], t, w, j) && t == s.(now := to)
  {
    t := Next(s, Tick(to));
    One(s, Tick(to), w, j);
  }

  lemma StillUnclear(s: State, w: WorkerId, call: CallId, job: SocialPublishJob, error: ThrownError, to: Time)
    returns (steps: seq<Event>, t: State)
    requires IsSent(s, w, call, job) && ClassifyPublishFailure(error).ambiguous && s.now <= to
    ensures Leads(s, steps, t, w, job.id)
    ensures t.db == s.db && t.now == to && w in t.workers
    ensures Enabled(t, MissPost(w))
    ensures Next(t, MissPost(w)) == Deferral(t, w, FailedJob(job, ClassifyPublishFailure(error)))
  {
    var u := HeardUnclear(s, w, call, job, error);
    t := TickedTo(u, to, w, job.id);
    steps := [ReceiveFailure(w, error)] + [Tick(to)];
    Then(s, [ReceiveFailure(w, error)], u, [Tick(to)], t, w, job.id);
    RecheckDefers(t, w, job, ClassifyPublishFailure(error));
  }

  lemma RefusedCall(s: State, w: WorkerId, call: CallId, job: SocialPublishJob) returns (t: State)
    requires IsSent(s, w, call, job)
    ensures Leads(s, [Refuse(call)], t, w, job.id) && t == SetCall(s, call, Refused)
  {
    t := Next(s, Refuse(call));
    One(s, Refuse(call), w, job.id);
  }

  lemma RefusedBy(s: State, w: WorkerId, call: CallId, job: SocialPublishJob, error: ThrownError, to: Time)
    returns (steps: seq<Event>, t: State)
    requires IsSent(s, w, call, job) && !ClassifyPublishFailure(error).ambiguous && s.now <= to
    ensures Leads(s, steps, t, w, job.id) && t.db == s.db && t.now == to && Stands(t, w, job, AwaitingProvider(call))
    ensures Enabled(t, ReceiveFailure(w, error))
  {
    var u := RefusedCall(s, w, call, job);
    t := TickedTo(u, to, w, job.id);
    steps := [Refuse(call)] + [Tick(to)];
    Then(s, [Refuse(call)], u, [Tick(to)], t, w, job.id);
  }

  // -------------------------------------------------------------- mark and send

  function MarkOutcomeOf(db: Db, now: Time, job: SocialPublishJob, leaseMs: nat): SqlOutcome {
    MarkRemoteRequesting(db, now, job.id, job.remoteRequestKey.GetOr(KeyOf(job.id)), leaseMs)
  }

  lemma MarkedWorker(s: State, w: WorkerId, job: SocialPublishJob, leaseMs: nat)
    requires Stands(s, w, job, ReadyToMark)
    ensures var t, outcome := MarkStep(s, w, leaseMs), MarkOutcomeOf(s.db, s.now, job, leaseMs);
            && t.db == After(outcome, s.db) && t.calls == s.calls && t.now == s.now && t.idempotent == s.idempotent
            && (outcome.Updated? ==> Stands(t, w, outcome.row, Marked))
  {
  }

  lemma ClaimedRowOf(s: State, w: WorkerId, job: SocialPublishJob, failures: nat)
    requires AtWork(s, w, job.id, failures) && (Stands(s, w, job, ReadyToMark) || Stands(s, w, job, Reconciling))
    ensures job.id in s.db.jobs && s.db.jobs[job.id] == job && JobChecks(job) && job.status == Claimed
  {
    LocalFacts(s, w);
  }

  lemma MarkSteps(s: State, w: WorkerId, job: SocialPublishJob, leaseMs: nat, to: Time)
      returns (steps: seq<Event>, t: State)
    requires Stands(s, w, job, ReadyToMark) && s.now <= to
    ensures w in s.workers && t == MarkStep(s.(now := to), w, leaseMs) && Leads(s, steps, t, w, job.id)
  {
    var u := TickedTo(s, to, w, job.id);
    One(u, Mark(w, leaseMs), w, job.id);
    steps, t := [Tick(to)] + [Mark(w, leaseMs)], Next(u, Mark(w, leaseMs));
    Then(s, [Tick(to)], u, [Mark(w, leaseMs)], t, w, job.id);
  }

  predicate SamePlatform(s: State, t: State, j: JobId) {
    j in s.db.jobs && j in t.db.jobs && t.db.jobs[j].platform == s.db.jobs[j].platform
  }

  lemma MarkedAt(s: State, w: WorkerId, job: SocialPublishJob, leaseMs: nat, to: Time, failures: nat)
    returns (steps: seq<Event>, t: State, row: SocialPublishJob)
    requires AtWork(s, w, job.id, failures) && Stands(s, w, job, ReadyToMark) && s.now <= to
    ensures Leads(s, steps, t, w, job.id) && t.calls == s.calls && t.now == to && t.idempotent == s.idempotent
    ensures MarkOutcomeOf(s.db, to, job, leaseMs) == Updated(t.db, row) && row.id == job.id && Stands(t, w, row, Marked)
    ensures AtWork(t, w, job.id, failures) && SamePlatform(s, t, job.id)
  {
    ClaimedRowOf(s, w, job, failures);
    MarkOutcome(s.db, to, job, leaseMs);
    MarkedWorker(s.(now := to), w, job, leaseMs);
    row := MarkOutcomeOf(s.db, to, job, leaseMs).row;
    steps, t := MarkSteps(s, w, job, leaseMs, to);
    StaysAtWork(s, steps, t, w, job.id, failures);
  }

  lemma MarkedKey(s: State, w: WorkerId)
    requires Local(s, w) && s.workers[w].phase.Marked?
    ensures s.workers[w].job.remoteRequestKey == Some(KeyOf(s.workers[w].job.id))
    ensures s.workers[w].job.platform == s.db.jobs[s.workers[w].job.id].platform
  {
  }

  lemma SentIsAcceptable(s: State, w: WorkerId, job: SocialPublishJob, call: CallId, r: RemoteId)
    requires Stands(s, w, job, Marked) && call !in s.calls && job.remoteRequestKey == Some(KeyOf(job.id))
    requires Acceptable(s, job.platform, KeyOf(job.id), call, r)
    ensures MayAccept(SendStep(s, w, call), call, r)
  {
    var t := SendStep(s, w, call);
    assert t.calls == s.calls[call := t.calls[call]] && t.idempotent == s.idempotent;
    assert t.calls[call].platform == job.platform && t.calls[call].key == KeyOf(job.id);
    if t.calls[call].platform in t.idempotent && r == call {
      forall d | d in t.calls ensures !Deduplicates(t, call, d) {
        assert d != call ==> !KnownPost(s, job.platform, KeyOf(job.id), d);
      }
    }
  }

  lemma SentCall(s: State, w: WorkerId, job: SocialPublishJob, call: CallId) returns (t: State)
    requires Stands(s, w, job, Marked) && call !in s.calls
    ensures Leads(s, [Send(w, call)], t, w, job.id) && t == SendStep(s, w, call)
  {
    t := Next(s, Send(w, call));
    One(s, Send(w, call), w, job.id);
  }

  lemma SentNow(s: State, w: WorkerId, job: SocialPublishJob, call: CallId, world: World) returns (t: State)
    requires Inv(s) && Stands(s, w, job, Marked) && call !in s.calls && HonestAnswers(s, job.id, call, world)
    ensures Leads(s, [Send(w, call)], t, w, job.id) && t.db == s.db && t.now == s.now
    ensures IsSent(t, w, call, job) && AnswersHonestly(t, call, world)
  {
    t := SentCall(s, w, job, call);
    MarkedFacts(s, w);
    SentFacts(s, w, job, call);
    SentHonestly(s, w, job, call, world);
  }

  lemma SentFacts(s: State, w: WorkerId, job: SocialPublishJob, call: CallId)
    requires Stands(s, w, job, Marked)
    ensures var t := SendStep(s, w, call);
            t.db == s.db && t.now == s.now && IsSent(t, w, call, job)
  {
  }

  lemma MarkedFacts(s: State, w: WorkerId)
    requires Inv(s) && w in s.workers && s.workers[w].phase.Marked?
    ensures s.workers[w].job.remoteRequestKey == Some(KeyOf(s.workers[w].job.id)) && IsRowPlatform(s, s.workers[w].job)
  {
    LocalFacts(s, w);
    MarkedKey(s, w);
  }

  lemma SentHonestly(s: State, w: WorkerId, job: SocialPublishJob, call: CallId, world: World)
    requires Stands(s, w, job, Marked) && call !in s.calls && HonestAnswers(s, job.id, call, world)
    requires job.remoteRequestKey == Some(KeyOf(job.id)) && IsRowPlatform(s, job)
    ensures AnswersHonestly(SendStep(s, w, call), call, world)
  {
    if world.answer.Posted? { SentIsAcceptable(s, w, job, call, world.answer.result.remotePostId); }
    if world.after.Found? { SentIsAcceptable(s, w, job, call, world.after.result.remotePostId); }
  }

  predicate IsRowPlatform(s: State, job: SocialPublishJob) {
    job.id in s.db.jobs && s.db.jobs[job.id].platform == job.platform
  }

  lemma SentAtWork(s: State, w: WorkerId, job: SocialPublishJob, call: CallId, world: World, failures: nat)
      returns (t: State)
    requires AtWork(s, w, job.id, failures) && Stands(s, w, job, Marked) && call !in s.calls
    requires HonestAnswers(s, job.id, call, world)
    ensures Leads(s, [Send(w, call)], t, w, job.id) && t.db == s.db && t.now == s.now
    ensures IsSent(t, w, call, job) && AnswersHonestly(t, call, world) && AtWork(t, w, job.id, failures)
  {
    t := SentNow(s, w, job, call, world);
    StaysAtWork(s, [Send(w, call)], t, w, job.id, failures);
  }

  lemma AnswersStayHonest(s: State, t: State, j: JobId, call: CallId, world: World)
    requires HonestAnswers(s, j, call, world) && t.calls == s.calls && t.idempotent == s.idempotent
    requires SamePlatform(s, t, j)
    ensures HonestAnswers(t, j, call, world)
  {
    var platform := t.db.jobs[j].platform;
    if world.answer.Posted? { SameAnswers(s, t, platform, KeyOf(j), call, world.answer.result.remotePostId); }
    if world.after.Found? { SameAnswers(s, t, platform, KeyOf(j), call, world.after.result.remotePostId); }
  }

  lemma StaysHonest(s: State, t: State, j: JobId, call: CallId, world: World)
    requires Honest(s, j, call, world) && t.calls == s.calls && t.idempotent == s.idempotent && t.now == s.now
    requires SamePlatform(s, t, j)
    ensures Honest(t, j, call, world)
  {
    AnswersStayHonest(s, t, j, call, world);
  }

  lemma SameAnswers(s: State, t: State, platform: SocialPlatform, key: RequestKey, call: CallId, r: RemoteId)
    requires t.calls == s.calls && t.idempotent == s.idempotent
    ensures Acceptable(t, platform, key, call, r) <==> Acceptable(s, platform, key, call, r)
  {
    assert forall d :: KnownPost(t, platform, key, d) <==> KnownPost(s, platform, key, d);
  }

  lemma SentAfterMark(s: State, w: WorkerId, job: SocialPublishJob, call: CallId, leaseMs: nat, world: World,
      failures: nat)
    returns (steps: seq<Event>, t: State, row: SocialPublishJob)
    requires AtWork(s, w, job.id, failures) && Stands(s, w, job, ReadyToMark) && call !in s.calls
    requires Honest(s, job.id, call, world)
    ensures MarkOutcomeOf(s.db, world.markedAt, job, leaseMs) == Updated(t.db, row) && row.id == job.id
    ensures t.now <= world.endedAt
    ensures Leads(s, steps, t, w, job.id) && IsSent(t, w, call, row) && AnswersHonestly(t, call, world)
    ensures AtWork(t, w, job.id, failures)
  {
    var first, u;
    first, u, row := MarkedAt(s, w, job, leaseMs, world.markedAt, failures);
    AnswersStayHonest(s, u, job.id, call, world);
    t := SentAtWork(u, w, row, call, world, failures);
    Then(s, first, u, [Send(w, call)], t, w, job.id);
    steps := first + [Send(w, call)];
  }

  // -------------------------------------------------------------- the lookup before

  function AsRemarking(s: State, w: WorkerId, found: PublishResult, to: Time): State {
    if w in s.workers then s.(now := to, workers := s.workers[w := s.workers[w].(phase := Remarking(found))]) else s
  }

  lemma FoundBefore(s: State, w: WorkerId, job: SocialPublishJob, found: PublishResult)
    requires Stands(s, w, job, Reconciling) && IsPostOf(s, found.remotePostId, job.id)
    ensures Enabled(s, FindPost(w, found)) && Next(s, FindPost(w, found)) == AsRemarking(s, w, found, s.now)
  {
  }

  lemma AdoptedWorker(s: State, w: WorkerId, job: SocialPublishJob, found: PublishResult, leaseMs: nat)
    requires Stands(s, w, job, Remarking(found))
    ensures var t, outcome := MarkStep(s, w, leaseMs), MarkOutcomeOf(s.db, s.now, job, leaseMs);
            && t.db == After(outcome, s.db)
            && (outcome.Updated? ==> Stands(t, w, ConfirmedJob(outcome.row, found), Confirming))
  {
  }

  lemma AdoptSteps(s: State, w: WorkerId, job: SocialPublishJob, found: PublishResult, leaseMs: nat, to: Time)
    returns (steps: seq<Event>, t: State)
    requires Stands(s, w, job, Reconciling) && s.now <= to && IsPostOf(s, found.remotePostId, job.id)
    ensures w in AsRemarking(s, w, found, to).workers && t == MarkStep(AsRemarking(s, w, found, to), w, leaseMs)
    ensures Leads(s, steps, t, w, job.id)
  {
    FoundBefore(s, w, job, found);
    Two(s, FindPost(w, found), Tick(to), w, job.id);
    var v := AsRemarking(s, w, found, to);
    Step(s, [FindPost(w, found), Tick(to)], v, Mark(w, leaseMs), w, job.id);
    steps, t := [FindPost(w, found), Tick(to)] + [Mark(w, leaseMs)], MarkStep(v, w, leaseMs);
  }

  lemma AdoptedAt(s: State, w: WorkerId, job: SocialPublishJob, found: PublishResult, leaseMs: nat, to: Time,
      failures: nat)
    returns (steps: seq<Event>, t: State, row: SocialPublishJob)
    requires AtWork(s, w, job.id, failures) && Stands(s, w, job, Reconciling) && s.now <= to
    requires IsPostOf(s, found.remotePostId, job.id)
    ensures MarkOutcomeOf(s.db, to, job, leaseMs) == Updated(t.db, row) && row.id == job.id
    ensures Leads(s, steps, t, w, job.id)
    ensures Stands(t, w, ConfirmedJob(row, found), Confirming) && AtWork(t, w, job.id, failures)
  {
    ClaimedRowOf(s, w, job, failures);
    MarkOutcome(s.db, to, job, leaseMs);
    row := MarkOutcomeOf(s.db, to, job, leaseMs).row;
    steps, t := AdoptSteps(s, w, job, found, leaseMs, to);
    AdoptedWorker(AsRemarking(s, w, found, to), w, job, found, leaseMs);
    StaysAtWork(s, steps, t, w, job.id, failures);
  }

  function AsReady(s: State, w: WorkerId): State {
    if w in s.workers then s.(workers := s.workers[w := s.workers[w].(phase := ReadyToMark)]) else s
  }

  lemma MissWhileReconciling(s: State, w: WorkerId, job: SocialPublishJob)
    requires Stands(s, w, job, Reconciling)
    ensures Enabled(s, MissPost(w))
    ensures Next(s, MissPost(w)) == if job.platform in s.idempotent then AsReady(s, w) else Deferral(s, w, job)
  {
  }

  lemma WaitsAtWork(s: State, w: WorkerId, j: JobId, to: Time, failures: nat)
    requires AtWork(s, w, j, failures) && s.now <= to
    ensures Leads(s, [Tick(to)], s.(now := to), w, j) && AtWork(s.(now := to), w, j, failures)
  {
    var t := TickedTo(s, to, w, j);
    StaysAtWork(s, [Tick(to)], t, w, j, failures);
  }

  lemma LookedInVain(s: State, w: WorkerId, job: SocialPublishJob, to: Time, failures: nat)
      returns (steps: seq<Event>, t: State)
    requires AtWork(s, w, job.id, failures) && Stands(s, w, job, Reconciling) && s.now <= to
    requires job.platform !in s.idempotent
    ensures Leads(s, steps, t, w, job.id) && t == s.(now := to) && AtWork(t, w, job.id, failures)
    ensures job.status == Claimed
    ensures Enabled(t, MissPost(w)) && Next(t, MissPost(w)) == Deferral(t, w, job)
  {
    steps, t := [Tick(to)], s.(now := to);
    ClaimedRowOf(s, w, job, failures);
    WaitsAtWork(s, w, job.id, to, failures);
    MissWhileReconciling(t, w, job);
  }

  lemma RepeatsSafely(s: State, w: WorkerId, job: SocialPublishJob) returns (steps: seq<Event>, t: State)
    requires Stands(s, w, job, Reconciling) && job.platform in s.idempotent
    ensures Leads(s, steps, t, w, job.id) && t == AsReady(s, w) && Stands(t, w, job, ReadyToMark)
  {
    MissWhileReconciling(s, w, job);
    One(s, MissPost(w), w, job.id);
    steps, t := [MissPost(w)], AsReady(s, w);
  }

  lemma ClaimedNow(s: State, w: WorkerId, j: JobId, leaseMs: nat, queueJobId: Option<nat>)
    requires Inv(s) && w !in s.workers && Claimable(s.db, s.now, j, queueJobId)
    requires queueJobId.Some? ==> queueJobId.value in s.queue
    ensures Enabled(s, Claim(w, j, leaseMs, queueJobId)) && j in s.db.jobs && s.db.jobs[j].id == j
    ensures var t := Next(s, Claim(w, j, leaseMs, queueJobId));
            var row := ClaimedRow(s.db.jobs[j], s.now, leaseMs);
            && IsUpdatedTo(ClaimPublishJob(s.db, s.now, j, leaseMs, queueJobId), t.db)
            && AtWork(t, w, j, FailuresOf(s.db, j)) && t.calls == s.calls && t.now == s.now
            && t.idempotent == s.idempotent
            && SamePlatform(s, t, j) && Stands(t, w, row, FirstPhase(row))
  {
    assert JobInv(s, j);
    ClaimIsEnabled(s, w, j, leaseMs, queueJobId);
    ClaimedFacts(s, w, j, leaseMs, queueJobId);
    ClaimStartsOnTrack(s, w, j, leaseMs, queueJobId);
    StepKeepsInv(s, Claim(w, j, leaseMs, queueJobId));
  }

  lemma ClaimIsEnabled(s: State, w: WorkerId, j: JobId, leaseMs: nat, queueJobId: Option<nat>)
    requires w !in s.workers && Claimable(s.db, s.now, j, queueJobId)
    requires queueJobId.Some? ==> queueJobId.value in s.queue
    requires j in s.db.jobs && JobChecks(s.db.jobs[j])
    ensures Enabled(s, Claim(w, j, leaseMs, queueJobId))
    ensures Next(s, Claim(w, j, leaseMs, queueJobId)) == ClaimStep(s, w, j, leaseMs, queueJobId)
  {
    ClaimPassesChecks(s.db, s.now, j, leaseMs, queueJobId);
  }

  lemma ClaimedFacts(s: State, w: WorkerId, j: JobId, leaseMs: nat, queueJobId: Option<nat>)
    requires w !in s.workers && Claimable(s.db, s.now, j, queueJobId) && RowOk(s.db.jobs[j], s.now)
    ensures var t, row := ClaimStep(s, w, j, leaseMs, queueJobId), ClaimedRow(s.db.jobs[j], s.now, leaseMs);
            && IsUpdatedTo(ClaimPublishJob(s.db, s.now, j, leaseMs, queueJobId), t.db)
            && t.calls == s.calls && t.now == s.now && t.idempotent == s.idempotent
            && SamePlatform(s, t, j) && Stands(t, w, row, FirstPhase(row))
  {
    var t := ClaimedState(s, w, j, leaseMs, queueJobId);
  }
}
