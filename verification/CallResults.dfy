/**
 * What one call of `process` leaves in the tables and tells its caller, column by column, as
 * backend/src/publishing/publish-worker.processor.ts and the statements it runs have it. The
 * program is proved against these words; they do not use its functions.
 */
module CallResults {
  import opened Wrappers
  import opened PostEntity
  import opened RetryPolicy
  import opened Schema
  import opened PublishOutboxRepository
  import opened PublishingService

  // What an adapter's lookup reports: `confirmed`, or anything else.
  datatype Lookup = Found(result: PublishResult) | NotConfirmed

  // PublishingService.publish: the adapter's result, or what it threw.
  datatype Answer = Posted(result: PublishResult) | Threw(error: ThrownError)

  // What the world answers during one call, and the clock at its statements.
  datatype World = World(claimedAt: Time, before: Lookup, markedAt: Time, answer: Answer, after: Lookup, endedAt: Time)

  // null, a log context, PublishJobFailedError, PublishJobTerminalError, or an error out of the repository.
  datatype Outcome = Ignored | Logged | RetryScheduled | GivenUp | Broken

  // -------------------------------------------------------------- the three ends

  /** Published as the result says, with its row of social_posts. */
  ghost predicate IsPublished(before: Db, after: Db, j: JobId, result: PublishResult, startedAt: Option<Time>) {
    && j in before.jobs
    && var row := before.jobs[j];
       after == before.(
         jobs := before.jobs[j := row.(
           status := Published, publishedAt := Some(result.publishedAt), remotePostId := Some(result.remotePostId),
           remotePostUrl := result.remotePostUrl, errorCode := None, errorMessage := None, leaseExpiresAt := None,
           nextRetryAt := None, remoteRequestKey := Some(SocialPublish(j)), remoteRequestStartedAt := startedAt)],
         socialPosts := before.socialPosts[j := SocialPostRow(
           row.postId, row.accountId, row.platform, result.remotePostId, result.remotePostUrl, result.publishedAt)])
  }

  /** When the next attempt is due after a failure that follows so many others. */
  function NextAttempt(failures: nat, now: Time): Time {
    if failures == 0 then now + 30_000 else if failures == 1 then now + 120_000 else now + 600_000
  }

  /** The alert of a final failure, unless the job has one. */
  function Alerted(before: Db, j: JobId, row: SocialPublishJob, code: ErrorCode, message: Message, now: Time)
    : map<JobId, AlertRow>
  {
    if j in before.alerts then before.alerts
    else before.alerts[j := AlertRow(row.postId, row.platform, code, message, row.retryCount + 1,
                                     PendingAlert, 0, now, None, None, None, now)]
  }

  /** The code of a 4xx answer. */
  function CodeOf(status: nat): ErrorCode {
    if status == 401 then TokenExpired
    else if status == 403 then PermissionDenied
    else if status == 429 then RateLimited
    else InvalidRequest
  }

  /**
   * A definite failure clears the request key. It is retried exactly if the provider said 429 and
   * the job had failed at most twice before; otherwise the job has failed for good.
   */
  ghost predicate IsRefused(before: Db, after: Db, j: JobId, error: ThrownError, now: Time, outcome: Outcome) {
    && j in before.jobs && error.HttpStatus?
    && var row := before.jobs[j];
       var refused := row.(
         errorCode := Some(CodeOf(error.status)), errorMessage := Some(Said(error.message)),
         retryCount := row.retryCount + 1, leaseExpiresAt := None, remoteRequestKey := None,
         remoteRequestStartedAt := None);
       if error.status == 429 && row.retryCount <= 2 then
         && outcome == RetryScheduled
         && after == before.(jobs := before.jobs[j := refused.(
              status := Retrying, nextRetryAt := Some(NextAttempt(row.retryCount, now)))])
       else
         && outcome == GivenUp
         && after == before.(
              jobs := before.jobs[j := refused.(status := Failed, nextRetryAt := None)],
              alerts := Alerted(before, j, row, CodeOf(error.status), Said(error.message), now))
  }

  /**
   * An outcome nobody knows keeps the request key, and the row stays remote_requesting until a
   * later call has looked it up; the fourth failure is final.
   */
  ghost predicate IsDeferred(before: Db, after: Db, j: JobId, startedAt: Option<Time>, now: Time, outcome: Outcome) {
    && j in before.jobs
    && var row := before.jobs[j];
       var deferred := row.(
         errorCode := Some(AmbiguousRemoteOutcome), errorMessage := Some(ReconciliationRequired),
         retryCount := row.retryCount + 1, leaseExpiresAt := None, remoteRequestKey := Some(SocialPublish(j)),
         remoteRequestStartedAt := startedAt);
       if row.retryCount <= 2 then
         && outcome == RetryScheduled
         && after == before.(jobs := before.jobs[j := deferred.(
              status := RemoteRequesting, nextRetryAt := Some(NextAttempt(row.retryCount, now)))])
       else
         && outcome == GivenUp
         && after == before.(
              jobs := before.jobs[j := deferred.(status := Failed, nextRetryAt := None)],
              alerts := Alerted(before, j, row, AmbiguousRemoteOutcome, ReconciliationRequired, now))
  }

  // -------------------------------------------------------------- which end it is

  /** A 4xx answer is definite; after any other error the post is looked up once more. */
  ghost predicate IsAnswered(before: Db, after: Db, j: JobId, startedAt: Option<Time>, world: World, outcome: Outcome) {
    match world.answer
    case Posted(result) => outcome == Logged && IsPublished(before, after, j, result, startedAt)
    case Threw(error) =>
      if error.HttpStatus? && 400 <= error.status < 500 then
        IsRefused(before, after, j, error, world.endedAt, outcome)
      else if world.after.Found? then outcome == Logged && IsPublished(before, after, j, world.after.result, startedAt)
      else IsDeferred(before, after, j, startedAt, world.endedAt, outcome)
  }

  /**
   * The whole call. A confirmed row is only saved; a row with a request key is looked up first,
   * and without idempotent publish it is not sent again; every other row is marked and sent.
   */
  ghost predicate IsProcessed(before: Db, after: Db, j: JobId, idempotent: set<SocialPlatform>, world: World,
      outcome: Outcome) {
    && j in before.jobs
    && var row := before.jobs[j];
       var marked := Some(row.remoteRequestStartedAt.GetOr(world.markedAt));
       if row.status == RemoteConfirmed then
         && outcome == Logged && row.remotePostId.Some? && row.publishedAt.Some?
         && IsPublished(before, after, j, PublishResult(row.remotePostId.value, row.remotePostUrl,
              row.publishedAt.value), row.remoteRequestStartedAt)
       else if row.remoteRequestKey.None? then IsAnswered(before, after, j, marked, world, outcome)
       else if world.before.Found? then outcome == Logged && IsPublished(before, after, j, world.before.result, marked)
       else if row.platform !in idempotent then
         IsDeferred(before, after, j, row.remoteRequestStartedAt, world.endedAt, outcome)
       else IsAnswered(before, after, j, marked, world, outcome)
  }

  // -------------------------------------------------------------- the bookkeeping in between

  /** A claim or a mark wrote row j; each end overwrites what they wrote. */
  ghost predicate OnlyBooked(before: Db, middle: Db, j: JobId) {
    && j in before.jobs && j in middle.jobs
    && var row := middle.jobs[j];
       middle == before.(jobs := before.jobs[j := before.jobs[j].(
         status := row.status, leaseExpiresAt := row.leaseExpiresAt, nextRetryAt := row.nextRetryAt,
         remoteRequestKey := row.remoteRequestKey, remoteRequestStartedAt := row.remoteRequestStartedAt)])
  }

  lemma BookedJobs(before: Db, middle: Db, j: JobId, written: SocialPublishJob)
    requires OnlyBooked(before, middle, j)
    ensures middle.jobs[j := written] == before.jobs[j := written]
  {
  }

  lemma PublishedAfterBooking(before: Db, middle: Db, after: Db, j: JobId, result: PublishResult,
      startedAt: Option<Time>)
    requires OnlyBooked(before, middle, j) && IsPublished(middle, after, j, result, startedAt)
    ensures IsPublished(before, after, j, result, startedAt)
  {
    BookedJobs(before, middle, j, after.jobs[j]);
  }

  lemma RefusedAfterBooking(before: Db, middle: Db, after: Db, j: JobId, error: ThrownError, now: Time,
      outcome: Outcome)
    requires OnlyBooked(before, middle, j) && IsRefused(middle, after, j, error, now, outcome)
    ensures IsRefused(before, after, j, error, now, outcome)
  {
    BookedJobs(before, middle, j, after.jobs[j]);
  }

  lemma DeferredAfterBooking(before: Db, middle: Db, after: Db, j: JobId, startedAt: Option<Time>, now: Time,
      outcome: Outcome)
    requires OnlyBooked(before, middle, j) && IsDeferred(middle, after, j, startedAt, now, outcome)
    ensures IsDeferred(before, after, j, startedAt, now, outcome)
  {
    BookedJobs(before, middle, j, after.jobs[j]);
  }

  lemma AnsweredAfterBooking(before: Db, middle: Db, after: Db, j: JobId, startedAt: Option<Time>, world: World,
      outcome: Outcome)
    requires OnlyBooked(before, middle, j) && IsAnswered(middle, after, j, startedAt, world, outcome)
    ensures IsAnswered(before, after, j, startedAt, world, outcome)
  {
    match world.answer {
      case Posted(result) => PublishedAfterBooking(before, middle, after, j, result, startedAt);
      case Threw(error) =>
        if error.HttpStatus? && 400 <= error.status < 500 {
          RefusedAfterBooking(before, middle, after, j, error, world.endedAt, outcome);
        } else if world.after.Found? {
          PublishedAfterBooking(before, middle, after, j, world.after.result, startedAt);
        } else {
          DeferredAfterBooking(before, middle, after, j, startedAt, world.endedAt, outcome);
        }
    }
  }

  lemma ProcessedAfterBooking(before: Db, middle: Db, after: Db, j: JobId, idempotent: set<SocialPlatform>,
      world: World, outcome: Outcome)
    requires OnlyBooked(before, middle, j) && IsProcessed(middle, after, j, idempotent, world, outcome)
    requires middle.jobs[j].status == RemoteConfirmed <==> before.jobs[j].status == RemoteConfirmed
    requires middle.jobs[j].remoteRequestKey == before.jobs[j].remoteRequestKey
    requires middle.jobs[j].remoteRequestStartedAt == before.jobs[j].remoteRequestStartedAt
    ensures IsProcessed(before, after, j, idempotent, world, outcome)
  {
    var row := before.jobs[j];
    var marked := Some(row.remoteRequestStartedAt.GetOr(world.markedAt));
    if row.status == RemoteConfirmed {
      PublishedAfterBooking(before, middle, after, j, PublishResult(row.remotePostId.value, row.remotePostUrl,
        row.publishedAt.value), row.remoteRequestStartedAt);
    } else if row.remoteRequestKey.Some? && world.before.Found? {
      PublishedAfterBooking(before, middle, after, j, world.before.result, marked);
    } else if row.remoteRequestKey.Some? && row.platform !in idempotent {
      DeferredAfterBooking(before, middle, after, j, row.remoteRequestStartedAt, world.endedAt, outcome);
    } else {
      AnsweredAfterBooking(before, middle, after, j, marked, world, outcome);
    }
  }

  // -------------------------------------------------------------- what the statements store

  lemma UpdateKeepsOutbox(db: Db, j: JobId, row: SocialPublishJob)
    requires j in db.jobs && row.status !in {Waiting, Cancelled}
    ensures UpdateJob(db, j, row) == db.(jobs := db.jobs[j := row])
  {
  }

  lemma ClaimIsBooked(db: Db, now: Time, j: JobId, leaseMs: nat, queueJobId: Option<nat>, after: Db)
    requires IsUpdatedTo(ClaimPublishJob(db, now, j, leaseMs, queueJobId), after)
    ensures OnlyBooked(db, after, j) && after.jobs[j] == ClaimedRow(db.jobs[j], now, leaseMs)
    ensures after.jobs[j].status == (if db.jobs[j].status == RemoteConfirmed then RemoteConfirmed else Claimed)
    ensures after.jobs[j].remoteRequestKey == db.jobs[j].remoteRequestKey
    ensures after.jobs[j].remoteRequestStartedAt == db.jobs[j].remoteRequestStartedAt
  {
    UpdateKeepsOutbox(db, j, ClaimedRow(db.jobs[j], now, leaseMs));
  }

  lemma MarkIsBooked(db: Db, now: Time, j: JobId, key: RequestKey, leaseMs: nat, after: Db, row: SocialPublishJob)
    requires MarkRemoteRequesting(db, now, j, key, leaseMs) == Updated(after, row)
    ensures OnlyBooked(db, after, j) && after.jobs[j] == row
    ensures row.remoteRequestStartedAt == Some(db.jobs[j].remoteRequestStartedAt.GetOr(now))
  {
    UpdateKeepsOutbox(db, j, MarkedRow(db.jobs[j], now, key, leaseMs));
  }

  lemma SuccessIsSaved(db: Db, job: SocialPublishJob, after: Db)
    requires IsUpdatedTo(SaveSuccess(db, job), after) && job.remotePostId.Some? && job.publishedAt.Some?
    requires job.id in db.jobs && db.jobs[job.id].remoteRequestKey == Some(SocialPublish(job.id))
    ensures IsPublished(db, after, job.id, PublishResult(job.remotePostId.value, job.remotePostUrl,
              job.publishedAt.value), db.jobs[job.id].remoteRequestStartedAt)
  {
    UpdateKeepsOutbox(db, job.id, SuccessfulRow(db.jobs[job.id], Published, job));
  }

  /** The confirmation writes columns that saving the success writes again. */
  lemma PublishedAfterConfirm(before: Db, middle: Db, after: Db, job: SocialPublishJob, row: SocialPublishJob,
      result: PublishResult, startedAt: Option<Time>)
    requires ConfirmRemotePublication(before, job) == Updated(middle, row)
    requires IsPublished(middle, after, job.id, result, startedAt)
    ensures IsPublished(before, after, job.id, result, startedAt)
  {
    UpdateKeepsOutbox(before, job.id, row);
    assert middle.jobs[job.id := after.jobs[job.id]] == before.jobs[job.id := after.jobs[job.id]];
  }

  lemma RefusalIsSaved(db: Db, now: Time, job: SocialPublishJob, error: ThrownError, pending: bool,
      nextRetryAt: Option<Time>, after: Db)
    requires job.id in db.jobs && db.jobs[job.id].id == job.id && job.retryCount == db.jobs[job.id].retryCount
    requires !ClassifyPublishFailure(error).ambiguous
    requires pending == ShouldRetryPublish(ClassifyPublishFailure(error), job.retryCount + 1)
    requires nextRetryAt == PlannedTime(PlanRetry(pending, job.retryCount + 1, now))
    requires var failed := FailedJob(job, ClassifyPublishFailure(error));
             IsUpdatedTo(SaveFailure(db, now, failed, pending, nextRetryAt), after)
    ensures IsRefused(db, after, job.id, error, now, if pending then RetryScheduled else GivenUp)
  {
    var failed := FailedJob(job, ClassifyPublishFailure(error));
    UpdateKeepsOutbox(db, job.id, RefusedRow(db.jobs[job.id], failed, pending, nextRetryAt));
  }

  lemma DeferralIsSaved(db: Db, now: Time, job: SocialPublishJob, nextRetryAt: Option<Time>, after: Db)
    requires job.id in db.jobs && db.jobs[job.id].id == job.id
    requires db.jobs[job.id].remoteRequestKey == Some(SocialPublish(job.id))
    requires DeferredJob(job).retryCount == db.jobs[job.id].retryCount + 1
    requires nextRetryAt == PlannedTime(PlanRetry(DeferredJob(job).retryCount <= 3, DeferredJob(job).retryCount, now))
    requires IsUpdatedTo(RecordAmbiguousRemoteOutcome(db, now, DeferredJob(job), DeferredJob(job).retryCount <= 3,
               nextRetryAt), after)
    ensures IsDeferred(db, after, job.id, db.jobs[job.id].remoteRequestStartedAt, now,
              if DeferredJob(job).retryCount <= 3 then RetryScheduled else GivenUp)
  {
    var deferred := DeferredJob(job);
    UpdateKeepsOutbox(db, job.id, AmbiguousRow(db.jobs[job.id], deferred, deferred.retryCount <= 3, nextRetryAt));
  }
}
