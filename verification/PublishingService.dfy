/**
 * backend/src/publishing/publishing.service.ts and the job values the worker program of
 * publish-worker.processor.ts builds; each returns a replacement for one job.
 */
module PublishingService {
  import opened Wrappers
  import opened PostEntity
  import opened RetryPolicy
  import opened PublishOutboxRepository

  /** `fail`. */
  function FailedJob(job: SocialPublishJob, failure: PublishFailure): SocialPublishJob {
    job.(status := Failed, errorCode := Some(failure.code), errorMessage := Some(Said(failure.message)),
         retryCount := job.retryCount + 1, leaseExpiresAt := None, nextRetryAt := None)
  }

  /** The job of a successful execution, from the adapter's answer or from a reconciliation. */
  function ConfirmedJob(job: SocialPublishJob, result: PublishResult): SocialPublishJob {
    job.(status := RemoteConfirmed, publishedAt := Some(result.publishedAt), remotePostId := Some(result.remotePostId),
         remotePostUrl := result.remotePostUrl, errorCode := None, errorMessage := None, leaseExpiresAt := None)
  }

  /** deferAmbiguousRemoteOutcome: one failure more, unless `fail` already counted it. */
  function DeferredJob(job: SocialPublishJob): SocialPublishJob {
    job.(status := RemoteRequesting, errorCode := Some(AmbiguousRemoteOutcome),
         errorMessage := Some(ReconciliationRequired),
         retryCount := job.retryCount + (if job.status == Failed then 0 else 1), leaseExpiresAt := None)
  }

  predicate DeferralIsPending(deferred: SocialPublishJob) {
    deferred.retryCount <= 3
  }

  // When a failure is retried, and the RangeError of retryDelayForFailure.
  datatype RetryPlan = RetryAt(time: Time) | GiveUp | NoDelay

  function PlanRetry(retryPending: bool, failureCount: nat, now: Time): (plan: RetryPlan)
    ensures retryPending && failureCount == 1 ==> plan == RetryAt(now + 30_000)
    ensures retryPending && failureCount == 2 ==> plan == RetryAt(now + 120_000)
    ensures retryPending && failureCount == 3 ==> plan == RetryAt(now + 600_000)
    ensures retryPending && (failureCount == 0 || failureCount > 3) ==> plan == NoDelay
    ensures plan == GiveUp <==> !retryPending
  {
    if !retryPending then GiveUp
    else match RetryDelayForFailure(failureCount)
      case Some(delay) => RetryAt(now + delay)
      case None => NoDelay
  }

  function PlannedTime(plan: RetryPlan): Option<Time> {
    if plan.RetryAt? then Some(plan.time) else None
  }
}
