/**
 * backend/src/publishing/pg-publish-outbox.repository.ts: every statement (or transaction)
 * a worker or dispatcher runs, as one atomic step on the tables.
 */
module PublishOutboxRepository {
  import opened Wrappers
  import opened PostEntity
  import opened Schema
  import opened PostRepository
  import opened SqlOrder

  datatype ClaimedPublishJob = ClaimedPublishJob(post: Post, job: SocialPublishJob)

  datatype PublishResult = PublishResult(remotePostId: RemoteId, remotePostUrl: Option<string>, publishedAt: Time)

  // Outcome of a guarded UPDATE: it matched, it matched no row, or the database raised.
  datatype SqlOutcome = Updated(db: Db, row: SocialPublishJob) | NoRow | Raised

  function KeyOf(jobId: JobId): RequestKey {
    SocialPublish(jobId)
  }

  function CheckedUpdate(db: Db, j: JobId, row: SocialPublishJob): SqlOutcome
    requires j in db.jobs
  {
    if JobChecks(row) then Updated(UpdateJob(db, j, row), row) else Raised
  }

  // -------------------------------------------------------------- claimPublishJob

  predicate StatusClaimable(job: SocialPublishJob, now: Time) {
    || job.status == Waiting
    || (job.status == Retrying && Due(job.nextRetryAt, now))
    || (job.status == Claimed && Due(job.leaseExpiresAt, now))
    || (job.status == RemoteRequesting && (Due(job.nextRetryAt, now) || Due(job.leaseExpiresAt, now)))
    || (job.status == RemoteConfirmed && (job.leaseExpiresAt.None? || Due(job.leaseExpiresAt, now)))
  }

  /** The WHERE clause of the claim. */
  predicate Claimable(db: Db, now: Time, j: JobId, queueJobId: Option<nat>) {
    && j in db.jobs
    && db.jobs[j].scheduledAt <= now
    && Readable(db, db.jobs[j].postId) && db.posts[db.jobs[j].postId].status != DraftPost
    && (queueJobId.Some? ==> j in db.outbox && db.outbox[j].queueJobId == queueJobId.value)
    && StatusClaimable(db.jobs[j], now)
  }

  function ClaimedRow(job: SocialPublishJob, now: Time, leaseMs: nat): SocialPublishJob {
    job.(status := if job.status == RemoteConfirmed then RemoteConfirmed else Claimed,
         leaseExpiresAt := Some(now + leaseMs), nextRetryAt := None)
  }

  function ClaimPublishJob(db: Db, now: Time, j: JobId, leaseMs: nat, queueJobId: Option<nat>): SqlOutcome {
    if Claimable(db, now, j, queueJobId) then CheckedUpdate(db, j, ClaimedRow(db.jobs[j], now, leaseMs)) else NoRow
  }

  // -------------------------------------------------------------- markRemoteRequesting

  predicate MayMark(db: Db, j: JobId, key: RequestKey) {
    j in db.jobs && db.jobs[j].status == Claimed
    && (db.jobs[j].remoteRequestKey.None? || db.jobs[j].remoteRequestKey == Some(key))
  }

  function MarkedRow(job: SocialPublishJob, now: Time, key: RequestKey, leaseMs: nat): SocialPublishJob {
    job.(status := RemoteRequesting,
         remoteRequestKey := Some(job.remoteRequestKey.GetOr(key)),
         remoteRequestStartedAt := Some(job.remoteRequestStartedAt.GetOr(now)),
         leaseExpiresAt := Some(now + leaseMs), nextRetryAt := None)
  }

  function MarkRemoteRequesting(db: Db, now: Time, j: JobId, key: RequestKey, leaseMs: nat): SqlOutcome {
    if MayMark(db, j, key) then CheckedUpdate(db, j, MarkedRow(db.jobs[j], now, key, leaseMs)) else NoRow
  }

  // -------------------------------------------------------------- confirmRemotePublication

  function ConfirmRemotePublication(db: Db, job: SocialPublishJob): SqlOutcome {
    if job.id in db.jobs && db.jobs[job.id].status == RemoteRequesting
    then CheckedUpdate(db, job.id, SuccessfulRow(db.jobs[job.id], RemoteConfirmed, job))
    else NoRow
  }

  /** The columns a success sets. */
  function SuccessfulRow(row: SocialPublishJob, status: PublishJobStatus, job: SocialPublishJob): SocialPublishJob {
    row.(status := status, publishedAt := job.publishedAt, remotePostId := job.remotePostId,
        remotePostUrl := job.remotePostUrl,
         errorCode := None, errorMessage := None, leaseExpiresAt := None, nextRetryAt := None)
  }

  // -------------------------------------------------------------- recordAmbiguousRemoteOutcome

  predicate WorkerMayFail(db: Db, j: JobId) {
    j in db.jobs && db.jobs[j].status in {Claimed, RemoteRequesting}
  }

  function InsertAlert(db: Db, now: Time, row: SocialPublishJob): Db {
    if row.id in db.alerts then db
    else db.(alerts := db.alerts[row.id := AlertRow(
           row.postId, row.platform, row.errorCode.GetOr(UnknownError), row.errorMessage.GetOr(Said("")),
           row.retryCount, PendingAlert, 0, now, None, None, None, now)])
  }

  /** The UPDATE plus, for a terminal failure, the alert with its CHECK (retry_count >= 1). */
  function FailRow(db: Db, now: Time, j: JobId, row: SocialPublishJob): SqlOutcome
    requires j in db.jobs
  {
    if row.status == Failed && j !in db.alerts && row.retryCount < 1 then Raised
    else if !JobChecks(row) then Raised
    else if row.status == Failed then Updated(InsertAlert(UpdateJob(db, j, row), now, row), row)
    else Updated(UpdateJob(db, j, row), row)
  }

  function RecordAmbiguousRemoteOutcome(db: Db, now: Time, job: SocialPublishJob, retryPending: bool,
      nextRetryAt: Option<Time>): SqlOutcome {
    if !WorkerMayFail(db, job.id) then NoRow
    else FailRow(db, now, job.id, AmbiguousRow(db.jobs[job.id], job, retryPending, nextRetryAt))
  }

  /** The columns a deferral sets. */
  function AmbiguousRow(row: SocialPublishJob, job: SocialPublishJob, retryPending: bool,
      nextRetryAt: Option<Time>): SocialPublishJob {
    row.(status := if retryPending then RemoteRequesting else Failed, errorCode := Some(AmbiguousRemoteOutcome),
         errorMessage := Some(job.errorMessage.GetOr(Unconfirmed)),
         retryCount := job.retryCount, nextRetryAt := nextRetryAt, leaseExpiresAt := None)
  }

  // -------------------------------------------------------------- saveExecution

  function SaveFailure(db: Db, now: Time, job: SocialPublishJob, retryPending: bool,
      nextRetryAt: Option<Time>): SqlOutcome {
    if !WorkerMayFail(db, job.id) then NoRow
    else FailRow(db, now, job.id, RefusedRow(db.jobs[job.id], job, retryPending, nextRetryAt))
  }

  /** The columns a definite failure sets; it clears the request key. */
  function RefusedRow(row: SocialPublishJob, job: SocialPublishJob, retryPending: bool,
      nextRetryAt: Option<Time>): SocialPublishJob {
    row.(status := if retryPending then Retrying else Failed, errorCode := Some(job.errorCode.GetOr(UnknownError)),
         errorMessage := Some(job.errorMessage.GetOr(PublishingFailed)),
         retryCount := job.retryCount, nextRetryAt := nextRetryAt, leaseExpiresAt := None,
         remoteRequestKey := None, remoteRequestStartedAt := None)
  }

  /** UNIQUE (platform, remote_post_id) of social_posts. */
  predicate RemotePostTaken(db: Db, j: JobId, platform: SocialPlatform, remotePostId: RemoteId) {
    exists k ::
        k in db.socialPosts && k != j && db.socialPosts[k].platform == platform
            && db.socialPosts[k].remotePostId == remotePostId
  }

  function SaveSuccess(db: Db, job: SocialPublishJob): SqlOutcome {
    if job.id !in db.jobs || db.jobs[job.id].status != RemoteConfirmed then NoRow
    else PublishRow(db, job.id, SuccessfulRow(db.jobs[job.id], Published, job))
  }

  /** The UPDATE to `published` and the row of social_posts that goes with it. */
  function PublishRow(db: Db, j: JobId, row: SocialPublishJob): SqlOutcome
    requires j in db.jobs
  {
    if !JobChecks(row) || RemotePostTaken(db, j, row.platform, row.remotePostId.GetOr(0)) then Raised
    else Updated(AddSocialPost(UpdateJob(db, j, row), j, row), row)
  }

  function AddSocialPost(db: Db, j: JobId, row: SocialPublishJob): Db {
    db.(socialPosts := db.socialPosts[j := SocialPostRow(
          row.postId, row.accountId, row.platform, row.remotePostId.GetOr(0), row.remotePostUrl,
              row.publishedAt.GetOr(0))])
  }

  // -------------------------------------------------------------- outbox dispatch

  predicate Dispatchable(db: Db, now: Time, j: JobId) {
    && j in db.outbox && db.outbox[j].enqueuedAt.None?
    && (db.outbox[j].dispatchLeaseExpiresAt.None? || Due(db.outbox[j].dispatchLeaseExpiresAt, now))
  }

  /** The current queue id of job j was given to BullMQ, and nothing will give it another. */
  predicate RowIsHandedOver(db: Db, j: JobId) {
    j in db.outbox && db.outbox[j].enqueuedAt.Some?
  }

  function DispatchClaimedRow(row: OutboxRow, now: Time, leaseMs: nat): OutboxRow {
    row.(dispatchLeaseExpiresAt := Some(now + leaseMs), dispatchAttemptCount := row.dispatchAttemptCount + 1)
  }

  function EnqueuedRow(row: OutboxRow, now: Time): OutboxRow {
    row.(enqueuedAt := Some(now), dispatchLeaseExpiresAt := None, lastDispatchError := None)
  }

  function ReleasedRow(row: OutboxRow, errorMessage: string): OutboxRow {
    row.(dispatchLeaseExpiresAt := None, lastDispatchError := Some(Shortened(errorMessage)))
  }

  function PutOutbox(db: Db, j: JobId, row: OutboxRow): Db {
    db.(outbox := db.outbox[j := row])
  }

  predicate HoldsQueueId(db: Db, j: JobId, queueJobId: nat) {
    j in db.outbox && db.outbox[j].queueJobId == queueJobId
  }

  function MarkOutboxEnqueued(db: Db, now: Time, j: JobId, queueJobId: nat): Db {
    if HoldsQueueId(db, j, queueJobId) then PutOutbox(db, j, EnqueuedRow(db.outbox[j], now)) else db
  }

  const DISPATCH_ERROR_LIMIT: nat := 500

  function Shortened(message: string): (short: string)
    ensures short == if |message| > 500 then message[..500] else message
  {
    if |message| <= DISPATCH_ERROR_LIMIT then message else message[..DISPATCH_ERROR_LIMIT]
  }

  function ReleaseOutbox(db: Db, j: JobId, queueJobId: nat, errorMessage: string): Db {
    if HoldsQueueId(db, j, queueJobId) then PutOutbox(db, j, ReleasedRow(db.outbox[j], errorMessage)) else db
  }

  // What claimOutbox hands to the queue.
  datatype QueueRecord = QueueRecord(jobId: JobId, queueJobId: nat, scheduledAt: Time)

  function DueIds(db: Db, now: Time): set<JobId> {
    set j | j in db.outbox && Dispatchable(db, now, j)
  }

  function ScheduledTime(db: Db, j: JobId): Time {
    if j in db.outbox then db.outbox[j].scheduledAt else 0
  }

  /** ORDER BY scheduled_at, publish_job_id. */
  function DispatchOrder(db: Db): Order<JobId> {
    (a: nat, b: nat) => ScheduledTime(db, a) < ScheduledTime(db, b)
        || (ScheduledTime(db, a) == ScheduledTime(db, b) && a < b)
  }

  lemma DispatchOrderIsOrder(db: Db, now: Time)
    ensures IsOrder(DispatchOrder(db), DueIds(db, now))
  {
  }

  // -------------------------------------------------------------- the repository

  predicate IsUpdatedTo(outcome: SqlOutcome, db: Db) {
    outcome.Updated? && outcome.db == db
  }

  function After(outcome: SqlOutcome, before: Db): Db {
    if outcome.Updated? then outcome.db else before
  }

  class PgPublishOutboxRepository {
    const database: Database

    constructor (database: Database)
      ensures this.database == database
    {
      this.database := database;
    }

    /** A row whose guard fails is reported as null and left alone. */
    method Claim(now: Time, j: JobId, leaseMs: nat, queueJobId: Option<nat>)
        returns (claimed: Option<ClaimedPublishJob>)
      modifies database
      ensures database.Contents()
               == After(ClaimPublishJob(old(database.Contents()), now, j, leaseMs, queueJobId),
                   old(database.Contents()))
      ensures claimed.Some? <==> ClaimPublishJob(old(database.Contents()), now, j, leaseMs, queueJobId).Updated?
      ensures claimed.Some? ==>
                && claimed.value.job == ClaimedRow(old(database.jobs)[j], now, leaseMs)
                && claimed.value.post == ReadPost(old(database.Contents()), old(database.jobs)[j].postId)
    {
      var db := database.Contents();
      if !Claimable(db, now, j, queueJobId) { return None; }
      var row := db.jobs[j];
      if row.status != RemoteConfirmed { row := row.(status := Claimed); }
      row := row.(leaseExpiresAt := Some(now + leaseMs), nextRetryAt := None);
      if !JobChecks(row) { return None; }
      database.jobs := database.jobs[j := row];
      return Some(ClaimedPublishJob(ReadPost(database.Contents(), row.postId), row));
    }

    method Mark(now: Time, j: JobId, key: RequestKey, leaseMs: nat) returns (marked: Option<SocialPublishJob>)
      modifies database
      ensures var outcome := MarkRemoteRequesting(old(database.Contents()), now, j, key, leaseMs);
              && database.Contents() == After(outcome, old(database.Contents()))
              && marked == if outcome.Updated? then Some(outcome.row) else None
    {
      if j !in database.jobs || database.jobs[j].status != Claimed { return None; }
      var row := database.jobs[j];
      if row.remoteRequestKey.Some? && row.remoteRequestKey != Some(key) { return None; }
      if row.remoteRequestKey.None? { row := row.(remoteRequestKey := Some(key)); }
      if row.remoteRequestStartedAt.None? { row := row.(remoteRequestStartedAt := Some(now)); }
      row := row.(status := RemoteRequesting, leaseExpiresAt := Some(now + leaseMs), nextRetryAt := None);
      if !JobChecks(row) { return None; }
      database.jobs := database.jobs[j := row];
      return Some(row);
    }

    method Confirm(job: SocialPublishJob) returns (confirmed: Option<SocialPublishJob>)
      modifies database
      ensures var outcome := ConfirmRemotePublication(old(database.Contents()), job);
              && database.Contents() == After(outcome, old(database.Contents()))
              && confirmed == if outcome.Updated? then Some(outcome.row) else None
    {
      if job.id !in database.jobs || database.jobs[job.id].status != RemoteRequesting { return None; }
      var row := database.jobs[job.id].(
        status := RemoteConfirmed, publishedAt := job.publishedAt, remotePostId := job.remotePostId,
        remotePostUrl := job.remotePostUrl, errorCode := None, errorMessage := None,
        leaseExpiresAt := None, nextRetryAt := None);
      if !JobChecks(row) { return None; }
      database.jobs := database.jobs[job.id := row];
      return Some(row);
    }

    method RecordAmbiguous(now: Time, job: SocialPublishJob, retryPending: bool, nextRetryAt: Option<Time>)
        returns (raised: bool)
      modifies database
      ensures var outcome :=
               RecordAmbiguousRemoteOutcome(old(database.Contents()), now, job, retryPending, nextRetryAt);
              database.Contents() == After(outcome, old(database.Contents())) && raised == outcome.Raised?
    {
      if job.id !in database.jobs || database.jobs[job.id].status !in {Claimed, RemoteRequesting} { return false; }
      var row := database.jobs[job.id].(
        status := if retryPending then RemoteRequesting else Failed,
        errorCode := Some(AmbiguousRemoteOutcome), errorMessage := Some(job.errorMessage.GetOr(Unconfirmed)),
        retryCount := job.retryCount, nextRetryAt := nextRetryAt, leaseExpiresAt := None);
      raised := StoreFailure(now, job.id, row);
    }

    method SaveOk(job: SocialPublishJob) returns (raised: bool)
      modifies database
      ensures var outcome := SaveSuccess(old(database.Contents()), job);
              database.Contents() == After(outcome, old(database.Contents())) && raised == outcome.Raised?
    {
      if job.id !in database.jobs || database.jobs[job.id].status != RemoteConfirmed { return false; }
      var row := database.jobs[job.id].(
        status := Published, publishedAt := job.publishedAt,
        remotePostId := job.remotePostId, remotePostUrl := job.remotePostUrl,
        errorCode := None, errorMessage := None, leaseExpiresAt := None, nextRetryAt := None);
      if !JobChecks(row) || RemotePostTaken(database.Contents(), job.id, row.platform, row.remotePostId.GetOr(0)) {
        return true;
      }
      database.jobs := database.jobs[job.id := row];
      database.socialPosts := database.socialPosts[job.id := SocialPostRow(
        row.postId, row.accountId, row.platform, row.remotePostId.value, row.remotePostUrl, row.publishedAt.value)];
      return false;
    }

    method SaveFailed(now: Time, job: SocialPublishJob, retryPending: bool, nextRetryAt: Option<Time>)
        returns (raised: bool)
      modifies database
      ensures var outcome := SaveFailure(old(database.Contents()), now, job, retryPending, nextRetryAt);
              database.Contents() == After(outcome, old(database.Contents())) && raised == outcome.Raised?
    {
      if job.id !in database.jobs || database.jobs[job.id].status !in {Claimed, RemoteRequesting} { return false; }
      var row := database.jobs[job.id].(
        status := if retryPending then Retrying else Failed,
        errorCode := Some(job.errorCode.GetOr(UnknownError)),
        errorMessage := Some(job.errorMessage.GetOr(PublishingFailed)),
        retryCount := job.retryCount, nextRetryAt := nextRetryAt, leaseExpiresAt := None,
        remoteRequestKey := None, remoteRequestStartedAt := None);
      raised := StoreFailure(now, job.id, row);
    }

    /** The transaction both failure paths share: UPDATE, then insertFinalFailureAudit when it is terminal. */
    method StoreFailure(now: Time, j: JobId, row: SocialPublishJob) returns (raised: bool)
      requires j in database.jobs && row.status !in {Waiting, Cancelled}
      modifies database
      ensures var outcome := FailRow(old(database.Contents()), now, j, row);
              database.Contents() == After(outcome, old(database.Contents())) && raised == outcome.Raised?
    {
      if !JobChecks(row) { return true; }
      if row.status == Failed && j !in database.alerts && row.retryCount < 1 { return true; }
      database.jobs := database.jobs[j := row];
      if row.status == Failed && row.id !in database.alerts {
        database.alerts := database.alerts[row.id := AlertRow(
          row.postId, row.platform, row.errorCode.value, row.errorMessage.GetOr(Said("")), row.retryCount,
          PendingAlert, 0, now, None, None, None, now)];
      }
      return false;
    }

    /** The first due rows get a dispatch lease; every other row stays as it is. */
    method ClaimOutbox(now: Time, limit: nat, leaseMs: nat) returns (records: seq<QueueRecord>)
      modifies database
      ensures database.Contents() == old(database.Contents()).(outbox := database.outbox)
      ensures database.outbox.Keys == old(database.outbox).Keys
      ensures IsClaimOf(old(database.Contents()), now, limit, records)
      ensures IsEarliestDue(old(database.outbox), now, limit, records)
      ensures IsLeased(old(database.outbox), database.outbox, records, now + leaseMs)
    {
      var db := database.Contents();
      DispatchOrderIsOrder(db, now);
      var due := FirstOf(DispatchOrder(db), DueIds(db, now), limit);
      FirstOfIsPage(DispatchOrder(db), DueIds(db, now), limit);
      assert forall i | 0 <= i < |due| :: due[i] in DueIds(db, now);
      records := RecordsOf(db, due, now);
      ClaimIsEarliestDue(db, now, limit, records);
      database.outbox := map j | j in db.outbox ::
          if j in due then DispatchClaimedRow(db.outbox[j], now, leaseMs) else db.outbox[j];
      ClaimIsLeased(db.outbox, database.outbox, records, now, leaseMs);
    }

    method MarkEnqueued(now: Time, record: QueueRecord)
      modifies database
      ensures database.Contents() == MarkOutboxEnqueued(old(database.Contents()), now, record.jobId, record.queueJobId)
    {
      if HoldsQueueId(database.Contents(), record.jobId, record.queueJobId) {
        var row := database.outbox[record.jobId].(
          enqueuedAt := Some(now), dispatchLeaseExpiresAt := None, lastDispatchError := None);
        database.outbox := database.outbox[record.jobId := row];
      }
    }

    method Release(record: QueueRecord, errorMessage: string)
      modifies database
      ensures database.Contents()
               == ReleaseOutbox(old(database.Contents()), record.jobId, record.queueJobId, errorMessage)
    {
      if HoldsQueueId(database.Contents(), record.jobId, record.queueJobId) {
        var row := database.outbox[record.jobId].(
          dispatchLeaseExpiresAt := None, lastDispatchError := Some(Shortened(errorMessage)));
        database.outbox := database.outbox[record.jobId := row];
      }
    }
  }

  function JobsOf(records: seq<QueueRecord>): seq<JobId> {
    seq(|records|, i requires 0 <= i < |records| => records[i].jobId)
  }

  function RecordsOf(db: Db, due: seq<JobId>, now: Time): (records: seq<QueueRecord>)
    requires forall i | 0 <= i < |due| :: Dispatchable(db, now, due[i])
    ensures JobsOf(records) == due
    ensures forall i | 0 <= i < |records| ::
              && Dispatchable(db, now, records[i].jobId)
              && records[i] == QueueRecord(
                   records[i].jobId, db.outbox[records[i].jobId].queueJobId, db.outbox[records[i].jobId].scheduledAt)
  {
    assert forall i | 0 <= i < |due| :: Dispatchable(db, now, due[i]) && due[i] in db.outbox;
    seq(|due|, i
        requires 0 <= i < |due| => QueueRecord(due[i], db.outbox[due[i]].queueJobId, db.outbox[due[i]].scheduledAt))
  }

  /** The records are the first due rows, each once, and as many as due and allowed. */
  ghost predicate IsClaimOf(db: Db, now: Time, limit: nat, records: seq<QueueRecord>) {
    && IsPage(DispatchOrder(db), DueIds(db, now), limit, JobsOf(records))
    && forall i | 0 <= i < |records| ::
         && Dispatchable(db, now, records[i].jobId)
         && records[i]
              == QueueRecord(records[i].jobId, db.outbox[records[i].jobId].queueJobId,
                  db.outbox[records[i].jobId].scheduledAt)
  }

  /** The row was not handed over, and no dispatcher holds it. */
  predicate AwaitsDispatch(row: OutboxRow, now: Time) {
    row.enqueuedAt.None? && (row.dispatchLeaseExpiresAt.Some? ==> row.dispatchLeaseExpiresAt.value <= now)
  }

  ghost predicate IsLeftOut(records: seq<QueueRecord>, j: JobId) {
    forall i | 0 <= i < |records| :: records[i].jobId != j
  }

  /**
   * The due rows that are scheduled earliest, by rising time and, at one time, by rising job id; a
   * due row is left out only when the limit is reached, and comes after all that are not.
   */
  ghost predicate IsEarliestDue(rows: map<JobId, OutboxRow>, now: Time, limit: nat, records: seq<QueueRecord>) {
    && |records| <= limit
    && (forall i | 0 <= i < |records| ::
          && records[i].jobId in rows && AwaitsDispatch(rows[records[i].jobId], now)
          && records[i].queueJobId == rows[records[i].jobId].queueJobId
          && records[i].scheduledAt == rows[records[i].jobId].scheduledAt)
    && (forall i, k | 0 <= i < k < |records| ::
          || records[i].scheduledAt < records[k].scheduledAt
          || (records[i].scheduledAt == records[k].scheduledAt && records[i].jobId < records[k].jobId))
    && (forall j | j in rows && AwaitsDispatch(rows[j], now) && IsLeftOut(records, j) ::
          && |records| == limit
          && forall i | 0 <= i < |records| ::
               || records[i].scheduledAt < rows[j].scheduledAt
               || (records[i].scheduledAt == rows[j].scheduledAt && records[i].jobId < j))
  }

  /** The rows of the records carry a lease and one attempt more; all others are as before. */
  ghost predicate IsLeased(before: map<JobId, OutboxRow>, after: map<JobId, OutboxRow>, records: seq<QueueRecord>,
      until: Time) {
    && after.Keys == before.Keys
    && (forall i | 0 <= i < |records| && records[i].jobId in before ::
          var row := before[records[i].jobId];
          after[records[i].jobId]
            == row.(dispatchLeaseExpiresAt := Some(until), dispatchAttemptCount := row.dispatchAttemptCount + 1))
    && (forall j | j in before && (forall i | 0 <= i < |records| :: records[i].jobId != j) :: after[j] == before[j])
  }

  lemma ClaimIsLeased(before: map<JobId, OutboxRow>, after: map<JobId, OutboxRow>, records: seq<QueueRecord>,
      now: Time, leaseMs: nat)
    requires after == map j | j in before ::
               if j in JobsOf(records) then DispatchClaimedRow(before[j], now, leaseMs) else before[j]
    ensures IsLeased(before, after, records, now + leaseMs)
  {
    assert forall i | 0 <= i < |records| :: JobsOf(records)[i] == records[i].jobId;
  }

  lemma ClaimedInOrder(db: Db, now: Time, limit: nat, records: seq<QueueRecord>, i: nat, k: nat)
    requires IsClaimOf(db, now, limit, records) && i < k < |records|
    ensures records[i].scheduledAt < records[k].scheduledAt
            || (records[i].scheduledAt == records[k].scheduledAt && records[i].jobId < records[k].jobId)
  {
    assert DispatchOrder(db)(JobsOf(records)[i], JobsOf(records)[k]);
  }

  lemma LeftOutIsLater(db: Db, now: Time, limit: nat, records: seq<QueueRecord>, j: JobId)
    requires IsClaimOf(db, now, limit, records) && j in db.outbox && AwaitsDispatch(db.outbox[j], now)
    requires IsLeftOut(records, j)
    ensures |records| == limit
    ensures forall i | 0 <= i < |records| ::
              || records[i].scheduledAt < db.outbox[j].scheduledAt
              || (records[i].scheduledAt == db.outbox[j].scheduledAt && records[i].jobId < j)
  {
    assert j in DueIds(db, now) && j !in JobsOf(records);
    forall i | 0 <= i < |records|
      ensures records[i].scheduledAt < db.outbox[j].scheduledAt
              || (records[i].scheduledAt == db.outbox[j].scheduledAt && records[i].jobId < j)
    {
      assert DispatchOrder(db)(JobsOf(records)[i], j);
    }
    if |records| < limit { FullPageHasAll(DispatchOrder(db), DueIds(db, now), limit, JobsOf(records), j); }
  }

  lemma ClaimIsEarliestDue(db: Db, now: Time, limit: nat, records: seq<QueueRecord>)
    requires IsClaimOf(db, now, limit, records)
    ensures IsEarliestDue(db.outbox, now, limit, records)
  {
    forall i, k | 0 <= i < k < |records|
      ensures records[i].scheduledAt < records[k].scheduledAt
              || (records[i].scheduledAt == records[k].scheduledAt && records[i].jobId < records[k].jobId)
    {
      ClaimedInOrder(db, now, limit, records, i, k);
    }
    forall j | j in db.outbox && AwaitsDispatch(db.outbox[j], now) && IsLeftOut(records, j)
      ensures |records| == limit
      ensures forall i | 0 <= i < |records| ::
                || records[i].scheduledAt < db.outbox[j].scheduledAt
                || (records[i].scheduledAt == db.outbox[j].scheduledAt && records[i].jobId < j)
    {
      LeftOutIsLater(db, now, limit, records, j);
    }
  }

  lemma ClaimIsDistinct(db: Db, now: Time, limit: nat, records: seq<QueueRecord>)
    requires IsClaimOf(db, now, limit, records)
    ensures forall i, k | 0 <= i < k < |records| :: records[i].jobId != records[k].jobId
  {
    DispatchOrderIsOrder(db, now);
    assert forall i | 0 <= i < |records| :: JobsOf(records)[i] in DueIds(db, now);
    forall i, k | 0 <= i < k < |records| ensures records[i].jobId != records[k].jobId {
      assert DispatchOrder(db)(JobsOf(records)[i], JobsOf(records)[k]);
    }
  }
}
