/**
 * The tables of backend/migrations/001, 009 to 015 that the workflow touches, as one
 * value, with the CHECK constraints of the job rows and the outbox trigger of migration 014.
 * The CHECKs on the lengths of a post's title and body are not part of this model.
 */
module Schema {
  import opened Wrappers
  import opened PostEntity

  datatype PostRow = PostRow(
    id: PostId,
    campaignId: nat,
    ownerId: OwnerId,
    title: string,
    body: string,
    destinationUrl: Option<string>,
    scheduledAt: Time,
    status: PostStatus,
    revision: nat,
    platformBodies: map<SocialPlatform, string>)

  datatype OutboxRow = OutboxRow(
    scheduledAt: Time,
    queueJobId: nat,
    enqueuedAt: Option<Time>,
    dispatchAttemptCount: nat,
    dispatchLeaseExpiresAt: Option<Time>,
    lastDispatchError: Option<string>)

  datatype AlertStatus = PendingAlert | ProcessingAlert | DeliveredAlert | FailedAlert

  datatype AlertRow = AlertRow(
    postId: PostId,
    platform: SocialPlatform,
    errorCode: ErrorCode,
    errorMessage: Message,
    retryCount: nat,
    status: AlertStatus,
    deliveryAttempts: nat,
    nextDeliveryAt: Time,
    leaseExpiresAt: Option<Time>,
    lastDeliveryError: Option<string>,
    deliveredAt: Option<Time>,
    createdAt: Time)

  datatype SocialPostRow = SocialPostRow(
    postId: PostId,
    accountId: nat,
    platform: SocialPlatform,
    remotePostId: RemoteId,
    remotePostUrl: Option<string>,
    publishedAt: Time)

  // post_media is keyed by (post_id, sort_order); jobsOfPost is the index that answers
  // `WHERE post_id = $1 ORDER BY id`; nextQueueId stands for gen_random_uuid().
  datatype Db = Db(
    posts: map<PostId, PostRow>,
    media: map<PostId, map<nat, PostMedia>>,
    jobs: map<JobId, SocialPublishJob>,
    jobsOfPost: map<PostId, seq<JobId>>,
    outbox: map<JobId, OutboxRow>,
    alerts: map<JobId, AlertRow>,
    socialPosts: map<JobId, SocialPostRow>,
    nextQueueId: nat)

  const EMPTY_DB: Db := Db(map[], map[], map[], map[], map[], map[], map[], 0)

  /** Primary keys, foreign keys and the job index. */
  ghost predicate Shape(db: Db) {
    && db.posts.Keys == db.media.Keys == db.jobsOfPost.Keys
    && (forall p | p in db.posts :: db.posts[p].id == p && IndexOk(db, p))
    && (forall j | j in db.jobs ::
          && db.jobs[j].id == j && db.jobs[j].postId in db.posts
          && j in db.jobsOfPost[db.jobs[j].postId])
    && db.outbox.Keys <= db.jobs.Keys
    && db.alerts.Keys <= db.jobs.Keys
    && db.socialPosts.Keys <= db.jobs.Keys
  }

  ghost predicate IndexOk(db: Db, p: PostId)
    requires p in db.jobsOfPost
  {
    var ids := db.jobsOfPost[p];
    && (forall i | 0 <= i < |ids| :: ids[i] in db.jobs && db.jobs[ids[i]].postId == p)
    && (forall i, k | 0 <= i < k < |ids| :: ids[i] < ids[k])
  }

  /** CHECK constraints of social_publish_jobs after migration 013. */
  predicate JobChecks(job: SocialPublishJob) {
    && job.retryCount <= 10
    && (job.status == Failed ==> job.errorCode.Some?)
    && (job.status == Published ==> job.publishedAt.Some? && job.remotePostId.Some?)
    && (job.status in {RemoteRequesting, RemoteConfirmed, Published} ==> job.remoteRequestKey.Some?)
    && (job.status == RemoteConfirmed ==> job.publishedAt.Some? && job.remotePostId.Some?)
  }

  /** create_social_publish_queue_outbox(), run after the row `written` is in place. */
  function OutboxTrigger(db: Db, j: JobId, previous: Option<SocialPublishJob>, written: SocialPublishJob): Db {
    if written.status == Waiting && written.postId in db.posts && db.posts[written.postId].status == ScheduledPost then
      if previous.Some? && previous.value.status == written.status && previous.value.scheduledAt == written.scheduledAt
          then db
      else db.(outbox := db.outbox[j := FreshOutboxRow(db, written)], nextQueueId := db.nextQueueId + 1)
    else if written.status == Cancelled then
      db.(outbox := db.outbox - {j})
    else db
  }

  lemma TriggerTouchesOutboxOnly(db: Db, j: JobId, previous: Option<SocialPublishJob>, written: SocialPublishJob)
    ensures var after := OutboxTrigger(db, j, previous, written);
            after == db.(outbox := after.outbox, nextQueueId := after.nextQueueId)
  {
  }

  function FreshOutboxRow(db: Db, job: SocialPublishJob): OutboxRow {
    OutboxRow(job.scheduledAt, db.nextQueueId, None, 0, None, None)
  }

  function InsertJob(db: Db, job: SocialPublishJob): Db {
    OutboxTrigger(db.(jobs := db.jobs[job.id := job]), job.id, None, job)
  }

  /** UPDATE social_publish_jobs SET ... WHERE id = j, for a row that exists. */
  function UpdateJob(db: Db, j: JobId, job: SocialPublishJob): Db
    requires j in db.jobs
  {
    OutboxTrigger(db.(jobs := db.jobs[j := job]), j, Some(db.jobs[j]), job)
  }

  /** A comparison with a NULL time is not true. */
  predicate Due(at: Option<Time>, now: Time) {
    at.Some? && at.value <= now
  }

  /** The server both repositories write to: one field a table. */
  class Database {
    var posts: map<PostId, PostRow>
    var media: map<PostId, map<nat, PostMedia>>
    var jobs: map<JobId, SocialPublishJob>
    var jobsOfPost: map<PostId, seq<JobId>>
    var outbox: map<JobId, OutboxRow>
    var alerts: map<JobId, AlertRow>
    var socialPosts: map<JobId, SocialPostRow>
    var nextQueueId: nat

    constructor ()
      ensures Contents() == EMPTY_DB
    {
      posts, media, jobs, jobsOfPost := map[], map[], map[], map[];
      outbox, alerts, socialPosts, nextQueueId := map[], map[], map[], 0;
    }

    function Contents(): Db
      reads this
    {
      Db(posts, media, jobs, jobsOfPost, outbox, alerts, socialPosts, nextQueueId)
    }

    /** COMMIT of a transaction that computed these tables. */
    method Commit(db: Db)
      modifies this
      ensures Contents() == db
    {
      posts, media, jobs, jobsOfPost := db.posts, db.media, db.jobs, db.jobsOfPost;
      outbox, alerts, socialPosts, nextQueueId := db.outbox, db.alerts, db.socialPosts, db.nextQueueId;
    }
  }
}
