/** The entities of backend/src/posts/post.entity.ts. Times are milliseconds. */
module PostEntity {
  import opened Wrappers

  type Time = nat
  type PostId = nat
  type JobId = nat
  type OwnerId = nat

  // A provider's post is named by the number of the provider call that created it.
  type RemoteId = nat

  datatype SocialPlatform = LinkedIn | Facebook | Instagram | Threads | X

  datatype PublishJobStatus =
    | Waiting | Claimed | RemoteRequesting | RemoteConfirmed | Published | Failed | Retrying | Cancelled

  datatype PostStatus =
    | DraftPost | ScheduledPost | PublishingPost | CompletedPost | PartiallyFailedPost | FailedPost | CancelledPost

  datatype MediaType = Image | Video

  datatype PostMedia = PostMedia(mediaType: MediaType, url: string)

  datatype PostContent = PostContent(
    title: string,
    body: string,
    url: Option<string>,
    media: seq<PostMedia>,
    platformBodies: Option<map<SocialPlatform, string>>)

  datatype Post = Post(
    id: PostId,
    campaignId: nat,
    ownerId: OwnerId,
    content: PostContent,
    scheduledAt: Time,
    status: PostStatus,
    revision: nat)

  datatype ErrorCode =
    | TokenExpired | PermissionDenied | RateLimited | UpstreamServerError
    | NetworkError | InvalidRequest | UnknownError | AmbiguousRemoteOutcome

  // The text of an error: what a provider said, or one of the program's own sentences.
  datatype Message =
    | Said(text: string)
    | Unconfirmed             // Remote publish outcome could not be confirmed.
    | ReconciliationRequired  // ... and reconciliation is required before another write.
    | PublishingFailed        // Publishing failed.

  // The text 'social-publish:<job id>'; equal keys name equal jobs.
  datatype RequestKey = SocialPublish(jobId: JobId)

  datatype SocialPublishJob = SocialPublishJob(
    id: JobId,
    postId: PostId,
    platform: SocialPlatform,
    accountId: nat,
    status: PublishJobStatus,
    scheduledAt: Time,
    publishedAt: Option<Time>,
    remotePostId: Option<RemoteId>,
    remotePostUrl: Option<string>,
    errorCode: Option<ErrorCode>,
    errorMessage: Option<Message>,
    retryCount: nat,
    leaseExpiresAt: Option<Time>,
    nextRetryAt: Option<Time>,
    remoteRequestKey: Option<RequestKey>,
    remoteRequestStartedAt: Option<Time>)

  datatype PostRecord = PostRecord(post: Post, jobs: seq<SocialPublishJob>)
}
