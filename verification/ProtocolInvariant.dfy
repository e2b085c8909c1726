/**
 * What holds in every reachable state of the protocol, with no timing assumption:
 * lease and retry bookkeeping, outbox agreement, frozen success, approved content.
 */
module ProtocolInvariant {
  import opened Wrappers
  import opened PostEntity
  import opened Schema
  import opened PostRepository
  import opened PostRefinement
  import opened PublishOutboxRepository
  import opened PublishProtocol

  // -------------------------------------------------------------- one row

  predicate IsSuccess(status: PublishJobStatus) {
    status in {RemoteConfirmed, Published}
  }

  /** The row alone: retry budget, a next time for every live status, request key and remote id. */
  ghost predicate RowOk(row: SocialPublishJob, now: Time) {
    && JobChecks(row)
    && (row.remoteRequestKey.Some? ==> row.remoteRequestKey.value == KeyOf(row.id))
    && row.retryCount <= (if row.status in {Failed, Cancelled} then 4 else 3)
    && (row.status == Failed ==> 1 <= row.retryCount)
    && (row.status == Retrying ==> row.nextRetryAt.Some?)
    && (row.status == Claimed ==> row.leaseExpiresAt.Some?)
    && (row.status == RemoteRequesting ==> row.leaseExpiresAt.Some? || row.nextRetryAt.Some?)
    && (row.status in {Waiting, Retrying, Cancelled} ==> row.remoteRequestKey.None?)
    && (row.remotePostId.Some? <==> IsSuccess(row.status))
    && (row.status !in {Waiting, Cancelled} ==> row.scheduledAt <= now)
  }

  /** The row and the other tables. */
  ghost predicate TablesOk(s: State, j: JobId)
    requires j in s.db.jobs && s.db.jobs[j].postId in s.db.posts
  {
    var row := s.db.jobs[j];
    var isDraft := s.db.posts[row.postId].status == DraftPost;
    && (isDraft ==> row.status == Waiting)
    && (!isDraft && row.status != Cancelled ==> row.postId in s.approvals)
    && (j in s.db.outbox <==> row.status != Cancelled && !isDraft)
    && (j in s.db.outbox ==> s.db.outbox[j].scheduledAt == row.scheduledAt)
    && (row.status == Failed ==> j in s.db.alerts)
    && (j in s.db.alerts ==> 1 <= s.db.alerts[j].retryCount <= 4)
    && (j in s.db.socialPosts <==> row.status == Published)
    && (row.status == Published ==>
          && s.db.socialPosts[j].postId == row.postId && s.db.socialPosts[j].accountId == row.accountId
          && s.db.socialPosts[j].platform == row.platform && Some(s.db.socialPosts[j].remotePostId) == row.remotePostId)
    && (row.remotePostId.Some? ==> IsPostOf(s, row.remotePostId.value, j))
  }

  ghost predicate JobInv(s: State, j: JobId)
    requires j in s.db.jobs
  {
    && s.db.jobs[j].id == j && s.db.jobs[j].postId in s.db.posts
    && RowOk(s.db.jobs[j], s.now) && TablesOk(s, j)
  }

  // -------------------------------------------------------------- posts, workers, calls, hand-off

  ghost predicate PostInv(s: State, p: PostId)
    requires Shape(s.db) && p in s.db.posts
  {
    && |s.db.jobsOfPost[p]| > 0 && 1 <= s.db.posts[p].revision
    && (p in s.approvals ==>
          && s.db.posts[p].status != DraftPost
          && s.approvals[p].content == ReadPost(s.db, p).content
          && s.approvals[p].revision < s.db.posts[p].revision)
  }

  /** A worker's view of its job never changes identity, and its content is the approved one. */
  ghost predicate WorkerInv(s: State, w: WorkerId)
    requires w in s.workers
  {
    var worker := s.workers[w];
    var job := worker.job;
    && job.id in s.db.jobs
    && job.postId == s.db.jobs[job.id].postId && job.platform == s.db.jobs[job.id].platform
    && job.accountId == s.db.jobs[job.id].accountId
    && job.postId in s.approvals && worker.post.content == s.approvals[job.postId].content
    && job.scheduledAt <= s.now
    && PhaseOk(s, worker)
    && (worker.repeats && (worker.phase.Marked? || worker.phase.AwaitingProvider? || worker.phase.Failing?) ==>
         job.platform in s.idempotent)
  }

  ghost predicate Running(job: SocialPublishJob) {
    job.status in {Claimed, RemoteRequesting} && job.retryCount <= 3 && job.remotePostId.None?
  }

  ghost predicate PhaseOk(s: State, worker: Worker)
    requires worker.job.id in s.db.jobs
  {
    var job := worker.job;
    var keyed := job.remoteRequestKey == Some(KeyOf(job.id));
    match worker.phase
    case Reconciling => Running(job) && keyed && worker.repeats
    case ReadyToMark =>
      Running(job) && (if worker.repeats then keyed && job.platform in s.idempotent else job.remoteRequestKey.None?)
    case Remarking(found) => Running(job) && keyed && IsPostOf(s, found.remotePostId, job.id)
    case Marked => Running(job) && keyed
    case AwaitingProvider(call) => Running(job) && keyed && call in s.calls && s.calls[call].jobId == job.id
    case Rechecking(failure) => Running(job) && keyed && failure.ambiguous
    case Confirming => job.remotePostId.Some? && IsPostOf(s, job.remotePostId.value, job.id) && job.publishedAt.Some?
    case Finishing =>
      && IsSuccess(s.db.jobs[job.id].status) && job.remotePostId.Some? && job.publishedAt.Some?
      && s.db.jobs[job.id].remotePostId == job.remotePostId
    case Deferring(retryPending, nextRetryAt) =>
      1 <= job.retryCount <= 4 && (retryPending <==> job.retryCount <= 3) && (retryPending ==> nextRetryAt.Some?)
    case Failing(retryPending, nextRetryAt) =>
      1 <= job.retryCount <= 4 && (retryPending ==> job.retryCount <= 3 && nextRetryAt.Some?)
  }

  ghost predicate CallInv(s: State, c: CallId)
    requires c in s.calls
  {
    var call := s.calls[c];
    && call.jobId in s.db.jobs && call.platform == s.db.jobs[call.jobId].platform && call.key == KeyOf(call.jobId)
    && s.db.jobs[call.jobId].postId in s.approvals
    && call.content == s.approvals[s.db.jobs[call.jobId].postId].content
    && call.sentAt <= s.now
    && (call.state.Accepted? ==> IsPostOf(s, call.state.remotePost, call.jobId))
  }

  /** A provider with idempotent publish keeps one post a key. */
  ghost predicate ProviderInv(s: State) {
    forall c, d | c in s.calls && d in s.calls && s.calls[c].state == Accepted(c) && s.calls[d].state == Accepted(d)
                  && s.calls[c].platform in s.idempotent && s.calls[d].platform == s.calls[c].platform
                  && s.calls[c].key == s.calls[d].key
      :: c == d
  }

  /** What is marked as enqueued really is in the queue; ids in circulation were handed out. */
  ghost predicate HandOffInv(s: State) {
    && QueueIdsOk(s.db)
    && (forall j | j in s.db.outbox && s.db.outbox[j].enqueuedAt.Some? :: s.db.outbox[j].queueJobId in s.queue)
    && (forall d | d in s.dispatchers ::
          s.dispatchers[d].queueJobId < s.db.nextQueueId
              && (s.dispatchers[d].added ==> s.dispatchers[d].queueJobId in s.queue))
    && (forall q | q in s.queue :: q < s.db.nextQueueId)
  }

  ghost predicate JobsInv(s: State) {
    forall j | j in s.db.jobs :: JobInv(s, j)
  }

  ghost predicate PostsInv(s: State)
    requires Shape(s.db)
  {
    s.approvals.Keys <= s.db.posts.Keys && forall p | p in s.db.posts :: PostInv(s, p)
  }

  ghost predicate WorkersInv(s: State) {
    forall w | w in s.workers :: WorkerInv(s, w)
  }

  ghost predicate CallsInv(s: State) {
    forall c | c in s.calls :: CallInv(s, c)
  }

  ghost predicate Inv(s: State) {
    Shape(s.db) && JobsInv(s) && PostsInv(s) && WorkersInv(s) && CallsInv(s) && ProviderInv(s) && HandOffInv(s)
  }

  // -------------------------------------------------------------- frames

  /** Same tables and same provider: only workers and history counters moved. */
  ghost predicate OnlyWorkers(s: State, t: State) {
    && t.db == s.db && t.calls == s.calls && t.now == s.now && t.approvals == s.approvals
    && t.dispatchers == s.dispatchers && t.queue == s.queue && t.idempotent == s.idempotent
  }

  ghost predicate SameOrOk(s: State, t: State) {
    forall w | w in t.workers :: (w in s.workers && t.workers[w] == s.workers[w]) || WorkerInv(t, w)
  }

  lemma WorkersOnly(s: State, t: State)
    requires Inv(s) && OnlyWorkers(s, t) && SameOrOk(s, t)
    ensures Inv(t)
  {
    assert JobsInv(t) by { forall j | j in t.db.jobs ensures JobInv(t, j) { assert JobInv(s, j); } }
    assert PostsInv(t) by { forall p | p in t.db.posts ensures PostInv(t, p) { assert PostInv(s, p); } }
    assert CallsInv(t) by { forall c | c in t.calls ensures CallInv(t, c) { assert CallInv(s, c); } }
    forall w | w in t.workers ensures WorkerInv(t, w) {
      if w in s.workers && t.workers[w] == s.workers[w] { assert WorkerInv(s, w); }
    }
  }

  /** One row moved, and with it at most its alert and its social post. */
  ghost predicate OnlyRow(s: State, t: State, j: JobId) {
    && j in s.db.jobs && j in t.db.jobs
    && t.db == s.db.(jobs := s.db.jobs[j := t.db.jobs[j]], alerts := t.db.alerts, socialPosts := t.db.socialPosts)
    && (forall k | k != j ::
         (k in t.db.alerts <==> k in s.db.alerts) && (k in s.db.alerts ==> t.db.alerts[k] == s.db.alerts[k]))
    && (forall k | k != j ::
         (k in t.db.socialPosts <==> k in s.db.socialPosts)
             && (k in s.db.socialPosts ==> t.db.socialPosts[k] == s.db.socialPosts[k]))
    && t.calls == s.calls && t.now == s.now && t.approvals == s.approvals
    && t.dispatchers == s.dispatchers && t.queue == s.queue && t.idempotent == s.idempotent
    && SameTarget(s.db.jobs[j], t.db.jobs[j])
  }

  ghost predicate SameTarget(a: SocialPublishJob, b: SocialPublishJob) {
    a.id == b.id && a.postId == b.postId && a.platform == b.platform && a.accountId == b.accountId
        && a.scheduledAt == b.scheduledAt
  }

  /** remote_confirmed leads only to published, published and cancelled rows stay, a remote id is never rewritten. */
  ghost predicate SuccessIsFrozen(before: SocialPublishJob, after: SocialPublishJob) {
    && (before.status == RemoteConfirmed ==> IsSuccess(after.status))
    && (before.status in {Published, Cancelled} ==> after == before)
    && (before.remotePostId.Some? ==> after.remotePostId == before.remotePostId)
  }

  lemma RowOnlyShape(s: State, t: State, j: JobId)
    requires Shape(s.db) && OnlyRow(s, t, j)
    ensures Shape(t.db)
  {
    forall p | p in t.db.posts ensures t.db.posts[p].id == p && IndexOk(t.db, p) { assert IndexOk(s.db, p); }
    forall k | k in t.db.jobs
      ensures t.db.jobs[k].id == k && t.db.jobs[k].postId in t.db.posts && k in t.db.jobsOfPost[t.db.jobs[k].postId] {}
  }

  lemma RowOnlyJobs(s: State, t: State, j: JobId)
    requires OnlyRow(s, t, j) && JobsInv(s) && JobInv(t, j)
    ensures JobsInv(t)
  {
    forall k | k in t.db.jobs ensures JobInv(t, k) { assert k != j ==> JobInv(s, k); }
  }

  lemma RowOnlyPosts(s: State, t: State, j: JobId)
    requires Shape(s.db) && Shape(t.db) && OnlyRow(s, t, j) && PostsInv(s)
    ensures PostsInv(t)
  {
    forall p | p in t.db.posts ensures PostInv(t, p) { assert PostInv(s, p); }
  }

  lemma RowOnlyWorkers(s: State, t: State, j: JobId)
    requires OnlyRow(s, t, j) && SuccessIsFrozen(s.db.jobs[j], t.db.jobs[j]) && WorkersInv(s) && SameOrOk(s, t)
    ensures WorkersInv(t)
  {
    forall w | w in t.workers ensures WorkerInv(t, w) {
      if w in s.workers && t.workers[w] == s.workers[w] { assert WorkerInv(s, w); }
    }
  }

  lemma RowOnlyCalls(s: State, t: State, j: JobId)
    requires OnlyRow(s, t, j) && CallsInv(s)
    ensures CallsInv(t)
  {
    forall c | c in t.calls ensures CallInv(t, c) { assert CallInv(s, c); }
  }

  lemma RowOnlyRest(s: State, t: State, j: JobId)
    requires OnlyRow(s, t, j) && ProviderInv(s) && HandOffInv(s)
    ensures ProviderInv(t) && HandOffInv(t)
  {
  }

  lemma RowOnly(s: State, t: State, j: JobId)
    requires Inv(s) && OnlyRow(s, t, j) && SameOrOk(s, t)
    requires SuccessIsFrozen(s.db.jobs[j], t.db.jobs[j])
    requires JobInv(t, j)
    ensures Inv(t)
  {
    RowOnlyShape(s, t, j);
    RowOnlyJobs(s, t, j);
    RowOnlyPosts(s, t, j);
    RowOnlyWorkers(s, t, j);
    RowOnlyCalls(s, t, j);
    RowOnlyRest(s, t, j);
  }
}
