/**
 * What one successful editorial transaction does to the tables, said without the callback and
 * the loops that do it. The protocol allows every change of this kind; the transactions of
 * PgPostRepository.mutate are of this kind.
 */
module EditContract {
  import opened Wrappers
  import opened PostEntity
  import opened Schema
  import opened PostService
  import opened PostRepository
  import opened PostRefinement

  /** One job row under a command, column by column. */
  predicate EditedRow(command: Command, before: SocialPublishJob, after: SocialPublishJob) {
    match command
    case UpdateDraft(_, _, _) => after == before
    case Schedule(scheduledAt, _, _, _) =>
      && before.status in {Waiting, Cancelled} && before.remoteRequestKey.None?
      && after == if before.status == Waiting then before.(scheduledAt := scheduledAt) else before
    case Cancel(_) =>
      && before.status !in {Claimed, RemoteRequesting, RemoteConfirmed}
      && (before.remoteRequestKey.Some? ==> before.status == Published)
      && after == if before.status in {Waiting, Retrying, Failed}
                  then before.(status := Cancelled, nextRetryAt := None) else before
    case Retry(jobId, _, retriedAt) =>
      if before.id == jobId then
        && before.status == Failed && before.remoteRequestKey.None? && before.remotePostId.None?
        && after == before.(status := Waiting, scheduledAt := retriedAt, errorCode := None, errorMessage := None,
                            retryCount := 0, nextRetryAt := None)
      else after == before
  }

  ghost predicate IsEditedJob(db: Db, after: Db, p: PostId, command: Command, j: JobId) {
    && j in db.jobs && j in after.jobs && p in db.posts && p in after.posts
    && EditedRow(command, db.jobs[j], after.jobs[j])
    && EditedOutbox(db, after, j, db.posts[p].status == DraftPost, after.posts[p].status == ScheduledPost)
  }

  /** Status and revision; content changes under UpdateDraft only. */
  ghost predicate IsEditedPost(db: Db, after: Db, p: PostId, command: Command) {
    && p in db.posts && p in db.media && p in db.jobsOfPost && p in after.posts && p in after.media
    && after.posts[p].id == p && after.posts[p].ownerId == db.posts[p].ownerId
    && after.posts[p].revision == db.posts[p].revision + 1 && after.posts[p].campaignId == db.posts[p].campaignId
    && after.posts[p].scheduledAt == (if command.Schedule? then command.scheduledAt else db.posts[p].scheduledAt)
    && (if command.UpdateDraft? then
          && db.posts[p].status == after.posts[p].status == DraftPost
          && ReadPost(after, p).content
               == command.content.(platformBodies := Some(command.content.platformBodies.GetOr(map[])))
        else
          && ReadPost(after, p).content == ReadPost(db, p).content
          && (!command.Cancel? ==> after.posts[p].status == ScheduledPost)
          && (command.Cancel? && db.jobsOfPost[p] != [] ==> after.posts[p].status !in {DraftPost, ScheduledPost}))
  }

  ghost predicate IsEdit(db: Db, p: PostId, command: Command, after: Db) {
    && Readable(db, p) && db.posts[p].revision == CommandRevision(command)
    && TouchesOnly(db, after, p) && Shape(after) && QueueIdsOk(after) && db.nextQueueId <= after.nextQueueId
    && IsEditedPost(db, after, p, command)
    && (forall j | j in db.jobsOfPost[p] :: IsEditedJob(db, after, p, command, j))
    && (command.Retry? ==> command.jobId in db.jobsOfPost[p])
  }

  // -------------------------------------------------------------- the transactions of the repository

  lemma NothingPendingIsNotScheduled(jobs: seq<SocialPublishJob>)
    requires |jobs| > 0 && forall j | j in jobs :: j.status !in {Waiting, Retrying}
    ensures SummarizeStatus(jobs) !in {DraftPost, ScheduledPost}
  {
    if exists a :: a in jobs && a.status != Published {
      var a :| a in jobs && a.status != Published;
      assert InFlightStatus(a.status) || FailedOrCancelled(a.status);
    }
  }

  lemma CancelLeavesNothingPending(r: PostRecord, command: Command)
    requires command.Cancel? && |r.jobs| > 0 && Apply(command, r).Success?
    ensures Apply(command, r).value.post.status !in {DraftPost, ScheduledPost}
  {
    var next := Apply(command, r).value;
    forall j | j in next.jobs ensures j.status !in {Waiting, Retrying} {
      var i :| 0 <= i < |next.jobs| && next.jobs[i] == j;
      assert j == CancelledJob(r.jobs[i]);
    }
    assert |next.jobs| == |r.jobs|;
    NothingPendingIsNotScheduled(next.jobs);
  }

  lemma AppliedRow(r: PostRecord, command: Command, i: nat)
    requires i < |r.jobs| && Apply(command, r).Success?
    ensures |Apply(command, r).value.jobs| == |r.jobs| && EditedRow(command, r.jobs[i], Apply(command, r).value.jobs[i])
  {
    assert r.jobs[i] in r.jobs;
  }

  lemma AppliedStatus(r: PostRecord, command: Command)
    requires Apply(command, r).Success?
    ensures var next := Apply(command, r).value;
            && r.post.revision == CommandRevision(command)
            && (command.UpdateDraft? ==>
                 r.post.status == next.post.status == DraftPost && next.post.content == command.content)
            && next.post.id == r.post.id && next.post.ownerId == r.post.ownerId
            && next.post.campaignId == r.post.campaignId
            && next.post.scheduledAt == (if command.Schedule? then command.scheduledAt else r.post.scheduledAt)
            && (!command.UpdateDraft? ==> next.post.content == r.post.content)
            && (command.Schedule? || command.Retry? ==> next.post.status == ScheduledPost)
            && (command.Retry? ==> exists job :: job in r.jobs && job.id == command.jobId)
  {
  }

  lemma StoredPost(db: Db, p: PostId, command: Command, next: PostRecord)
    requires Shape(db) && Readable(db, p) && Apply(command, ReadRecord(db, p)) == Success(next) && Aligned(db, p, next)
    ensures IsEditedPost(db, WriteRecord(db, p, next), p, command)
  {
    var r := ReadRecord(db, p);
    WriteKeepsTables(db, p, next);
    ReadAfterWrite(db, p, next);
    AppliedStatus(r, command);
    assert ReadRecord(WriteRecord(db, p, next), p).post == Stored(next).post;
    if command.Cancel? && r.jobs != [] { CancelLeavesNothingPending(r, command); }
  }

  lemma StoredJob(db: Db, p: PostId, command: Command, next: PostRecord, i: nat)
    requires Shape(db) && Readable(db, p) && Apply(command, ReadRecord(db, p)) == Success(next) && Aligned(db, p, next)
    requires i < |db.jobsOfPost[p]|
    ensures IsEditedJob(db, WriteRecord(db, p, next), p, command, db.jobsOfPost[p][i])
  {
    assert IndexOk(db, p);
    AppliedRow(ReadRecord(db, p), command, i);
    JobsAfterWrite(db, p, next, i);
    WriteKeepsTables(db, p, next);
  }

  lemma RetriedJobIsListed(db: Db, p: PostId, command: Command)
    requires Shape(db) && Readable(db, p) && Apply(command, ReadRecord(db, p)).Success? && command.Retry?
    ensures command.jobId in db.jobsOfPost[p]
  {
    var jobs := ReadRecord(db, p).jobs;
    AppliedStatus(ReadRecord(db, p), command);
    var job :| job in jobs && job.id == command.jobId;
    var i :| 0 <= i < |jobs| && jobs[i] == job;
    assert IndexOk(db, p) && db.jobs[db.jobsOfPost[p][i]].id == db.jobsOfPost[p][i];
  }

  /** Every successful mutate of a service command is an edit in this sense. */
  lemma MutateIsEdit(db: Db, p: PostId, ownerId: OwnerId, command: Command, accountsOk: bool)
    requires Shape(db) && QueueIdsOk(db) && PgMutate(db, p, ownerId, Callback(command), accountsOk).Success?
    ensures IsEdit(db, p, command, PgMutate(db, p, ownerId, Callback(command), accountsOk).value.db)
  {
    var r := ReadRecord(db, p);
    assert Callback(command)(r) == Apply(command, r);
    var next := Apply(command, r).value;
    WrittenIsEdit(db, p, command, next);
  }

  lemma WrittenIsEdit(db: Db, p: PostId, command: Command, next: PostRecord)
    requires Shape(db) && QueueIdsOk(db) && Readable(db, p)
    requires Apply(command, ReadRecord(db, p)) == Success(next)
    ensures IsEdit(db, p, command, WriteRecord(db, p, next))
  {
    CommandsAreAligned(db, p, command);
    AppliedStatus(ReadRecord(db, p), command);
    WriteTouchesOnly(db, p, next);
    WriteKeepsShape(db, p, next);
    WriteKeepsTables(db, p, next);
    StoredPost(db, p, command, next);
    if command.Retry? { RetriedJobIsListed(db, p, command); }
    forall j | j in db.jobsOfPost[p] ensures IsEditedJob(db, WriteRecord(db, p, next), p, command, j) {
      var i :| 0 <= i < |db.jobsOfPost[p]| && db.jobsOfPost[p][i] == j;
      StoredJob(db, p, command, next, i);
    }
  }
}
