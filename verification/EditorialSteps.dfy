/** Editorial transactions keep the protocol invariant. */
module EditorialSteps {
  import opened Wrappers
  import opened PostEntity
  import opened Schema
  import opened PostService
  import opened PostRepository
  import opened PostRefinement
  import opened EditContract
  import opened PublishProtocol
  import opened ProtocolInvariant

  // -------------------------------------------------------------- what a command does to one job

  /** The four ways an editorial command may leave a job, and how the post's status goes with it. */
  ghost predicate EditOk(before: SocialPublishJob, after: SocialPublishJob, was: PostStatus, becomes: PostStatus,
      now: Time) {
    && (|| after == before
        || (before.status == Waiting && after == before.(scheduledAt := after.scheduledAt) && becomes == ScheduledPost)
        || (before.status in {Waiting, Retrying, Failed} && before.remoteRequestKey.None?
            && after == before.(status := Cancelled, nextRetryAt := None))
        || (before.status == Failed && before.remoteRequestKey.None? && becomes == ScheduledPost
            && after.scheduledAt <= now
            && after == RetriedJob(before, before.id, after.scheduledAt)))
    && (becomes == DraftPost ==> was == DraftPost && after == before)
    && (was == DraftPost && becomes != DraftPost ==> becomes == ScheduledPost || after.status == Cancelled)
  }

  /** What the contract says of a row, in a post whose drafts are still waiting. */
  lemma EditedRowEdits(command: Command, before: SocialPublishJob, after: SocialPublishJob, was: PostStatus,
      becomes: PostStatus, now: Time)
    requires EditedRow(command, before, after) && RowOk(before, now) && (command.Retry? ==> command.retriedAt <= now)
    requires was == DraftPost ==> before.status == Waiting
    requires if command.UpdateDraft? then was == becomes == DraftPost else
               (!command.Cancel? ==> becomes == ScheduledPost)
                   && (command.Cancel? ==> becomes !in {DraftPost, ScheduledPost})
    ensures EditOk(before, after, was, becomes, now)
  {
  }

  lemma EditedRowIsOk(before: SocialPublishJob, after: SocialPublishJob, was: PostStatus, becomes: PostStatus,
      now: Time)
    requires RowOk(before, now) && EditOk(before, after, was, becomes, now)
    ensures RowOk(after, now) && SuccessIsFrozen(before, after)
    ensures after.remotePostId == before.remotePostId && (after.status == Published <==> before.status == Published)
  {
  }

  lemma EditedTablesAreOk(s: State, t: State, j: JobId)
    requires j in s.db.jobs && JobInv(s, j) && j in t.db.jobs && t.db.jobs[j].id == j
    requires t.db.jobs[j].postId == s.db.jobs[j].postId && s.db.jobs[j].postId in t.db.posts
    requires var p := s.db.jobs[j].postId;
             && EditOk(s.db.jobs[j], t.db.jobs[j], s.db.posts[p].status, t.db.posts[p].status, s.now)
             && EditedOutbox(s.db, t.db, j, s.db.posts[p].status == DraftPost, t.db.posts[p].status == ScheduledPost)
             && (p in s.approvals || (s.db.posts[p].status == DraftPost && t.db.posts[p].status == ScheduledPost) ==>
                  p in t.approvals)
    requires t.now == s.now && t.calls == s.calls && t.db.alerts == s.db.alerts && t.db.socialPosts == s.db.socialPosts
    ensures JobInv(t, j)
  {
    EditedRowIsOk(s.db.jobs[j], t.db.jobs[j], s.db.posts[s.db.jobs[j].postId].status,
        t.db.posts[s.db.jobs[j].postId].status, s.now);
  }

  // -------------------------------------------------------------- Edit

  /** t is s after a successful edit of post p. */
  ghost predicate EditedTo(s: State, t: State, p: PostId, command: Command) {
    && IsEdit(s.db, p, command, t.db) && (command.Retry? ==> command.retriedAt <= s.now)
    && t == EditStep(s, p, command, t.db)
  }

  lemma EditIsStep(s: State, e: Event)
    requires e.Edit? && Enabled(s, e)
    ensures EditedTo(s, Next(s, e), e.postId, e.command)
  {
  }

  lemma EditedJob(s: State, t: State, p: PostId, command: Command, j: JobId)
    requires EditedTo(s, t, p, command) && Shape(s.db) && JobsInv(s) && j in s.db.jobs && s.db.jobs[j].postId == p
    ensures IsEditedJob(s.db, t.db, p, command, j) && t.db.jobs[j].postId == p && t.db.jobs[j].id == j
    ensures EditOk(s.db.jobs[j], t.db.jobs[j], s.db.posts[p].status, t.db.posts[p].status, s.now)
  {
    assert JobInv(s, j) && j in s.db.jobsOfPost[p] && IsEditedJob(s.db, t.db, p, command, j);
    EditedRowEdits(command, s.db.jobs[j], t.db.jobs[j], s.db.posts[p].status, t.db.posts[p].status, s.now);
  }

  lemma FailedIsNoDraft(s: State, j: JobId)
    requires j in s.db.jobs && JobInv(s, j) && s.db.jobs[j].status == Failed
    ensures s.db.posts[s.db.jobs[j].postId].status != DraftPost
  {
  }

  lemma RetriedJobHasFailed(s: State, t: State, p: PostId, command: Command)
    requires EditedTo(s, t, p, command) && IndexOk(s.db, p) && command.Retry? && forall j | j in s.db.jobs ::
             s.db.jobs[j].id == j
    ensures var j := command.jobId;
            j in s.db.jobs && s.db.jobs[j].postId == p && s.db.jobs[j].status == Failed
  {
    assert IsEditedJob(s.db, t.db, p, command, command.jobId);
  }

  /** Only schedule takes a draft into the queue. */
  lemma DraftIsScheduledBySchedule(s: State, t: State, p: PostId, command: Command)
    requires EditedTo(s, t, p, command) && Shape(s.db) && JobsInv(s) && s.db.jobsOfPost[p] != []
    requires s.db.posts[p].status == DraftPost && t.db.posts[p].status == ScheduledPost
    ensures p in t.approvals
  {
    if command.Retry? {
      assert IndexOk(s.db, p);
      RetriedJobHasFailed(s, t, p, command);
      assert JobInv(s, command.jobId);
      FailedIsNoDraft(s, command.jobId);
    }
  }

  lemma EditedJobKeepsInv(s: State, t: State, p: PostId, command: Command, j: JobId)
    requires EditedTo(s, t, p, command) && Shape(s.db) && JobsInv(s) && j in s.db.jobs && s.db.jobs[j].postId == p
    ensures j in t.db.jobs && JobInv(t, j)
  {
    EditedJob(s, t, p, command, j);
    assert j in s.db.jobsOfPost[p];
    if s.db.posts[p].status == DraftPost && t.db.posts[p].status == ScheduledPost {
      DraftIsScheduledBySchedule(s, t, p, command);
    }
    assert JobInv(s, j);
    EditedTablesAreOk(s, t, j);
  }

  lemma OtherJobKeepsInv(s: State, t: State, p: PostId, j: JobId)
    requires TouchesOnly(s.db, t.db, p) && t.now == s.now && t.calls == s.calls && s.approvals.Keys <= t.approvals.Keys
    requires j in s.db.jobs && s.db.jobs[j].postId != p && JobInv(s, j)
    ensures j in t.db.jobs && JobInv(t, j)
  {
  }

  lemma EditKeepsJobs(s: State, t: State, p: PostId, command: Command)
    requires EditedTo(s, t, p, command) && Shape(s.db) && JobsInv(s)
    ensures JobsInv(t)
  {
    forall j | j in t.db.jobs ensures JobInv(t, j) {
      if s.db.jobs[j].postId == p {
        EditedJobKeepsInv(s, t, p, command, j);
      } else {
        assert JobInv(s, j);
        OtherJobKeepsInv(s, t, p, j);
      }
    }
  }

  /** The approval of a post, where it has one, is the stored content's. */
  ghost predicate ApprovalOk(s: State, p: PostId) {
    p in s.approvals && p in s.db.posts && p in s.db.media ==>
      && s.db.posts[p].status != DraftPost
      && s.approvals[p].content == ReadPost(s.db, p).content
      && s.approvals[p].revision < s.db.posts[p].revision
  }

  lemma EditedApprovalIsOk(s: State, t: State, p: PostId, command: Command)
    requires IsEditedPost(s.db, t.db, p, command) && CommandRevision(command) == s.db.posts[p].revision
    requires t.approvals == Approved(s, p, command) && ApprovalOk(s, p) && s.db.jobsOfPost[p] != []
    ensures ApprovalOk(t, p)
  {
  }

  lemma EditedPostKeepsInv(s: State, t: State, p: PostId, command: Command)
    requires EditedTo(s, t, p, command) && Shape(s.db) && PostInv(s, p)
    ensures p in t.db.posts && PostInv(t, p)
  {
    EditedApprovalIsOk(s, t, p, command);
  }

  lemma OtherPostKeepsInv(s: State, t: State, p: PostId, command: Command, q: PostId)
    requires EditedTo(s, t, p, command) && Shape(s.db) && q in s.db.posts && q != p && PostInv(s, q)
    ensures q in t.db.posts && PostInv(t, q)
  {
    assert ReadPost(t.db, q) == ReadPost(s.db, q);
  }

  lemma EditKeepsPosts(s: State, t: State, p: PostId, command: Command)
    requires EditedTo(s, t, p, command) && Shape(s.db) && PostsInv(s)
    ensures PostsInv(t)
  {
    assert PostInv(s, p);
    EditedPostKeepsInv(s, t, p, command);
    forall q | q in t.db.posts ensures PostInv(t, q) {
      if q != p {
        assert PostInv(s, q);
        OtherPostKeepsInv(s, t, p, command, q);
      }
    }
  }

  lemma EditKeepsApprovals(s: State, t: State, p: PostId, command: Command)
    requires EditedTo(s, t, p, command) && Shape(s.db) && PostsInv(s)
    ensures forall q | q in s.approvals :: q in t.approvals && t.approvals[q].content == s.approvals[q].content
  {
    assert PostInv(s, p);
  }

  /** Jobs keep their target, successes their remote id, approvals their content. */
  ghost predicate TablesGrow(s: State, t: State) {
    && t.calls == s.calls && s.now <= t.now && t.workers == s.workers && t.idempotent == s.idempotent
    && (forall j | j in s.db.jobs :: JobGrows(s, t, j))
    && (forall q | q in s.approvals :: q in t.approvals && t.approvals[q].content == s.approvals[q].content)
  }

  lemma GrowingTablesKeepWorkers(s: State, t: State)
    requires WorkersInv(s) && CallsInv(s) && TablesGrow(s, t)
    ensures WorkersInv(t) && CallsInv(t)
  {
    forall w | w in t.workers ensures WorkerInv(t, w) { assert WorkerInv(s, w); }
    forall c | c in t.calls ensures CallInv(t, c) { assert CallInv(s, c); }
  }

  /** The job keeps its target and, once successful or cancelled, its row. */
  ghost predicate JobGrows(s: State, t: State, j: JobId)
    requires j in s.db.jobs
  {
    && j in t.db.jobs && t.db.jobs[j].id == s.db.jobs[j].id && t.db.jobs[j].postId == s.db.jobs[j].postId
    && t.db.jobs[j].platform == s.db.jobs[j].platform && t.db.jobs[j].accountId == s.db.jobs[j].accountId
    && t.db.jobs[j].remoteRequestKey == s.db.jobs[j].remoteRequestKey
    && SuccessIsFrozen(s.db.jobs[j], t.db.jobs[j])
  }

  lemma EditedJobGrows(s: State, t: State, p: PostId, command: Command, j: JobId)
    requires EditedTo(s, t, p, command) && Shape(s.db) && JobsInv(s) && j in s.db.jobs
    ensures JobGrows(s, t, j)
  {
    if s.db.jobs[j].postId == p {
      EditedJob(s, t, p, command, j);
      EditedRowGrows(s, t, j, s.db.posts[p].status, t.db.posts[p].status);
    }
  }

  lemma EditedRowGrows(s: State, t: State, j: JobId, was: PostStatus, becomes: PostStatus)
    requires j in s.db.jobs && j in t.db.jobs && EditOk(s.db.jobs[j], t.db.jobs[j], was, becomes, s.now)
    ensures JobGrows(s, t, j)
  {
  }

  lemma EditGrowsTables(s: State, t: State, p: PostId, command: Command)
    requires EditedTo(s, t, p, command) && Shape(s.db) && JobsInv(s) && PostsInv(s)
    ensures TablesGrow(s, t)
  {
    EditKeepsApprovals(s, t, p, command);
    forall j | j in s.db.jobs ensures JobGrows(s, t, j) { EditedJobGrows(s, t, p, command, j); }
  }

  lemma EditedJobOutbox(s: State, t: State, p: PostId, command: Command, j: JobId)
    requires EditedTo(s, t, p, command) && j in s.db.jobsOfPost[p]
    ensures p in s.db.posts && p in t.db.posts && j in s.db.jobs && j in t.db.jobs
    ensures EditedOutbox(s.db, t.db, j, s.db.posts[p].status == DraftPost, t.db.posts[p].status == ScheduledPost)
  {
    assert IsEditedJob(s.db, t.db, p, command, j);
  }

  /** The outbox row of a job after an edit, of its own post or of another. */
  ghost predicate OutboxFollows(db: Db, after: Db, j: JobId) {
    && j in db.jobs && j in after.jobs
    && (SameOutboxRow(db, after, j) || exists wasDraft, published :: EditedOutbox(db, after, j, wasDraft, published))
  }

  lemma ListedUnderItsPost(db: Db, j: JobId, p: PostId)
    requires Shape(db) && j in db.jobs && db.jobs[j].postId == p
    ensures p in db.jobsOfPost && j in db.jobsOfPost[p]
  {
  }

  lemma OtherOutboxRow(s: State, t: State, p: PostId, command: Command, j: JobId)
    requires EditedTo(s, t, p, command) && j in s.db.jobs && s.db.jobs[j].postId != p
    ensures j in t.db.jobs && SameOutboxRow(s.db, t.db, j)
  {
  }

  lemma OutboxRowFollows(s: State, t: State, p: PostId, command: Command, j: JobId)
    requires EditedTo(s, t, p, command) && Shape(s.db) && j in s.db.jobs
    ensures OutboxFollows(s.db, t.db, j)
  {
    if s.db.jobs[j].postId == p {
      ListedUnderItsPost(s.db, j, p);
      EditedJobOutbox(s, t, p, command, j);
    } else {
      OtherOutboxRow(s, t, p, command, j);
    }
  }

  /** A row of the outbox that is marked as enqueued was so before, under the same id. */
  lemma EditedEnqueued(s: State, t: State, p: PostId, command: Command, j: JobId)
    requires EditedTo(s, t, p, command) && Shape(s.db)
    requires j in s.db.jobs && j in t.db.outbox && t.db.outbox[j].enqueuedAt.Some?
    ensures j in s.db.outbox && t.db.outbox[j] == s.db.outbox[j]
  {
    OutboxRowFollows(s, t, p, command, j);
    EnqueuedIsOld(s.db, t.db, j);
  }

  lemma EnqueuedIsOld(db: Db, after: Db, j: JobId)
    requires OutboxFollows(db, after, j) && j in after.outbox && after.outbox[j].enqueuedAt.Some?
    ensures j in db.outbox && after.outbox[j] == db.outbox[j]
  {
  }

  lemma EditKeepsHandOff(s: State, t: State, p: PostId, command: Command)
    requires EditedTo(s, t, p, command) && Shape(s.db) && JobsInv(s) && HandOffInv(s)
    ensures HandOffInv(t)
  {
    forall j | j in t.db.outbox && t.db.outbox[j].enqueuedAt.Some? ensures t.db.outbox[j].queueJobId in t.queue {
      EditedEnqueued(s, t, p, command, j);
    }
  }

  lemma EditedKeepsInv(s: State, t: State, p: PostId, command: Command)
    requires Inv(s) && EditedTo(s, t, p, command)
    ensures Inv(t) && TablesGrow(s, t)
  {
    EditKeepsJobs(s, t, p, command);
    EditKeepsPosts(s, t, p, command);
    EditGrowsTables(s, t, p, command);
    GrowingTablesKeepWorkers(s, t);
    EditKeepsHandOff(s, t, p, command);
  }

  lemma EditKeepsInv(s: State, e: Event)
    requires Inv(s) && e.Edit? && Enabled(s, e)
    ensures Inv(Next(s, e)) && TablesGrow(s, Next(s, e))
  {
    EditIsStep(s, e);
    EditedKeepsInv(s, Next(s, e), e.postId, e.command);
  }
}
