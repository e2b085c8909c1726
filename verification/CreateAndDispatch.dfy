/** Creating drafts and handing outbox rows to the queue keep the protocol invariant. */
module CreateAndDispatch {
  import opened Wrappers
  import opened PostEntity
  import opened Schema
  import opened PostRepository
  import opened PostRefinement
  import opened PublishOutboxRepository
  import opened PublishProtocol
  import opened ProtocolInvariant
  import opened EditorialSteps

  // -------------------------------------------------------------- Create

  lemma {:induction false} InsertSortedKeepsOrder(ids: seq<JobId>, j: JobId)
    requires j !in ids && forall i, k | 0 <= i < k < |ids| :: ids[i] < ids[k]
    ensures var r := InsertSorted(ids, j);
            && |r| == |ids| + 1 && (forall k :: k in r <==> k in ids || k == j)
            && forall i, k | 0 <= i < k < |r| :: r[i] < r[k]
    decreases |ids|
  {
    var r := InsertSorted(ids, j);
    if ids == [] || j < ids[0] {
      assert r == [j] + ids;
    } else {
      var rest := InsertSorted(ids[1..], j);
      InsertSortedKeepsOrder(ids[1..], j);
      assert ids == [ids[0]] + ids[1..] && r == [ids[0]] + rest;
      assert forall k | k in rest :: ids[0] < k;
      forall i, k | 0 <= i < k < |r| ensures r[i] < r[k] {
        assert r[k] == rest[k - 1] && rest[k - 1] in rest;
        if i > 0 { assert r[i] == rest[i - 1] && rest[i - 1] < rest[k - 1]; }
      }
    }
  }

  /** Only a new post's rows were added; drafts get no outbox row. */
  ghost predicate AddsDraftJobs(db: Db, after: Db, p: PostId, jobs: seq<SocialPublishJob>) {
    && after == db.(jobs := after.jobs, jobsOfPost := after.jobsOfPost)
    && after.jobsOfPost.Keys == db.jobsOfPost.Keys
    && (forall q | q in db.jobsOfPost && q != p :: after.jobsOfPost[q] == db.jobsOfPost[q])
    && (forall j :: j in after.jobs <==> j in db.jobs || exists i :: 0 <= i < |jobs| && jobs[i].id == j)
    && (forall j | j in db.jobs :: after.jobs[j] == db.jobs[j])
    && (forall i | 0 <= i < |jobs| :: after.jobs[jobs[i].id] == jobs[i])
  }

  ghost predicate FreshDraftJobs(db: Db, p: PostId, jobs: seq<SocialPublishJob>) {
    && (forall i | 0 <= i < |jobs| :: jobs[i].id !in db.jobs && jobs[i].postId == p && jobs[i].status == Waiting)
    && (forall i, k | 0 <= i < k < |jobs| :: jobs[i].id != jobs[k].id)
  }

  /** The tables after one draft job: its row, and its place in the index. */
  ghost predicate OneJobAdded(db: Db, after: Db, p: PostId, job: SocialPublishJob)
    requires p in db.jobsOfPost
  {
    after
        == db.(jobs := db.jobs[job.id := job], jobsOfPost := db.jobsOfPost[p := InsertSorted(db.jobsOfPost[p], job.id)])
  }

  lemma InsertOneIsAdded(db: Db, p: PostId, job: SocialPublishJob)
    requires p in db.posts && p in db.jobsOfPost && db.posts[p].status == DraftPost && job.postId == p
    requires job.status == Waiting
    ensures OneJobAdded(db, IndexJob(InsertJob(db, job), job), p, job)
  {
  }

  lemma NewJobIsIndexed(db: Db, after: Db, p: PostId, job: SocialPublishJob)
    requires p in db.jobsOfPost && IndexOk(db, p) && job.id !in db.jobs && job.postId == p
    requires OneJobAdded(db, after, p, job)
    ensures p in after.jobsOfPost && IndexOk(after, p) && |after.jobsOfPost[p]| == |db.jobsOfPost[p]| + 1
    ensures forall k :: k in after.jobsOfPost[p] <==> k in db.jobsOfPost[p] || k == job.id
  {
    InsertSortedKeepsOrder(db.jobsOfPost[p], job.id);
    var ids := after.jobsOfPost[p];
    forall i | 0 <= i < |ids| ensures ids[i] in after.jobs && after.jobs[ids[i]].postId == p { assert ids[i] in ids; }
  }

  lemma OtherIndexStays(db: Db, after: Db, p: PostId, job: SocialPublishJob, q: PostId)
    requires p in db.jobsOfPost && q in db.jobsOfPost && q != p && IndexOk(db, q) && job.id !in db.jobs
    requires OneJobAdded(db, after, p, job)
    ensures q in after.jobsOfPost && IndexOk(after, q)
  {
  }

  lemma OneJobShape(db: Db, after: Db, p: PostId, job: SocialPublishJob)
    requires Shape(db) && p in db.posts && job.id !in db.jobs && job.postId == p && OneJobAdded(db, after, p, job)
    ensures Shape(after) && |after.jobsOfPost[p]| == |db.jobsOfPost[p]| + 1
  {
    NewJobIsIndexed(db, after, p, job);
    forall q | q in after.posts ensures after.posts[q].id == q && IndexOk(after, q) {
      if q != p { OtherIndexStays(db, after, p, job, q); }
    }
  }

  lemma OneJobAdds(db: Db, after: Db, p: PostId, job: SocialPublishJob)
    requires p in db.jobsOfPost && job.id !in db.jobs && OneJobAdded(db, after, p, job)
    ensures AddsDraftJobs(db, after, p, [job])
  {
    assert [job][0].id == job.id;
  }

  lemma InsertOneJob(db: Db, p: PostId, job: SocialPublishJob)
    requires Shape(db) && p in db.posts && db.posts[p].status == DraftPost
    requires job.id !in db.jobs && job.postId == p && job.status == Waiting
    ensures var after := IndexJob(InsertJob(db, job), job);
            && Shape(after) && AddsDraftJobs(db, after, p, [job]) && |after.jobsOfPost[p]| == |db.jobsOfPost[p]| + 1
  {
    var after := IndexJob(InsertJob(db, job), job);
    InsertOneIsAdded(db, p, job);
    OneJobShape(db, after, p, job);
    OneJobAdds(db, after, p, job);
  }

  lemma {:induction false} InsertAllJobs(db: Db, p: PostId, jobs: seq<SocialPublishJob>)
    requires Shape(db) && p in db.posts && db.posts[p].status == DraftPost && FreshDraftJobs(db, p, jobs)
    ensures var after := InsertJobs(db, jobs);
            && Shape(after) && AddsDraftJobs(db, after, p, jobs) && |after.jobsOfPost[p]| == |db.jobsOfPost[p]| + |jobs|
    decreases |jobs|
  {
    if jobs != [] {
      var step := IndexJob(InsertJob(db, jobs[0]), jobs[0]);
      InsertOneJob(db, p, jobs[0]);
      assert FreshDraftJobs(step, p, jobs[1..]) by {
        forall i | 0 <= i < |jobs[1..]| ensures jobs[1..][i].id !in step.jobs {
          assert jobs[1..][i] == jobs[i + 1];
        }
      }
      InsertAllJobs(step, p, jobs[1..]);
      AddsCompose(db, step, InsertJobs(step, jobs[1..]), p, jobs);
    }
  }

  lemma AddsCompose(db: Db, step: Db, after: Db, p: PostId, jobs: seq<SocialPublishJob>)
    requires jobs != [] && FreshDraftJobs(db, p, jobs)
    requires AddsDraftJobs(db, step, p, [jobs[0]]) && AddsDraftJobs(step, after, p, jobs[1..])
    ensures AddsDraftJobs(db, after, p, jobs)
  {
    assert [jobs[0]][0] == jobs[0];
    forall j ensures j in after.jobs <==> j in db.jobs || exists i :: 0 <= i < |jobs| && jobs[i].id == j {
      if i :| 0 <= i < |jobs| && jobs[i].id == j {
        if i > 0 { assert jobs[1..][i - 1].id == j; }
      }
      if i :| 0 <= i < |jobs[1..]| && jobs[1..][i].id == j { assert jobs[i + 1].id == j; }
    }
    forall i | 0 <= i < |jobs| ensures after.jobs[jobs[i].id] == jobs[i] {
      if i > 0 { assert jobs[1..][i - 1] == jobs[i]; } else { assert jobs[0].id in step.jobs; }
    }
  }

  /** The tables right before the job rows of a new post go in. */
  function WithPost(db: Db, post: Post): Db {
    db.(posts := db.posts[post.id := ToRow(post).(revision := 1)],
        media := db.media[post.id := Positions(post.content.media)],
        jobsOfPost := db.jobsOfPost[post.id := []])
  }

  lemma WithPostShape(db: Db, post: Post)
    requires Shape(db) && post.id !in db.posts
    ensures Shape(WithPost(db, post))
  {
    var after := WithPost(db, post);
    forall q | q in after.posts ensures after.posts[q].id == q && IndexOk(after, q) {
      if q != post.id { assert IndexOk(db, q); }
    }
  }

  // -------------------------------------------------------------- a new draft is read back as it was given

  /** The stored row, the stored media and the jobs of a new draft, column by column. */
  ghost predicate IsStoredDraft(db: Db, post: Post, jobs: seq<SocialPublishJob>) {
    && post.id in db.posts && post.id in db.media
    && db.posts[post.id] == PostRow(
         post.id, post.campaignId, post.ownerId, post.content.title, post.content.body, post.content.url,
         post.scheduledAt, DraftPost, 1, post.content.platformBodies.GetOr(map[]))
    && db.media[post.id] == (map i: nat | i < |post.content.media| :: post.content.media[i])
    && (forall i | 0 <= i < |jobs| :: jobs[i].id in db.jobs && db.jobs[jobs[i].id] == jobs[i])
  }

  /** What a reader gets: the post, with a missing platformBodies as the empty one, and its jobs once each, by id. */
  ghost predicate ReadsBack(db: Db, post: Post, jobs: seq<SocialPublishJob>) {
    && Readable(db, post.id)
    && ReadPost(db, post.id)
         == post.(content := post.content.(platformBodies := Some(post.content.platformBodies.GetOr(map[]))))
    && var read := ReadJobs(db, post.id);
       && |read| == |jobs| && (forall job :: job in read <==> job in jobs)
       && forall i, k | 0 <= i < k < |read| :: read[i].id < read[k].id
  }

  lemma DraftJobsReadBack(before: Db, after: Db, post: Post, jobs: seq<SocialPublishJob>)
    requires Shape(before) && post.id !in before.posts && Shape(after)
    requires AddsDraftJobs(WithPost(before, post), after, post.id, jobs) && |after.jobsOfPost[post.id]| == |jobs|
    requires forall i | 0 <= i < |jobs| :: jobs[i].postId == post.id
    ensures Readable(after, post.id)
    ensures var read := ReadJobs(after, post.id);
            && |read| == |jobs| && (forall job :: job in read <==> job in jobs)
            && forall i, k | 0 <= i < k < |read| :: read[i].id < read[k].id
  {
    ShapeIsReadable(after, post.id);
    assert IndexOk(after, post.id);
    var ids, read := after.jobsOfPost[post.id], ReadJobs(after, post.id);
    forall i | 0 <= i < |read| ensures read[i].id == ids[i] && read[i] in jobs {
      NewRowIsGiven(before, after, post, jobs, ids[i]);
    }
    forall i | 0 <= i < |jobs| ensures jobs[i] in read { GivenRowIsRead(after, post, jobs[i]); }
  }

  lemma NewRowIsGiven(before: Db, after: Db, post: Post, jobs: seq<SocialPublishJob>, j: JobId)
    requires Shape(before) && post.id !in before.posts && j in after.jobs && after.jobs[j].postId == post.id
    requires AddsDraftJobs(WithPost(before, post), after, post.id, jobs)
    ensures after.jobs[j] in jobs && after.jobs[j].id == j
  {
    assert j !in before.jobs;
    var i :| 0 <= i < |jobs| && jobs[i].id == j;
  }

  lemma GivenRowIsRead(after: Db, post: Post, job: SocialPublishJob)
    requires Shape(after) && Readable(after, post.id) && job.id in after.jobs && after.jobs[job.id] == job
    requires job.postId == post.id
    ensures job in ReadJobs(after, post.id)
  {
    var ids := after.jobsOfPost[post.id];
    var k :| 0 <= k < |ids| && ids[k] == job.id;
    assert ReadJobs(after, post.id)[k] == job;
  }

  lemma DraftIsStored(before: Db, after: Db, post: Post, jobs: seq<SocialPublishJob>)
    requires AddsDraftJobs(WithPost(before, post), after, post.id, jobs) && post.status == DraftPost
    ensures IsStoredDraft(after, post, jobs)
  {
  }

  lemma StoredPostReadsBack(db: Db, post: Post, jobs: seq<SocialPublishJob>)
    requires IsStoredDraft(db, post, jobs) && post.status == DraftPost && post.revision == 1
    ensures ReadPost(db, post.id)
              == post.(content := post.content.(platformBodies := Some(post.content.platformBodies.GetOr(map[]))))
  {
    MediaReadsBack(post.content.media, db.media[post.id], 0);
  }

  lemma SavedTables(s: State, post: Post, jobs: seq<SocialPublishJob>) returns (after: Db)
    requires Shape(s.db) && IsNewDraft(s, post, jobs)
    ensures after == PgSave(s.db, post, jobs) && Shape(after)
    ensures AddsDraftJobs(WithPost(s.db, post), after, post.id, jobs) && |after.jobsOfPost[post.id]| == |jobs|
  {
    WithPostShape(s.db, post);
    InsertAllJobs(WithPost(s.db, post), post.id, jobs);
    after := PgSave(s.db, post, jobs);
  }

  /** For every new draft over tables in shape. */
  lemma DraftReadsBack(s: State, post: Post, jobs: seq<SocialPublishJob>)
    requires Shape(s.db) && IsNewDraft(s, post, jobs)
    ensures IsStoredDraft(PgSave(s.db, post, jobs), post, jobs) && ReadsBack(PgSave(s.db, post, jobs), post, jobs)
  {
    var after := SavedTables(s, post, jobs);
    DraftIsStored(s.db, after, post, jobs);
    StoredPostReadsBack(after, post, jobs);
    DraftJobsReadBack(s.db, after, post, jobs);
  }

  lemma CreateTables(s: State, e: Event)
    requires Inv(s) && e.Create? && Enabled(s, e)
    ensures var t := Next(s, e);
            && Shape(t.db) && AddsDraftJobs(WithPost(s.db, e.post), t.db, e.post.id, e.jobs)
            && |t.db.jobsOfPost[e.post.id]| > 0
  {
    WithPostShape(s.db, e.post);
    InsertAllJobs(WithPost(s.db, e.post), e.post.id, e.jobs);
  }

  lemma CreateAdds(s: State, e: Event)
    requires Inv(s) && e.Create? && Enabled(s, e)
    ensures AddsDraftJobs(WithPost(s.db, e.post), Next(s, e).db, e.post.id, e.jobs)
    ensures Next(s, e) == s.(db := Next(s, e).db)
  {
    CreateTables(s, e);
  }

  lemma OldJobAfterCreate(s: State, t: State, post: Post, jobs: seq<SocialPublishJob>, j: JobId)
    requires AddsDraftJobs(WithPost(s.db, post), t.db, post.id, jobs) && t == s.(db := t.db)
    requires post.id !in s.db.posts && j in s.db.jobs && JobInv(s, j)
    ensures j in t.db.jobs && JobInv(t, j)
  {
  }

  lemma NewJobAfterCreate(s: State, t: State, post: Post, jobs: seq<SocialPublishJob>, i: nat)
    requires Shape(s.db) && AddsDraftJobs(WithPost(s.db, post), t.db, post.id, jobs) && t == s.(db := t.db)
    requires IsNewDraft(s, post, jobs) && i < |jobs|
    ensures jobs[i].id in t.db.jobs && JobInv(t, jobs[i].id)
  {
  }

  lemma CreateKeepsJobs(s: State, t: State, post: Post, jobs: seq<SocialPublishJob>)
    requires Shape(s.db) && JobsInv(s) && IsNewDraft(s, post, jobs)
    requires AddsDraftJobs(WithPost(s.db, post), t.db, post.id, jobs) && t == s.(db := t.db)
    ensures JobsInv(t)
  {
    forall j | j in t.db.jobs ensures JobInv(t, j) {
      if j in s.db.jobs {
        assert JobInv(s, j);
        OldJobAfterCreate(s, t, post, jobs, j);
      } else {
        var i :| 0 <= i < |jobs| && jobs[i].id == j;
        NewJobAfterCreate(s, t, post, jobs, i);
      }
    }
  }

  lemma CreateKeepsPosts(s: State, t: State, post: Post, jobs: seq<SocialPublishJob>)
    requires Shape(s.db) && Shape(t.db) && PostsInv(s) && IsNewDraft(s, post, jobs)
    requires AddsDraftJobs(WithPost(s.db, post), t.db, post.id, jobs) && t == s.(db := t.db)
    requires |t.db.jobsOfPost[post.id]| > 0
    ensures PostsInv(t)
  {
    forall p | p in t.db.posts ensures PostInv(t, p) {
      if p != post.id {
        assert PostInv(s, p);
        assert ReadPost(t.db, p) == ReadPost(s.db, p);
      }
    }
  }

  lemma CreateKeepsInv(s: State, e: Event)
    requires Inv(s) && e.Create? && Enabled(s, e)
    ensures Inv(Next(s, e)) && TablesGrow(s, Next(s, e))
  {
    var t := Next(s, e);
    CreateTables(s, e);
    CreateKeepsJobs(s, t, e.post, e.jobs);
    CreateKeepsPosts(s, t, e.post, e.jobs);
    CreateGrowsTables(s, t, e.post, e.jobs);
    GrowingTablesKeepWorkers(s, t);
    CreateKeepsHandOff(s, t, e.post, e.jobs);
  }

  lemma CreateGrowsTables(s: State, t: State, post: Post, jobs: seq<SocialPublishJob>)
    requires AddsDraftJobs(WithPost(s.db, post), t.db, post.id, jobs) && t == s.(db := t.db)
    ensures TablesGrow(s, t)
  {
  }

  lemma CreateKeepsHandOff(s: State, t: State, post: Post, jobs: seq<SocialPublishJob>)
    requires AddsDraftJobs(WithPost(s.db, post), t.db, post.id, jobs) && t == s.(db := t.db)
    requires HandOffInv(s) && ProviderInv(s)
    ensures HandOffInv(t) && ProviderInv(t)
  {
  }

  // -------------------------------------------------------------- dispatch

  /** Only dispatch columns of the outbox, the queue and dispatchers moved. */
  ghost predicate OnlyDispatch(s: State, t: State) {
    && t.db == s.db.(outbox := t.db.outbox) && t.db.outbox.Keys == s.db.outbox.Keys
    && (forall j | j in s.db.outbox ::
          t.db.outbox[j].scheduledAt == s.db.outbox[j].scheduledAt
              && t.db.outbox[j].queueJobId == s.db.outbox[j].queueJobId)
    && t == s.(db := t.db, queue := t.queue, dispatchers := t.dispatchers)
  }

  lemma DispatchOnlyTables(s: State, t: State)
    requires Shape(s.db) && JobsInv(s) && PostsInv(s) && OnlyDispatch(s, t)
    ensures Shape(t.db) && JobsInv(t) && PostsInv(t)
  {
    assert Shape(t.db) by {
      forall p | p in t.db.posts ensures t.db.posts[p].id == p && IndexOk(t.db, p) { assert IndexOk(s.db, p); }
    }
    assert JobsInv(t) by { forall j | j in t.db.jobs ensures JobInv(t, j) { assert JobInv(s, j); } }
    assert PostsInv(t) by { forall p | p in t.db.posts ensures PostInv(t, p) { assert PostInv(s, p); } }
  }

  lemma DispatchGrowsTables(s: State, t: State)
    requires OnlyDispatch(s, t)
    ensures TablesGrow(s, t)
  {
  }

  lemma DispatchOnly(s: State, t: State)
    requires Inv(s) && OnlyDispatch(s, t) && HandOffInv(t)
    ensures Inv(t)
  {
    DispatchOnlyTables(s, t);
    DispatchGrowsTables(s, t);
    GrowingTablesKeepWorkers(s, t);
  }

  lemma ClaimOutboxKeepsHandOff(s: State, e: Event)
    requires HandOffInv(s) && e.ClaimOutbox? && Enabled(s, e)
    ensures HandOffInv(Next(s, e)) && OnlyDispatch(s, Next(s, e))
  {
    var t, j := Next(s, e), e.outboxJob;
    var u := s.(db := t.db);
    RewrittenRowKeepsHandOff(s, u, j);
    NewDispatcherKeepsHandOff(u, t, e.d, j);
  }

  lemma NewDispatcherKeepsHandOff(s: State, t: State, d: DispatcherId, j: JobId)
    requires HandOffInv(s) && j in s.db.outbox
    requires t == s.(dispatchers := s.dispatchers[d := DispatchRecord(j, s.db.outbox[j].queueJobId, false)])
    ensures HandOffInv(t)
  {
  }

  lemma EnqueueKeepsHandOff(s: State, e: Event)
    requires HandOffInv(s) && (e.Enqueue? || e.DispatcherCrash?) && Enabled(s, e)
    ensures HandOffInv(Next(s, e)) && OnlyDispatch(s, Next(s, e))
  {
  }

  /** Rewriting one row under the id it already has; what it marks as enqueued is in the queue. */
  lemma RewrittenRowKeepsHandOff(s: State, t: State, j: JobId)
    requires HandOffInv(s) && j in s.db.outbox && j in t.db.outbox
    requires t.db == s.db.(outbox := s.db.outbox[j := t.db.outbox[j]])
    requires t == s.(db := t.db, dispatchers := t.dispatchers)
    requires t.db.outbox[j].queueJobId == s.db.outbox[j].queueJobId
    requires t.db.outbox[j].scheduledAt == s.db.outbox[j].scheduledAt
    requires t.db.outbox[j].enqueuedAt.Some? ==> t.db.outbox[j].queueJobId in s.queue
    requires forall d | d in t.dispatchers :: d in s.dispatchers && t.dispatchers[d] == s.dispatchers[d]
    ensures HandOffInv(t) && OnlyDispatch(s, t)
  {
  }

  /** The row is marked only under the queue id that was really added. */
  lemma MarkEnqueuedKeepsHandOff(s: State, e: Event)
    requires HandOffInv(s) && (e.MarkEnqueued? || e.Release?) && Enabled(s, e)
    ensures HandOffInv(Next(s, e)) && OnlyDispatch(s, Next(s, e))
  {
    var t, record := Next(s, e), s.dispatchers[e.d];
    if HoldsQueueId(s.db, record.jobId, record.queueJobId) {
      RewrittenRowKeepsHandOff(s, t, record.jobId);
    }
  }

  predicate IsDispatch(e: Event) {
    e.ClaimOutbox? || e.Enqueue? || e.MarkEnqueued? || e.Release? || e.DispatcherCrash?
  }

  lemma DispatchKeepsInv(s: State, e: Event)
    requires Inv(s) && Enabled(s, e) && IsDispatch(e)
    ensures Inv(Next(s, e)) && OnlyDispatch(s, Next(s, e))
  {
    if e.ClaimOutbox? { ClaimOutboxKeepsHandOff(s, e); }
    else if e.Enqueue? || e.DispatcherCrash? { EnqueueKeepsHandOff(s, e); }
    else { MarkEnqueuedKeepsHandOff(s, e); }
    DispatchOnly(s, Next(s, e));
  }

  lemma DispatchIsOnly(s: State, e: Event)
    requires Inv(s) && Enabled(s, e) && IsDispatch(e)
    ensures OnlyDispatch(s, Next(s, e))
  {
    DispatchKeepsInv(s, e);
  }
}
