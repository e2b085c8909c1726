/**
 * What one editorial transaction does to every table, and why it refines the in-memory
 * reference repository although it writes six columns of the changed jobs only.
 */
module PostRefinement {
  import opened Wrappers
  import opened PostEntity
  import opened TextFormatting
  import opened Schema
  import opened PostService
  import opened PostRepository

  // -------------------------------------------------------------- effect on the tables

  /** The record a callback may return: same post, same jobs, nothing but the six columns changed. */
  ghost predicate Aligned(db: Db, id: PostId, next: PostRecord)
    requires Readable(db, id)
  {
    var current := ReadRecord(db, id);
    && next.post.id == current.post.id && next.post.campaignId == current.post.campaignId
    && next.post.ownerId == current.post.ownerId && next.post.revision == current.post.revision
    && |next.jobs| == |current.jobs|
    && forall i | 0 <= i < |next.jobs| :: next.jobs[i] == SixColumns(current.jobs[i], next.jobs[i])
  }

  lemma CommandsAreAligned(db: Db, id: PostId, command: Command)
    requires Readable(db, id)
    requires Apply(command, ReadRecord(db, id)).Success?
    ensures Aligned(db, id, Apply(command, ReadRecord(db, id)).value)
  {
  }

  /** What the trigger leaves in the outbox for one job of an edited post. */
  ghost predicate OutboxAfterEdit(db: Db, after: Db, j: JobId, job: SocialPublishJob, published: bool)
    requires j in db.jobs
  {
    if job.status == Cancelled && db.jobs[j] != job then j !in after.outbox
    else if job.status == Waiting && published
            && (db.jobs[j].status != Waiting || db.jobs[j].scheduledAt != job.scheduledAt)
    then j in after.outbox && db.nextQueueId <= after.outbox[j].queueJobId
        && after.outbox[j] == OutboxRow(job.scheduledAt, after.outbox[j].queueJobId, None, 0, None, None)
    else SameOutboxRow(db, after, j)
  }

  /** Queue ids are handed out once and never shared. */
  ghost predicate QueueIdsOk(db: Db) {
    && (forall j | j in db.outbox :: db.outbox[j].queueJobId < db.nextQueueId)
    && (forall j, k | j in db.outbox && k in db.outbox && j != k :: db.outbox[j].queueJobId != db.outbox[k].queueJobId)
  }

  /** Row k and its outbox row are the same before and after. */
  ghost predicate RowIsSpared(db: Db, after: Db, k: JobId) {
    && SameOutboxRow(db, after, k) && db.nextQueueId <= after.nextQueueId && after.posts == db.posts
    && (k in db.jobs <==> k in after.jobs) && (k in db.jobs ==> after.jobs[k] == db.jobs[k])
  }

  lemma TriggerSpares(db: Db, j: JobId, previous: Option<SocialPublishJob>, written: SocialPublishJob, k: JobId)
    requires j != k
    ensures RowIsSpared(db, OutboxTrigger(db, j, previous, written), k)
  {
  }

  lemma WriteJobSpares(db: Db, current: map<JobId, SocialPublishJob>, job: SocialPublishJob, k: JobId)
    requires job.id != k
    ensures RowIsSpared(db, WriteJob(db, current, job), k)
  {
    if job.id in db.jobs {
      var written := SixColumns(db.jobs[job.id], job);
      var stored := db.(jobs := db.jobs[job.id := written]);
      TriggerSpares(stored, job.id, Some(db.jobs[job.id]), written, k);
    }
  }

  lemma {:induction false} WriteJobsUntouched(db: Db, current: map<JobId, SocialPublishJob>,
      next: seq<SocialPublishJob>, k: JobId)
    requires forall i | 0 <= i < |next| :: next[i].id != k
    ensures var after := WriteJobs(db, current, next);
            && SameOutboxRow(db, after, k) && db.nextQueueId <= after.nextQueueId
            && (k in db.jobs <==> k in after.jobs) && (k in db.jobs ==> after.jobs[k] == db.jobs[k])
    decreases |next|
  {
    if next != [] {
      WriteJobSpares(db, current, next[0], k);
      WriteJobsUntouched(WriteJob(db, current, next[0]), current, next[1..], k);
    }
  }

  /** The job is one the editorial callback may write over the stored row. */
  ghost predicate Writable(db: Db, current: map<JobId, SocialPublishJob>, job: SocialPublishJob) {
    && job.id in db.jobs && job.id in current && current[job.id] == db.jobs[job.id]
    && job == SixColumns(db.jobs[job.id], job) && job.postId in db.posts
  }

  ghost predicate Written(db: Db, after: Db, job: SocialPublishJob)
    requires job.id in db.jobs && job.postId in db.posts
  {
    && job.id in after.jobs && after.jobs[job.id] == job
    && OutboxAfterEdit(db, after, job.id, job, db.posts[job.postId].status == ScheduledPost)
  }

  lemma WriteJobAt(db: Db, current: map<JobId, SocialPublishJob>, job: SocialPublishJob)
    requires Writable(db, current, job)
    ensures Written(db, WriteJob(db, current, job), job)
  {
  }

  lemma WriteJobElsewhere(db: Db, current: map<JobId, SocialPublishJob>, other: SocialPublishJob, job: SocialPublishJob)
    requires other.id != job.id && Writable(db, current, job)
    ensures var step := WriteJob(db, current, other);
            && Writable(step, current, job) && step.jobs[job.id] == db.jobs[job.id]
            && SameOutboxRow(db, step, job.id) && step.posts == db.posts && db.nextQueueId <= step.nextQueueId
  {
    WriteJobSpares(db, current, other, job.id);
  }

  /** Effect of the UPDATE loop on the row of its i-th job. */
  lemma {:induction false} WriteJobsAt(db: Db, current: map<JobId, SocialPublishJob>, next: seq<SocialPublishJob>,
      i: nat)
    requires i < |next| && forall k | 0 <= k < |next| && k != i :: next[k].id != next[i].id
    requires Writable(db, current, next[i])
    ensures Written(db, WriteJobs(db, current, next), next[i])
    decreases |next|
  {
    var step, rest := WriteJob(db, current, next[0]), next[1..];
    if i == 0 {
      WriteJobAt(db, current, next[0]);
      WriteJobsUntouched(step, current, rest, next[0].id);
    } else {
      WriteJobElsewhere(db, current, next[0], next[i]);
      WriteJobsAt(step, current, rest, i - 1);
    }
  }

  lemma TriggerIds(db: Db, j: JobId, previous: Option<SocialPublishJob>, written: SocialPublishJob)
    requires QueueIdsOk(db)
    ensures QueueIdsOk(OutboxTrigger(db, j, previous, written))
  {
  }

  lemma WriteJobIds(db: Db, current: map<JobId, SocialPublishJob>, job: SocialPublishJob)
    requires QueueIdsOk(db)
    ensures QueueIdsOk(WriteJob(db, current, job))
  {
    if job.id in db.jobs && !(job.id in current && current[job.id] == job) {
      var row := SixColumns(db.jobs[job.id], job);
      TriggerIds(db.(jobs := db.jobs[job.id := row]), job.id, Some(db.jobs[job.id]), row);
    }
  }

  lemma {:induction false} WriteJobsIds(db: Db, current: map<JobId, SocialPublishJob>, next: seq<SocialPublishJob>)
    requires QueueIdsOk(db)
    ensures QueueIdsOk(WriteJobs(db, current, next))
    decreases |next|
  {
    if next != [] {
      WriteJobIds(db, current, next[0]);
      WriteJobsIds(WriteJob(db, current, next[0]), current, next[1..]);
    }
  }

  lemma {:induction false} EnqueueIds(db: Db, ids: seq<JobId>)
    requires QueueIdsOk(db)
    ensures QueueIdsOk(EnqueueWaiting(db, ids))
    decreases |ids|
  {
    if ids != [] { EnqueueIds(EnqueueIfMissing(db, ids[0]), ids[1..]); }
  }

  // -------------------------------------------------------------- the whole transaction

  ghost predicate EditedOutbox(db: Db, after: Db, j: JobId, wasDraft: bool, published: bool)
    requires j in db.jobs && j in after.jobs
  {
    var before, job := db.jobs[j], after.jobs[j];
    if job.status == Cancelled && before != job then j !in after.outbox
    else if job.status == Waiting && published
            && (before.status != Waiting || before.scheduledAt != job.scheduledAt || (wasDraft && j !in db.outbox))
    then j in after.outbox && db.nextQueueId <= after.outbox[j].queueJobId
        && after.outbox[j] == OutboxRow(job.scheduledAt, after.outbox[j].queueJobId, None, 0, None, None)
    else SameOutboxRow(db, after, j)
  }

  /** Rows of other posts, and every table an edit does not mention, stay as they are. */
  ghost predicate TouchesOnly(db: Db, after: Db, id: PostId) {
    && after.alerts == db.alerts && after.socialPosts == db.socialPosts && after.jobsOfPost == db.jobsOfPost
    && after.jobs.Keys == db.jobs.Keys && after.posts.Keys == db.posts.Keys && after.media.Keys == db.media.Keys
    && (forall p | p in db.posts && p != id ::
         after.posts[p] == db.posts[p] && (p in db.media ==> after.media[p] == db.media[p]))
    && (forall j | j in db.jobs && db.jobs[j].postId != id ::
         after.jobs[j] == db.jobs[j] && SameOutboxRow(db, after, j))
  }

  /** The record as the tables store it: a missing platformBodies becomes the empty object. */
  function Stored(r: PostRecord): PostRecord {
    r.(post := r.post.(revision := r.post.revision + 1,
                       content := r.post.content.(platformBodies := Some(r.post.content.platformBodies.GetOr(map[])))))
  }

  lemma JobsAfterWrite(db: Db, id: PostId, next: PostRecord, i: nat)
    requires Shape(db) && id in db.posts && Readable(db, id) && Aligned(db, id, next) && i < |next.jobs|
    ensures var after := WriteRecord(db, id, next);
            var j := db.jobsOfPost[id][i];
            && j == next.jobs[i].id && j in after.jobs && after.jobs[j] == next.jobs[i]
            && EditedOutbox(db, after, j, db.posts[id].status == DraftPost, next.post.status == ScheduledPost)
  {
    assert IndexOk(db, id);
    var ids := db.jobsOfPost[id];
    var posted := WritePost(db, id, next.post);
    var j := ids[i];
    assert next.jobs[i].id == j && db.jobs[j].postId == id;
    forall k | 0 <= k < |next.jobs| && k != i ensures next.jobs[k].id != j {
      assert next.jobs[k].id == ids[k];
    }
    WriteJobsAt(posted, db.jobs, next.jobs, i);
    var written := WriteJobs(posted, db.jobs, next.jobs);
    WriteJobsUntouchedIds(posted, db.jobs, next.jobs);
    EnqueueAt(written, ids, j);
  }

  lemma JobsUntouchedByWrite(db: Db, id: PostId, next: PostRecord, j: JobId)
    requires Shape(db) && id in db.posts && Readable(db, id) && Aligned(db, id, next)
    requires j in db.jobs && db.jobs[j].postId != id
    ensures var after := WriteRecord(db, id, next);
            j in after.jobs && after.jobs[j] == db.jobs[j] && SameOutboxRow(db, after, j)
  {
    assert IndexOk(db, id);
    var ids := db.jobsOfPost[id];
    var posted := WritePost(db, id, next.post);
    forall k | 0 <= k < |next.jobs| ensures next.jobs[k].id != j {
      assert next.jobs[k].id == ids[k];
    }
    assert j !in ids;
    WriteJobsUntouched(posted, db.jobs, next.jobs, j);
    EnqueueAt(WriteJobs(posted, db.jobs, next.jobs), ids, j);
  }

  lemma WriteKeepsTables(db: Db, id: PostId, next: PostRecord)
    requires id in db.posts && id in db.jobsOfPost
    ensures var after := WriteRecord(db, id, next);
            && after.posts == WritePost(db, id, next.post).posts && after.media == WritePost(db, id, next.post).media
            && after.alerts == db.alerts && after.socialPosts == db.socialPosts && after.jobsOfPost == db.jobsOfPost
            && after.jobs.Keys == db.jobs.Keys && db.nextQueueId <= after.nextQueueId
  {
    var posted := WritePost(db, id, next.post);
    WriteJobsKeepsRest(posted, db.jobs, next.jobs);
    WriteJobsUntouchedIds(posted, db.jobs, next.jobs);
    EnqueueAt(WriteJobs(posted, db.jobs, next.jobs), db.jobsOfPost[id], 0);
  }

  lemma WriteTouchesOnly(db: Db, id: PostId, next: PostRecord)
    requires Shape(db) && id in db.posts && Readable(db, id) && Aligned(db, id, next)
    ensures TouchesOnly(db, WriteRecord(db, id, next), id)
  {
    WriteKeepsTables(db, id, next);
    forall j | j in db.jobs && db.jobs[j].postId != id
      ensures var after := WriteRecord(db, id, next);
              j in after.jobs && after.jobs[j] == db.jobs[j] && SameOutboxRow(db, after, j)
    {
      JobsUntouchedByWrite(db, id, next, j);
    }
  }

  lemma {:induction false} WriteJobsUntouchedIds(db: Db, current: map<JobId, SocialPublishJob>,
      next: seq<SocialPublishJob>)
    ensures db.nextQueueId <= WriteJobs(db, current, next).nextQueueId
    decreases |next|
  {
    if next != [] { WriteJobsUntouchedIds(WriteJob(db, current, next[0]), current, next[1..]); }
  }

  lemma WriteKeepsJobKeys(db: Db, id: PostId, next: PostRecord)
    requires Shape(db) && id in db.posts && Readable(db, id) && Aligned(db, id, next)
    ensures var after := WriteRecord(db, id, next);
            after.jobs.Keys == db.jobs.Keys
            && forall j | j in db.jobs :: after.jobs[j].id == j && after.jobs[j].postId == db.jobs[j].postId
  {
    WriteKeepsTables(db, id, next);
    forall j | j in db.jobs
      ensures var after := WriteRecord(db, id, next);
              j in after.jobs && after.jobs[j].id == j && after.jobs[j].postId == db.jobs[j].postId
    {
      if db.jobs[j].postId == id {
        var i :| 0 <= i < |db.jobsOfPost[id]| && db.jobsOfPost[id][i] == j;
        JobsAfterWrite(db, id, next, i);
      } else {
        JobsUntouchedByWrite(db, id, next, j);
      }
    }
  }

  lemma WriteKeepsOutboxKeys(db: Db, id: PostId, next: PostRecord)
    requires Shape(db) && id in db.posts && Readable(db, id) && QueueIdsOk(db)
    ensures var after := WriteRecord(db, id, next);
            after.outbox.Keys <= after.jobs.Keys && QueueIdsOk(after)
  {
    var posted := WritePost(db, id, next.post);
    WriteJobsIds(posted, db.jobs, next.jobs);
    EnqueueIds(WriteJobs(posted, db.jobs, next.jobs), db.jobsOfPost[id]);
    OutboxKeysAreJobs(posted, db.jobs, next.jobs);
    OutboxKeysStayJobs(WriteJobs(posted, db.jobs, next.jobs), db.jobsOfPost[id]);
  }

  /** Same keys and references, so the same indexes. */
  lemma SameKeysSameShape(db: Db, after: Db)
    requires Shape(db) && after.jobs.Keys == db.jobs.Keys && after.jobsOfPost == db.jobsOfPost
    requires forall j | j in db.jobs :: after.jobs[j].id == j && after.jobs[j].postId == db.jobs[j].postId
    requires after.posts.Keys == after.media.Keys == db.posts.Keys && forall p | p in after.posts ::
             after.posts[p].id == p
    requires after.outbox.Keys <= after.jobs.Keys && after.alerts == db.alerts && after.socialPosts == db.socialPosts
    ensures Shape(after)
  {
    forall p | p in after.posts ensures IndexOk(after, p) { assert IndexOk(db, p); }
  }

  lemma WriteKeepsShape(db: Db, id: PostId, next: PostRecord)
    requires Shape(db) && id in db.posts && Readable(db, id) && Aligned(db, id, next) && QueueIdsOk(db)
    ensures Shape(WriteRecord(db, id, next)) && QueueIdsOk(WriteRecord(db, id, next))
  {
    WriteKeepsTables(db, id, next);
    WriteKeepsJobKeys(db, id, next);
    WriteKeepsOutboxKeys(db, id, next);
    SameKeysSameShape(db, WriteRecord(db, id, next));
  }

  lemma {:induction false} OutboxKeysAreJobs(db: Db, current: map<JobId, SocialPublishJob>, next: seq<SocialPublishJob>)
    requires db.outbox.Keys <= db.jobs.Keys
    ensures var after := WriteJobs(db, current, next);
            after.outbox.Keys <= after.jobs.Keys
    decreases |next|
  {
    if next != [] { OutboxKeysAreJobs(WriteJob(db, current, next[0]), current, next[1..]); }
  }

  lemma {:induction false} OutboxKeysStayJobs(db: Db, ids: seq<JobId>)
    requires db.outbox.Keys <= db.jobs.Keys
    ensures var after := EnqueueWaiting(db, ids);
            after.outbox.Keys <= after.jobs.Keys
    decreases |ids|
  {
    if ids != [] { OutboxKeysStayJobs(EnqueueIfMissing(db, ids[0]), ids[1..]); }
  }

  lemma MediaStartsWithLeast(rows: map<nat, PostMedia>, first: nat)
    requires first in rows.Keys && forall k | k in rows.Keys :: first <= k
    ensures MediaInOrder(rows) == [rows[first]] + MediaInOrder(rows - {first})
  {
    LeastExists(rows.Keys);
    var least :| least in rows.Keys && forall k | k in rows.Keys :: least <= k;
    assert least == first;
  }

  lemma {:induction false} MediaReadsBack(media: seq<PostMedia>, rows: map<nat, PostMedia>, offset: nat)
    requires forall k :: k in rows <==> offset <= k < offset + |media|
    requires forall k | k in rows :: rows[k] == media[k - offset]
    ensures MediaInOrder(rows) == media
    decreases |media|
  {
    if media == [] {
      assert rows == map[];
    } else {
      assert offset in rows;
      MediaStartsWithLeast(rows, offset);
      MediaReadsBack(media[1..], rows - {offset}, offset + 1);
      assert media == [media[0]] + media[1..];
    }
  }

  /** Reading after the transaction gives the record the callback returned, one revision later. */
  lemma ReadAfterWrite(db: Db, id: PostId, next: PostRecord)
    requires Shape(db) && id in db.posts && Readable(db, id) && Aligned(db, id, next)
    ensures Readable(WriteRecord(db, id, next), id)
    ensures ReadRecord(WriteRecord(db, id, next), id) == Stored(next)
  {
    var after := WriteRecord(db, id, next);
    WriteKeepsTables(db, id, next);
    MediaReadsBack(next.post.content.media, Positions(next.post.content.media), 0);
    assert IndexOk(db, id);
    forall i | 0 <= i < |next.jobs|
      ensures after.jobs[db.jobsOfPost[id][i]] == next.jobs[i]
    {
      JobsAfterWrite(db, id, next, i);
    }
    assert ReadJobs(after, id) == next.jobs;
  }

  // -------------------------------------------------------------- refinement of the reference repository

  /** Equal up to the order of the jobs and a platformBodies that is missing instead of empty. */
  ghost predicate SameUpToOrder(a: PostRecord, b: PostRecord) {
    && WithBodies(a.post) == WithBodies(b.post)
    && |a.jobs| == |b.jobs|
    && forall j :: j in a.jobs <==> j in b.jobs
  }

  function WithBodies(post: Post): Post {
    post.(content := post.content.(platformBodies := Some(post.content.platformBodies.GetOr(map[]))))
  }

  lemma SameFindings(a: PostContent, b: PostContent, platform: SocialPlatform, instagramFindings: bool)
    requires a.(platformBodies := None) == b.(platformBodies := None)
    requires a.platformBodies.GetOr(map[]) == b.platformBodies.GetOr(map[])
    ensures IssuesFor(a, platform, instagramFindings) == IssuesFor(b, platform, instagramFindings)
  {
    if platform != Instagram {
      assert Original(a, platform) == Original(b, platform);
      SameOriginalSameGate(a, b, platform);
    }
  }

  lemma SamePublishable(a: PostRecord, b: PostRecord, instagramFindings: bool)
    requires SameUpToOrder(a, b)
    ensures Publishable(a, instagramFindings) ==> Publishable(b, instagramFindings)
  {
    var findings := Findings(b, instagramFindings);
    forall found | found in findings && Publishable(a, instagramFindings) ensures found == [] {
      var k :| 0 <= k < |findings| && findings[k] == found;
      assert b.jobs[k] in a.jobs;
      var i :| 0 <= i < |a.jobs| && a.jobs[i] == b.jobs[k];
      assert WithBodies(a.post).content == WithBodies(b.post).content;
      SameFindings(a.post.content, b.post.content, b.jobs[k].platform, instagramFindings);
      assert Findings(a, instagramFindings)[i] in Findings(a, instagramFindings);
    }
  }

  lemma SameMapped(a: seq<SocialPublishJob>, b: seq<SocialPublishJob>, f: SocialPublishJob -> SocialPublishJob)
    requires |a| == |b| && forall j :: j in a <==> j in b
    ensures forall j :: j in MapJobs(a, f) <==> j in MapJobs(b, f)
  {
    forall j | j in MapJobs(a, f) ensures j in MapJobs(b, f) {
      var i :| 0 <= i < |a| && j == f(a[i]);
      assert a[i] in b;
      var k :| 0 <= k < |b| && b[k] == a[i];
      assert MapJobs(b, f)[k] == j;
    }
    forall j | j in MapJobs(b, f) ensures j in MapJobs(a, f) {
      var i :| 0 <= i < |b| && j == f(b[i]);
      assert b[i] in a;
      var k :| 0 <= k < |a| && a[k] == b[i];
      assert MapJobs(a, f)[k] == j;
    }
  }

  /** Both answers are the same failure, or records that are equal up to order. */
  ghost predicate SameAnswer(a: Result<PostRecord, EditError>, b: Result<PostRecord, EditError>) {
    && (a.Success? <==> b.Success?) && (a.Failure? ==> a == b)
    && (a.Success? ==> SameUpToOrder(a.value, b.value))
  }

  lemma SamePosts(a: Post, b: Post)
    requires WithBodies(a) == WithBodies(b)
    ensures a.status == b.status && a.revision == b.revision && a.id == b.id && a.ownerId == b.ownerId
    ensures a.content.body == b.content.body
    ensures a.(content := b.content) == b
  {
    assert WithBodies(a).(content := b.content) == WithBodies(b).(content := b.content);
  }

  lemma SameRestatused(a: Post, b: Post, status: PostStatus, scheduledAt: Time)
    requires WithBodies(a) == WithBodies(b)
    ensures WithBodies(a.(status := status, scheduledAt := scheduledAt))
             == WithBodies(b.(status := status, scheduledAt := scheduledAt))
    ensures WithBodies(a.(status := status)) == WithBodies(b.(status := status))
  {
    SamePosts(a, b);
  }

  lemma SameBlocked(a: seq<SocialPublishJob>, b: seq<SocialPublishJob>)
    requires forall j :: j in a <==> j in b
    ensures (AnyBlocksReschedule(a) <==> AnyBlocksReschedule(b)) && (AnyBlocksCancel(a) <==> AnyBlocksCancel(b))
  {
  }

  lemma ScheduleIgnoresRepresentation(command: Command, a: PostRecord, b: PostRecord)
    requires SameUpToOrder(a, b) && command.Schedule?
    ensures SameAnswer(Apply(command, a), Apply(command, b))
  {
    SamePosts(a.post, b.post);
    SameBlocked(a.jobs, b.jobs);
    SamePublishable(a, b, command.instagramFindings);
    SamePublishable(b, a, command.instagramFindings);
    if CommandRevision(command) == a.post.revision && !AnyBlocksReschedule(a.jobs) && a.post.status != CancelledPost
       && Publishable(a, command.instagramFindings) {
      ScheduledIsSame(command, a, b);
    }
  }

  lemma ScheduledIsSame(command: Command, a: PostRecord, b: PostRecord)
    requires SameUpToOrder(a, b) && command.Schedule? && Apply(command, a).Success? && Apply(command, b).Success?
    ensures SameUpToOrder(Apply(command, a).value, Apply(command, b).value)
  {
    SameRestatused(a.post, b.post, ScheduledPost, command.scheduledAt);
    SameMapped(a.jobs, b.jobs, j => RescheduledJob(j, command.scheduledAt));
  }

  lemma SameSummary(a: seq<SocialPublishJob>, b: seq<SocialPublishJob>)
    requires |a| == |b| && forall j :: j in a <==> j in b
    ensures SummarizeStatus(a) == SummarizeStatus(b)
  {
  }

  lemma CancelIgnoresRepresentation(command: Command, a: PostRecord, b: PostRecord)
    requires SameUpToOrder(a, b) && command.Cancel?
    ensures SameAnswer(Apply(command, a), Apply(command, b))
  {
    SamePosts(a.post, b.post);
    SameBlocked(a.jobs, b.jobs);
    SameMapped(a.jobs, b.jobs, CancelledJob);
    SameSummary(MapJobs(a.jobs, CancelledJob), MapJobs(b.jobs, CancelledJob));
    SameRestatused(a.post, b.post, SummarizeStatus(MapJobs(a.jobs, CancelledJob)), 0);
  }

  lemma RetryIgnoresRepresentation(command: Command, a: PostRecord, b: PostRecord)
    requires SameUpToOrder(a, b) && command.Retry?
    ensures SameAnswer(Apply(command, a), Apply(command, b))
  {
    SamePosts(a.post, b.post);
    SameRestatused(a.post, b.post, ScheduledPost, 0);
    SameMapped(a.jobs, b.jobs, j => RetriedJob(j, command.jobId, command.retriedAt));
  }

  lemma UpdateIgnoresRepresentation(command: Command, a: PostRecord, b: PostRecord)
    requires SameUpToOrder(a, b) && command.UpdateDraft?
    ensures SameAnswer(Apply(command, a), Apply(command, b))
  {
    SamePosts(a.post, b.post);
  }

  /** Every service callback gives the same answer on both representations of a record. */
  lemma ApplyIgnoresRepresentation(command: Command, a: PostRecord, b: PostRecord)
    requires SameUpToOrder(a, b)
    ensures SameAnswer(Apply(command, a), Apply(command, b))
  {
    match command {
      case UpdateDraft(_, _, _) => UpdateIgnoresRepresentation(command, a, b);
      case Schedule(_, _, _, _) => ScheduleIgnoresRepresentation(command, a, b);
      case Cancel(_) => CancelIgnoresRepresentation(command, a, b);
      case Retry(_, _, _) => RetryIgnoresRepresentation(command, a, b);
    }
  }

  lemma EditedJobPassesChecks(command: Command, r: PostRecord, i: nat)
    requires i < |r.jobs| && JobChecks(r.jobs[i]) && Apply(command, r).Success?
    ensures var next := Apply(command, r).value.jobs;
            |next| == |r.jobs| && JobChecks(next[i]) && next[i] == SixColumns(r.jobs[i], next[i])
  {
  }

  /** No service callback makes a stored row violate a CHECK constraint. */
  lemma CommandsPassChecks(db: Db, id: PostId, command: Command)
    requires Readable(db, id) && Apply(command, ReadRecord(db, id)).Success?
    requires forall j | j in db.jobs :: JobChecks(db.jobs[j]) && db.jobs[j].id == j
    ensures WritesPassChecks(db, Apply(command, ReadRecord(db, id)).value.jobs)
  {
    var next := Apply(command, ReadRecord(db, id)).value.jobs;
    forall job | job in next ensures job.id in db.jobs && JobChecks(SixColumns(db.jobs[job.id], job)) {
      var i :| 0 <= i < |next| && next[i] == job;
      StoredJobPassesChecks(db, id, command, i);
    }
  }

  lemma StoredJobPassesChecks(db: Db, id: PostId, command: Command, i: nat)
    requires Readable(db, id) && Apply(command, ReadRecord(db, id)).Success?
    requires i < |Apply(command, ReadRecord(db, id)).value.jobs|
    requires forall j | j in db.jobs :: JobChecks(db.jobs[j]) && db.jobs[j].id == j
    ensures var job := Apply(command, ReadRecord(db, id)).value.jobs[i];
            job.id in db.jobs && JobChecks(SixColumns(db.jobs[job.id], job))
  {
    var r := ReadRecord(db, id);
    assert |Apply(command, r).value.jobs| == |r.jobs|;
    assert db.jobsOfPost[id][i] in db.jobsOfPost[id] && r.jobs[i] == db.jobs[db.jobsOfPost[id][i]];
    EditedJobPassesChecks(command, r, i);
  }

  /** A callback that accepts can be written and read back. */
  lemma AcceptedCommandIsStored(db: Db, id: PostId, command: Command)
    requires Shape(db) && id in db.posts && Readable(db, id) && Apply(command, ReadRecord(db, id)).Success?
    requires forall j | j in db.jobs :: JobChecks(db.jobs[j])
    ensures var next := Apply(command, ReadRecord(db, id)).value;
            && WritesPassChecks(db, next.jobs)
            && Readable(WriteRecord(db, id, next), id) && ReadRecord(WriteRecord(db, id, next), id) == Stored(next)
            && next.post.revision == db.posts[id].revision
  {
    CommandsAreAligned(db, id, command);
    CommandsPassChecks(db, id, command);
    ReadAfterWrite(db, id, Apply(command, ReadRecord(db, id)).value);
  }

  /** `next`, numbered one revision later, is what both the caller and a later reader see. */
  lemma NextRevisionIsSame(next: PostRecord, reference: PostRecord, revision: nat)
    requires SameUpToOrder(next, reference) && next.post.revision == revision
    ensures var numbered := reference.(post := reference.post.(revision := revision + 1));
            && SameUpToOrder(Stored(next), numbered)
            && SameUpToOrder(next.(post := next.post.(revision := revision + 1)), numbered)
  {
    assert WithBodies(next.post).(revision := revision + 1) == WithBodies(reference.post).(revision := revision + 1);
  }

  /**
   * One answer of both repositories: the same refusal, or accounts that are not usable for
   * publishing, or tables from which the reference's record is read.
   */
  ghost predicate SameEffect(id: PostId, accountsOk: bool, pg: Result<Mutated, EditError>,
      reference: Result<PostRecord, EditError>) {
    && (reference.Failure? ==> pg == Failure(reference.error))
    && (reference.Success? ==>
          && (pg.Success? <==> accountsOk || reference.value.post.status != ScheduledPost)
          && (pg.Success? ==>
                && Readable(pg.value.db, id)
                && SameUpToOrder(ReadRecord(pg.value.db, id), reference.value)
                && SameUpToOrder(pg.value.record, reference.value)))
  }

  lemma RefusedCommandRefines(db: Db, records: map<PostId, PostRecord>, id: PostId, command: Command, accountsOk: bool)
    requires Readable(db, id) && id in records && SameUpToOrder(ReadRecord(db, id), records[id])
    requires Apply(command, ReadRecord(db, id)).Failure? && records[id].post.ownerId == db.posts[id].ownerId
    ensures SameEffect(id, accountsOk, PgMutate(db, id, db.posts[id].ownerId, Callback(command), accountsOk),
                       MemMutate(records, id, db.posts[id].ownerId, Callback(command)))
  {
    ApplyIgnoresRepresentation(command, ReadRecord(db, id), records[id]);
  }

  lemma AcceptedCommandAgrees(db: Db, records: map<PostId, PostRecord>, id: PostId, command: Command, accountsOk: bool)
    requires Shape(db) && (forall j | j in db.jobs :: JobChecks(db.jobs[j]))
    requires id in db.posts && Readable(db, id) && id in records && SameUpToOrder(ReadRecord(db, id), records[id])
    requires Apply(command, ReadRecord(db, id)).Success? && records[id].post.ownerId == db.posts[id].ownerId
    requires records[id].post.revision == db.posts[id].revision
    ensures SameEffect(id, accountsOk, PgMutate(db, id, db.posts[id].ownerId, Callback(command), accountsOk),
                       MemMutate(records, id, db.posts[id].ownerId, Callback(command)))
  {
    ApplyIgnoresRepresentation(command, ReadRecord(db, id), records[id]);
    AcceptedCommandRefines(db, id, command, records[id]);
  }

  /**
   * For every command the service passes: the SQL transaction fails exactly when the
   * reference repository refuses, or the accounts are not usable for publishing; when it
   * succeeds, reading the tables back gives the record the reference repository holds.
   */
  lemma PgRefinesReference(db: Db, records: map<PostId, PostRecord>, id: PostId, ownerId: OwnerId, command: Command,
      accountsOk: bool)
    requires Shape(db) && forall j | j in db.jobs :: JobChecks(db.jobs[j])
    requires id in db.posts <==> id in records
    requires id in db.posts ==> Readable(db, id) && SameUpToOrder(ReadRecord(db, id), records[id])
    ensures SameEffect(id, accountsOk, PgMutate(db, id, ownerId, Callback(command), accountsOk),
                       MemMutate(records, id, ownerId, Callback(command)))
  {
    if id in db.posts {
      SamePosts(ReadRecord(db, id).post, records[id].post);
      if db.posts[id].ownerId == ownerId {
        if Apply(command, ReadRecord(db, id)).Success? {
          AcceptedCommandAgrees(db, records, id, command, accountsOk);
        } else {
          RefusedCommandRefines(db, records, id, command, accountsOk);
        }
      }
    }
  }

  lemma AcceptedCommandRefines(db: Db, id: PostId, command: Command, reference: PostRecord)
    requires Shape(db) && id in db.posts && Readable(db, id) && Apply(command, ReadRecord(db, id)).Success?
    requires forall j | j in db.jobs :: JobChecks(db.jobs[j])
    requires SameAnswer(Apply(command, ReadRecord(db, id)), Apply(command, reference))
    ensures var next, other := Apply(command, ReadRecord(db, id)).value, Apply(command, reference).value;
            var numbered := other.(post := other.post.(revision := db.posts[id].revision + 1));
            && WritesPassChecks(db, next.jobs) && next.post.status == other.post.status
            && next.post.revision == db.posts[id].revision
            && Readable(WriteRecord(db, id, next), id)
            && SameUpToOrder(ReadRecord(WriteRecord(db, id, next), id), numbered)
            && SameUpToOrder(next.(post := next.post.(revision := next.post.revision + 1)), numbered)
  {
    var next, other := Apply(command, ReadRecord(db, id)).value, Apply(command, reference).value;
    AcceptedCommandIsStored(db, id, command);
    NextRevisionIsSame(next, other, db.posts[id].revision);
    SamePosts(next.post, other.post);
  }
}
