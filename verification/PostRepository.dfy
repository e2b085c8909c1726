/**
 * backend/src/posts/pg-post.repository.ts over the tables, and the in-memory reference
 * repository of post.repository.ts.
 */
module PostRepository {
  import opened Wrappers
  import opened PostEntity
  import opened Schema
  import opened PostService
  import opened SqlOrder

  // -------------------------------------------------------------- read

  /** post_media WHERE post_id = $1 ORDER BY sort_order. */
  function MediaInOrder(rows: map<nat, PostMedia>): seq<PostMedia>
    decreases |rows.Keys|
  {
    if rows == map[] then []
    else
      var first := LeastKey(rows.Keys);
      RestIsSmaller(rows, first);
      [rows[first]] + MediaInOrder(rows - {first})
  }

  lemma RestIsSmaller(rows: map<nat, PostMedia>, first: nat)
    requires first in rows
    ensures (rows - {first}).Keys == rows.Keys - {first} && (rows - {first}).Keys < rows.Keys
  {
  }

  function LeastKey(keys: set<nat>): (first: nat)
    requires keys != {}
    ensures first in keys && forall k | k in keys :: first <= k
  {
    LeastExists(keys);
    var first :| first in keys && forall k | k in keys :: first <= k;
    first
  }

  lemma LeastExists(keys: set<nat>)
    requires keys != {}
    ensures exists first :: first in keys && forall k | k in keys :: first <= k
  {
    var ascending: Order<nat> := (a, b) => a < b;
    FirstExists(ascending, keys);
    var first :| IsFirst(ascending, keys, first);
    assert first in keys && forall k | k in keys :: first <= k;
  }

  function ToContent(row: PostRow, media: seq<PostMedia>): PostContent {
    PostContent(row.title, row.body, row.destinationUrl, media, Some(row.platformBodies))
  }

  function ReadPost(db: Db, id: PostId): Post
    requires id in db.posts && id in db.media
  {
    var row := db.posts[id];
    Post(row.id, row.campaignId, row.ownerId, ToContent(row, MediaInOrder(db.media[id])), row.scheduledAt, row.status,
        row.revision)
  }

  function ReadJobs(db: Db, id: PostId): (jobs: seq<SocialPublishJob>)
    requires id in db.jobsOfPost
    requires forall j | j in db.jobsOfPost[id] :: j in db.jobs
  {
    var ids := db.jobsOfPost[id];
    seq(|ids|, i requires 0 <= i < |ids| => db.jobs[ids[i]])
  }

  predicate Readable(db: Db, id: PostId) {
    && id in db.posts && id in db.media && id in db.jobsOfPost
    && forall j | j in db.jobsOfPost[id] :: j in db.jobs
  }

  lemma ShapeIsReadable(db: Db, id: PostId)
    requires Shape(db) && id in db.posts
    ensures Readable(db, id)
  {
    assert IndexOk(db, id);
  }

  function ReadRecord(db: Db, id: PostId): PostRecord
    requires Readable(db, id)
  {
    PostRecord(ReadPost(db, id), ReadJobs(db, id))
  }

  // -------------------------------------------------------------- write

  function ToRow(post: Post): PostRow {
    PostRow(post.id, post.campaignId, post.ownerId, post.content.title, post.content.body, post.content.url,
            post.scheduledAt, post.status, post.revision, post.content.platformBodies.GetOr(map[]))
  }

  function Positions(media: seq<PostMedia>): map<nat, PostMedia> {
    map i: nat | i < |media| :: media[i]
  }

  /** UPDATE posts SET title..platform_bodies, revision = revision + 1, and the rewritten media rows. */
  function WritePost(db: Db, id: PostId, p: Post): Db
    requires id in db.posts
  {
    var row := db.posts[id];
    db.(posts := db.posts[id := row.(title := p.content.title, body := p.content.body, destinationUrl := p.content.url,
                                     scheduledAt := p.scheduledAt, status := p.status, revision := row.revision + 1,
                                     platformBodies := p.content.platformBodies.GetOr(map[]))],
        media := db.media[id := Positions(p.content.media)])
  }

  /** The six columns an editorial UPDATE sets; the others keep their stored value. */
  function SixColumns(row: SocialPublishJob, job: SocialPublishJob): SocialPublishJob {
    row.(status := job.status, scheduledAt := job.scheduledAt, nextRetryAt := job.nextRetryAt,
         errorCode := job.errorCode, errorMessage := job.errorMessage, retryCount := job.retryCount)
  }

  function WriteJob(db: Db, current: map<JobId, SocialPublishJob>, job: SocialPublishJob): Db {
    if job.id in current && current[job.id] == job then db
    else if job.id in db.jobs then UpdateJob(db, job.id, SixColumns(db.jobs[job.id], job))
    else db
  }

  function WriteJobs(db: Db, current: map<JobId, SocialPublishJob>, next: seq<SocialPublishJob>): Db
    decreases |next|
  {
    if next == [] then db else WriteJobs(WriteJob(db, current, next[0]), current, next[1..])
  }

  /** INSERT INTO outbox SELECT ... WHERE status = 'waiting' ON CONFLICT DO NOTHING. */
  function EnqueueWaiting(db: Db, ids: seq<JobId>): Db
    decreases |ids|
  {
    if ids == [] then db else EnqueueWaiting(EnqueueIfMissing(db, ids[0]), ids[1..])
  }

  function EnqueueIfMissing(db: Db, j: JobId): Db {
    if j in db.jobs && db.jobs[j].status == Waiting && j !in db.outbox
    then db.(outbox := db.outbox[j := FreshOutboxRow(db, db.jobs[j])], nextQueueId := db.nextQueueId + 1)
    else db
  }

  predicate WritesPassChecks(db: Db, next: seq<SocialPublishJob>) {
    forall job | job in next && job.id in db.jobs && db.jobs[job.id] != job ::
        JobChecks(SixColumns(db.jobs[job.id], job))
  }

  function WriteRecord(db: Db, id: PostId, next: PostRecord): Db
    requires id in db.posts && id in db.jobsOfPost
  {
    var written := WriteJobs(WritePost(db, id, next.post), db.jobs, next.jobs);
    if db.posts[id].status == DraftPost && next.post.status == ScheduledPost
    then EnqueueWaiting(written, db.jobsOfPost[id])
    else written
  }

  datatype Mutated = Mutated(db: Db, record: PostRecord)

  type Work = PostRecord -> Result<PostRecord, EditError>

  /** The whole transaction of `mutate`: a failure at any point leaves the tables alone. */
  function PgMutate(db: Db, id: PostId, ownerId: OwnerId, work: Work, accountsOk: bool): Result<Mutated, EditError> {
    if !Readable(db, id) || db.posts[id].ownerId != ownerId then Failure(NotFound)
    else match work(ReadRecord(db, id))
      case Failure(error) => Failure(error)
      case Success(next) =>
        if next.post.status == ScheduledPost && !accountsOk then Failure(Conflict(AccountUnavailable))
        else if !WritesPassChecks(db, next.jobs) then Failure(ConstraintViolation)
        else Success(Mutated(WriteRecord(db, id, next), next.(post := next.post.(revision := next.post.revision + 1))))
  }

  /** `save`: a new draft and its jobs; ids come fresh from randomUUID(). */
  function PgSave(db: Db, post: Post, jobs: seq<SocialPublishJob>): Db {
    InsertJobs(db.(posts := db.posts[post.id := ToRow(post).(revision := 1)],
                   media := db.media[post.id := Positions(post.content.media)],
                   jobsOfPost := db.jobsOfPost[post.id := []]), jobs)
  }

  function InsertJobs(db: Db, jobs: seq<SocialPublishJob>): Db
    decreases |jobs|
  {
    if jobs == [] then db else InsertJobs(IndexJob(InsertJob(db, jobs[0]), jobs[0]), jobs[1..])
  }

  /** The index that answers WHERE post_id = $1 ORDER BY id, after one more row. */
  function IndexJob(db: Db, job: SocialPublishJob): Db {
    var ids := if job.postId in db.jobsOfPost then db.jobsOfPost[job.postId] else [];
    db.(jobsOfPost := db.jobsOfPost[job.postId := InsertSorted(ids, job.id)])
  }

  function InsertSorted(ids: seq<JobId>, j: JobId): seq<JobId> {
    if ids == [] || j < ids[0] then [j] + ids else [ids[0]] + InsertSorted(ids[1..], j)
  }

  // -------------------------------------------------------------- the repository

  class PgPostRepository {
    const database: Database

    constructor (database: Database)
      ensures this.database == database
    {
      this.database := database;
    }

    method FindOwned(id: PostId, ownerId: OwnerId) returns (r: Result<PostRecord, EditError>)
      ensures r.Success? <==> Readable(database.Contents(), id) && database.posts[id].ownerId == ownerId
      ensures r.Success? ==> r.value == ReadRecord(database.Contents(), id)
      ensures r.Failure? ==> r.error == NotFound
    {
      var db := database.Contents();
      if !Readable(db, id) || db.posts[id].ownerId != ownerId { return Failure(NotFound); }
      return Success(ReadRecord(db, id));
    }

    /** The INSERTs of a new post; the checks that precede them are inputs of PostEditor.Create. */
    method Save(post: Post, jobs: seq<SocialPublishJob>)
      modifies database
      ensures database.Contents() == PgSave(old(database.Contents()), post, jobs)
    {
      var start := database.Contents();
      var rows := RewriteMedia(post.content.media);
      var tx := start.(posts := start.posts[post.id := ToRow(post).(revision := 1)],
                       media := start.media[post.id := rows],
                       jobsOfPost := start.jobsOfPost[post.id := []]);
      ghost var posted := tx;
      for i := 0 to |jobs|
        invariant InsertJobs(posted, jobs) == InsertJobs(tx, jobs[i..])
      {
        assert jobs[i..][1..] == jobs[i + 1..];
        tx := IndexJob(InsertJob(tx, jobs[i]), jobs[i]);
      }
      database.Commit(tx);
    }

    method Mutate(id: PostId, ownerId: OwnerId, work: Work, accountsOk: bool) returns (r: Result<PostRecord, EditError>)
      modifies database
      ensures match PgMutate(old(database.Contents()), id, ownerId, work, accountsOk)
              case Failure(e) => r == Failure(e) && database.Contents() == old(database.Contents())
              case Success(m) => r == Success(m.record) && database.Contents() == m.db
    {
      var current := FindOwned(id, ownerId);
      if current.Failure? { return Failure(current.error); }
      var next := work(current.value);
      if next.Failure? { return Failure(next.error); }
      var p := next.value.post;
      if p.status == ScheduledPost && !accountsOk { return Failure(Conflict(AccountUnavailable)); }

      var start := database.Contents();
      var tx := WritePostRow(start, id, p);
      var ok: bool;
      ok, tx := UpdateChangedJobs(start, tx, next.value.jobs);
      if !ok { return Failure(ConstraintViolation); }
      if start.posts[id].status == DraftPost && p.status == ScheduledPost {
        WriteJobsKeepsRest(WritePost(start, id, p), start.jobs, next.value.jobs);
        tx := InsertMissingOutboxRows(tx, tx.jobsOfPost[id]);
      }
      database.Commit(tx);
      return Success(next.value.(post := p.(revision := p.revision + 1)));
    }
  }

  /** The reference repository: whole records in a Map, nothing else. */
  class InMemoryPostRepository {
    var records: map<PostId, PostRecord>

    constructor ()
      ensures records == map[]
    {
      records := map[];
    }

    method Save(post: Post, jobs: seq<SocialPublishJob>)
      modifies this
      ensures records == old(records)[post.id := PostRecord(post, jobs)]
    {
      records := records[post.id := PostRecord(post, jobs)];
    }

    method FindOwned(id: PostId, ownerId: OwnerId) returns (r: Result<PostRecord, EditError>)
      ensures r == if id in records && records[id].post.ownerId == ownerId then Success(records[id])
               else Failure(NotFound)
    {
      if id !in records || records[id].post.ownerId != ownerId { return Failure(NotFound); }
      return Success(records[id]);
    }

    method Mutate(id: PostId, ownerId: OwnerId, work: Work) returns (r: Result<PostRecord, EditError>)
      modifies this
      ensures r == MemMutate(old(records), id, ownerId, work)
      ensures r.Success? ==> records == old(records)[r.value.post.id := r.value]
      ensures r.Failure? ==> records == old(records)
    {
      var current := FindOwned(id, ownerId);
      if current.Failure? { return current; }
      var next := work(current.value);
      if next.Failure? { return next; }
      var post := next.value.post.(revision := current.value.post.revision + 1);
      Save(post, next.value.jobs);
      return Success(PostRecord(post, next.value.jobs));
    }
  }

  function MemMutate(records: map<PostId, PostRecord>, id: PostId, ownerId: OwnerId, work: Work)
    : Result<PostRecord, EditError>
  {
    if id !in records || records[id].post.ownerId != ownerId then Failure(NotFound)
    else match work(records[id])
      case Failure(e) => Failure(e)
      case Success(next) => Success(next.(post := next.post.(revision := records[id].post.revision + 1)))
  }

  /** DELETE FROM post_media, then one INSERT a position. */
  method RewriteMedia(media: seq<PostMedia>) returns (rows: map<nat, PostMedia>)
    ensures rows == Positions(media)
  {
    rows := map[];
    for i := 0 to |media|
      invariant rows == map k: nat | k < i :: media[k]
    {
      rows := rows[i := media[i]];
    }
  }

  /** UPDATE posts, DELETE FROM post_media and the INSERTs that follow it. */
  method WritePostRow(start: Db, id: PostId, p: Post) returns (tx: Db)
    requires id in start.posts
    ensures tx == WritePost(start, id, p)
  {
    var row := start.posts[id];
    tx := start.(posts := start.posts[id := row.(
                   title := p.content.title, body := p.content.body, destinationUrl := p.content.url,
                   scheduledAt := p.scheduledAt, status := p.status, revision := row.revision + 1,
                   platformBodies := p.content.platformBodies.GetOr(map[]))]);
    var rows := RewriteMedia(p.content.media);
    tx := tx.(media := tx.media[id := rows]);
  }

  /** The loop over next.jobs: unchanged jobs are skipped, a CHECK violation raises. */
  method UpdateChangedJobs(start: Db, written: Db, jobs: seq<SocialPublishJob>) returns (ok: bool, tx: Db)
    requires written.jobs.Keys == start.jobs.Keys
    ensures ok <==> WritesPassChecks(start, jobs)
    ensures ok ==> tx == WriteJobs(written, start.jobs, jobs)
  {
    tx := written;
    for i := 0 to |jobs|
      invariant tx.jobs.Keys == start.jobs.Keys
      invariant WriteJobs(written, start.jobs, jobs) == WriteJobs(tx, start.jobs, jobs[i..])
      invariant WritesPassChecks(start, jobs[..i])
    {
      var job := jobs[i];
      if job.id in start.jobs && start.jobs[job.id] != job && !JobChecks(SixColumns(start.jobs[job.id], job)) {
        return false, tx;
      }
      assert jobs[i..][1..] == jobs[i + 1..];
      assert jobs[..i + 1] == jobs[..i] + [job];
      WriteJobKeepsRest(tx, start.jobs, job);
      tx := WriteJob(tx, start.jobs, job);
    }
    assert jobs[..|jobs|] == jobs;
    ok := true;
  }

  ghost predicate SameOutboxRow(db: Db, after: Db, j: JobId) {
    (j in db.outbox <==> j in after.outbox) && (j in db.outbox ==> after.outbox[j] == db.outbox[j])
  }

  ghost predicate IsFreshRow(db: Db, after: Db, j: JobId)
    requires j in after.outbox
  {
    && j in after.jobs && db.nextQueueId <= after.outbox[j].queueJobId
    && after.outbox[j] == OutboxRow(after.jobs[j].scheduledAt, after.outbox[j].queueJobId, None, 0, None, None)
  }

  /** The final INSERT adds a row exactly for the listed waiting jobs that have none. */
  lemma {:induction false} EnqueueAt(db: Db, ids: seq<JobId>, j: JobId)
    ensures var after := EnqueueWaiting(db, ids);
            && after == db.(outbox := after.outbox, nextQueueId := after.nextQueueId)
            && db.nextQueueId <= after.nextQueueId
            && if j in ids && j in db.jobs && db.jobs[j].status == Waiting && j !in db.outbox
               then j in after.outbox && IsFreshRow(db, after, j)
               else SameOutboxRow(db, after, j)
    decreases |ids|
  {
    if ids != [] { EnqueueAt(EnqueueIfMissing(db, ids[0]), ids[1..], j); }
  }

  /** A listed waiting job without a row gets a fresh one; every other row and table stays. */
  method InsertMissingOutboxRows(written: Db, ids: seq<JobId>) returns (tx: Db)
    ensures tx == written.(outbox := tx.outbox, nextQueueId := tx.nextQueueId)
    ensures forall j ::
              if j in ids && j in written.jobs && written.jobs[j].status == Waiting && j !in written.outbox
              then j in tx.outbox && IsFreshRow(written, tx, j)
              else SameOutboxRow(written, tx, j)
    ensures tx == EnqueueWaiting(written, ids)
  {
    forall j { EnqueueAt(written, ids, j); }
    tx := written;
    for i := 0 to |ids|
      invariant EnqueueWaiting(written, ids) == EnqueueWaiting(tx, ids[i..])
    {
      assert ids[i..][1..] == ids[i + 1..];
      tx := EnqueueIfMissing(tx, ids[i]);
    }
  }

  lemma UpdateKeepsRest(db: Db, j: JobId, job: SocialPublishJob)
    requires j in db.jobs
    ensures var after := UpdateJob(db, j, job);
            after == db.(jobs := db.jobs[j := job], outbox := after.outbox, nextQueueId := after.nextQueueId)
  {
    TriggerTouchesOutboxOnly(db.(jobs := db.jobs[j := job]), j, Some(db.jobs[j]), job);
  }

  lemma WriteJobKeepsRest(db: Db, current: map<JobId, SocialPublishJob>, job: SocialPublishJob)
    ensures var written := WriteJob(db, current, job);
            && written == db.(jobs := written.jobs, outbox := written.outbox, nextQueueId := written.nextQueueId)
            && written.jobs.Keys == db.jobs.Keys
  {
    if job.id in db.jobs && !(job.id in current && current[job.id] == job) {
      UpdateKeepsRest(db, job.id, SixColumns(db.jobs[job.id], job));
    }
  }

  lemma {:induction false} WriteJobsKeepsRest(db: Db, current: map<JobId, SocialPublishJob>,
      next: seq<SocialPublishJob>)
    ensures var written := WriteJobs(db, current, next);
            && written.posts == db.posts && written.media == db.media && written.jobsOfPost == db.jobsOfPost
            && written.alerts == db.alerts && written.socialPosts == db.socialPosts
            && written.jobs.Keys == db.jobs.Keys
    decreases |next|
  {
    if next != [] {
      WriteJobKeepsRest(db, current, next[0]);
      WriteJobsKeepsRest(WriteJob(db, current, next[0]), current, next[1..]);
    }
  }
}
