/**
 * One scheduled post with one Threads job, some workers and some calls, as one small value,
 * and what each event makes of it. Concrete runs are told in these views.
 */
module Scenes {
  import opened Wrappers
  import opened PostEntity
  import opened RetryPolicy
  import opened TextFormatting
  import opened Schema
  import opened PostService
  import opened PostRepository
  import opened EditContract
  import opened PublishOutboxRepository
  import opened PublishingService
  import opened PublishProtocol
  import opened GenuineRuns
  import opened ProtocolInvariant

  /** PUBLISH_LEASE_MS is 30 s unless it is set. */
  const LEASE: nat := 30_000

  // The part of a worker a story depends on.
  datatype Seen = Seen(job: SocialPublishJob, leaseEnd: Time, phase: Phase, repeats: bool)

  function SeenOf(worker: Worker): Seen {
    Seen(worker.job, worker.leaseEnd, worker.phase, worker.repeats)
  }

  datatype Stage = Drafted | Live | Over

  datatype View = View(
    now: Time,
    row: SocialPublishJob,
    workers: map<WorkerId, Seen>,
    calls: map<CallId, CallState>,
    revision: nat,
    idempotent: set<SocialPlatform>,
    stage: Stage)

  predicate IsThreadsRow(row: SocialPublishJob) {
    row.id == 0 && row.postId == 0 && row.platform == Threads && JobChecks(row)
  }

  predicate IsPlainPost(db: Db, v: View) {
    && Readable(db, 0) && db.jobsOfPost[0] == [0] && db.media[0] == map[]
    && db.posts[0].ownerId == 0 && db.posts[0].revision == v.revision && db.posts[0].destinationUrl.None?
    && (v.stage.Drafted? ==> db.posts[0].status == DraftPost && 0 !in db.outbox)
    && (v.stage.Live? ==> db.posts[0].status == ScheduledPost && 0 in db.outbox)
  }

  ghost predicate Onstage(s: State, v: View) {
    && s.workers.Keys == v.workers.Keys && (forall w | w in s.workers :: SeenOf(s.workers[w]) == v.workers[w])
    && s.calls.Keys == v.calls.Keys
    && (forall c | c in s.calls ::
          s.calls[c].state == v.calls[c] && s.calls[c].jobId == 0 && s.calls[c].platform == Threads
              && s.calls[c].key == KeyOf(0))
  }

  ghost predicate Scene(s: State, v: View) {
    && s.idempotent == v.idempotent && s.now == v.now && 0 in s.db.jobs && s.db.jobs[0] == v.row && IsThreadsRow(v.row)
    && IsPlainPost(s.db, v) && Onstage(s, v)
  }

  function QueueId(s: State): nat {
    if 0 in s.db.outbox then s.db.outbox[0].queueJobId else 0
  }

  /** A scene in which BullMQ has the current queue id and no dispatcher is at work. */
  ghost predicate Shows(s: State, v: View) {
    Scene(s, v) && s.dispatchers == map[] && (v.stage.Live? ==> QueueId(s) in s.queue && RowIsHandedOver(s.db, 0))
  }

  // -------------------------------------------------------------- one thing moves

  function PutSeen(v: View, w: WorkerId, seen: Seen): View {
    v.(workers := v.workers[w := seen])
  }

  function Gone(v: View, w: WorkerId): View {
    v.(workers := v.workers - {w})
  }

  lemma WorkerShows(s: State, v: View, w: WorkerId, worker: Worker)
    requires Shows(s, v)
    ensures Shows(PutWorker(s, w, worker), PutSeen(v, w, SeenOf(worker)))
  {
  }

  lemma LeaveShows(s: State, v: View, w: WorkerId)
    requires Shows(s, v)
    ensures Shows(Without(s, w), Gone(v, w))
  {
  }

  lemma RowShows(s: State, v: View, db: Db, row: SocialPublishJob)
    requires Shows(s, v) && IsThreadsRow(row) && db == s.db.(jobs := s.db.jobs[0 := row], alerts := db.alerts)
    ensures Shows(PutDb(s, db), v.(row := row))
  {
  }

  lemma TickShows(s: State, v: View, to: Time)
    requires Shows(s, v)
    ensures Shows(s.(now := to), v.(now := to))
  {
  }

  lemma AnswerShows(s: State, v: View, c: CallId, state: CallState)
    requires Shows(s, v) && c in v.calls
    ensures c in s.calls && Shows(SetCall(s, c, state), v.(calls := v.calls[c := state]))
  {
  }

  // -------------------------------------------------------------- claim and mark

  function ClaimView(v: View, w: WorkerId): View {
    var row := ClaimedRow(v.row, v.now, LEASE);
    PutSeen(v.(row := row), w, Seen(row, v.now + LEASE, FirstPhase(row), row.remoteRequestKey.Some?))
  }

  predicate IsDue(v: View) {
    v.stage.Live? && v.row.scheduledAt <= v.now && StatusClaimable(v.row, v.now) && v.row.status != RemoteConfirmed
  }

  predicate MayClaim(v: View, w: WorkerId) {
    w !in v.workers && IsDue(v)
  }

  lemma ClaimedTables(db: Db, now: Time, v: View)
    requires 0 in db.jobs && db.jobs[0] == v.row && IsThreadsRow(v.row) && IsPlainPost(db, v) && now == v.now
    requires IsDue(v)
    ensures var row := ClaimedRow(v.row, now, LEASE);
            && IsThreadsRow(row)
            && ClaimPublishJob(db, now, 0, LEASE, Some(db.outbox[0].queueJobId))
                 == Updated(db.(jobs := db.jobs[0 := row]), row)
  {
  }

  lemma ClaimShows(s: State, v: View, w: WorkerId)
    requires Shows(s, v) && MayClaim(v, w)
    ensures var e := Claim(w, 0, LEASE, Some(QueueId(s)));
            Enabled(s, e) && Shows(Next(s, e), ClaimView(v, w))
  {
    var row, e := ClaimedRow(v.row, v.now, LEASE), Claim(w, 0, LEASE, Some(QueueId(s)));
    ClaimedTables(s.db, s.now, v);
    var db := s.db.(jobs := s.db.jobs[0 := row]);
    RowShows(s, v, db, row);
    var worker := NewWorker(row, ReadPost(db, 0), s.now + LEASE);
    WorkerShows(PutDb(s, db), v.(row := row), w, worker);
    assert Next(s, e) == PutWorker(PutDb(s, db), w, worker);
  }

  function MarkView(v: View, w: WorkerId): View {
    var row := MarkedRow(v.row, v.now, KeyOf(0), LEASE);
    PutSeen(v.(row := row), w, Seen(row, v.now + LEASE, Marked, w in v.workers && v.workers[w].repeats))
  }

  predicate MayMarkNow(v: View, w: WorkerId) {
    && w in v.workers && v.workers[w].phase.ReadyToMark? && v.workers[w].job.id == 0
    && v.workers[w].job.remoteRequestKey in {None, Some(KeyOf(0))}
    && v.row.status == Claimed && v.row.remoteRequestKey in {None, Some(KeyOf(0))}
  }

  lemma MarkedRowIsStored(db: Db, now: Time, row: SocialPublishJob)
    requires 0 in db.jobs && db.jobs[0] == row && IsThreadsRow(row) && row.status == Claimed
    requires row.remoteRequestKey in {None, Some(KeyOf(0))}
    ensures var marked := MarkedRow(row, now, KeyOf(0), LEASE);
            IsThreadsRow(marked)
                && MarkRemoteRequesting(db, now, 0, KeyOf(0), LEASE)
                     == Updated(db.(jobs := db.jobs[0 := marked]), marked)
  {
  }

  lemma MarkShows(s: State, v: View, w: WorkerId)
    requires Shows(s, v) && MayMarkNow(v, w)
    ensures Enabled(s, Mark(w, LEASE)) && Shows(Next(s, Mark(w, LEASE)), MarkView(v, w))
  {
    var row := MarkedRow(v.row, v.now, KeyOf(0), LEASE);
    MarkedRowIsStored(s.db, s.now, v.row);
    var db := s.db.(jobs := s.db.jobs[0 := row]);
    RowShows(s, v, db, row);
    var worker := Renewed(s.workers[w], row, s.now + LEASE, Marked);
    WorkerShows(PutDb(s, db), v.(row := row), w, worker);
    assert Next(s, Mark(w, LEASE)) == PutWorker(PutDb(s, db), w, worker);
  }

  // -------------------------------------------------------------- the call

  function SendView(v: View, w: WorkerId, c: CallId): View
    requires w in v.workers
  {
    PutSeen(v, w, v.workers[w].(phase := AwaitingProvider(c))).(calls := v.calls[c := InFlight])
  }

  predicate MaySend(v: View, w: WorkerId, c: CallId) {
    && w in v.workers && v.workers[w].phase.Marked? && c !in v.calls
    && v.workers[w].job.id == 0 && v.workers[w].job.platform == Threads
    && v.workers[w].job.remoteRequestKey == Some(KeyOf(0))
  }

  lemma SendShows(s: State, v: View, w: WorkerId, c: CallId)
    requires Shows(s, v) && MaySend(v, w, c)
    ensures Enabled(s, Send(w, c)) && Shows(Next(s, Send(w, c)), SendView(v, w, c))
  {
    assert Next(s, Send(w, c)) == SendStep(s, w, c);
  }

  predicate IsOpenIn(v: View, c: CallId) {
    c in v.calls && v.calls[c] == InFlight
  }

  predicate NoneAccepted(v: View) {
    forall d | d in v.calls :: !v.calls[d].Accepted?
  }

  lemma AcceptShows(s: State, v: View, c: CallId)
    requires Shows(s, v) && IsOpenIn(v, c) && (v.idempotent == {} || NoneAccepted(v))
    ensures Enabled(s, Accept(c, c)) && Shows(Next(s, Accept(c, c)), v.(calls := v.calls[c := Accepted(c)]))
  {
    AnswerShows(s, v, c, Accepted(c));
    assert Next(s, Accept(c, c)) == SetCall(s, c, Accepted(c));
  }

  lemma RefuseShows(s: State, v: View, c: CallId)
    requires Shows(s, v) && IsOpenIn(v, c)
    ensures Enabled(s, Refuse(c)) && Shows(Next(s, Refuse(c)), v.(calls := v.calls[c := Refused]))
  {
    AnswerShows(s, v, c, Refused);
    assert Next(s, Refuse(c)) == SetCall(s, c, Refused);
  }

  // -------------------------------------------------------------- answers

  const NO_ANSWER: ThrownError := TransportError("")
  const BAD_REQUEST: ThrownError := HttpStatus(400, "")
  const TOO_MANY_REQUESTS: ThrownError := HttpStatus(429, "")

  predicate Awaits(v: View, w: WorkerId) {
    w in v.workers && v.workers[w].phase.AwaitingProvider? && v.workers[w].phase.call in v.calls
  }

  function RecheckingView(v: View, w: WorkerId): View
    requires w in v.workers
  {
    PutSeen(v, w, v.workers[w].(phase := Rechecking(ClassifyPublishFailure(NO_ANSWER))))
  }

  lemma SilenceShows(s: State, v: View, w: WorkerId)
    requires Shows(s, v) && Awaits(v, w)
    ensures Enabled(s, ReceiveFailure(w, NO_ANSWER))
    ensures Shows(Next(s, ReceiveFailure(w, NO_ANSWER)), RecheckingView(v, w))
  {
    var worker := Goes(s.workers[w], s.workers[w].job, Rechecking(ClassifyPublishFailure(NO_ANSWER)));
    WorkerShows(s, v, w, worker);
    assert Next(s, ReceiveFailure(w, NO_ANSWER)) == PutWorker(s, w, worker);
  }

  /** About to save a definite failure, retried after 30 s if it was a 429 and the first one. */
  function FailingView(v: View, w: WorkerId, error: ThrownError): View
    requires w in v.workers
  {
    var failed := FailedJob(v.workers[w].job, ClassifyPublishFailure(error));
    PutSeen(v, w,
        v.workers[w].(job := failed, phase := if error == TOO_MANY_REQUESTS then Failing(true, Some(v.now + 30_000))
            else Failing(false, None)))
  }

  lemma FailurePlan(s: State, w: WorkerId, error: ThrownError)
    requires w in s.workers
    requires error == BAD_REQUEST || (error == TOO_MANY_REQUESTS && s.workers[w].job.retryCount == 0)
    ensures var failed := FailedJob(s.workers[w].job, ClassifyPublishFailure(error));
            AfterFailure(s, w, ClassifyPublishFailure(error)) ==
              PutWorker(s, w, Goes(s.workers[w], failed,
                                   if error == TOO_MANY_REQUESTS then Failing(true, Some(s.now + 30_000))
                                       else Failing(false, None)))
  {
  }

  lemma FailureShows(s: State, v: View, w: WorkerId, error: ThrownError)
    requires Shows(s, v) && w in v.workers
    requires error == BAD_REQUEST || (error == TOO_MANY_REQUESTS && v.workers[w].job.retryCount == 0)
    ensures Shows(AfterFailure(s, w, ClassifyPublishFailure(error)), FailingView(v, w, error))
  {
    var failed := FailedJob(s.workers[w].job, ClassifyPublishFailure(error));
    var phase := if error == TOO_MANY_REQUESTS then Failing(true, Some(s.now + 30_000)) else Failing(false, None);
    FailurePlan(s, w, error);
    WorkerShows(s, v, w, Goes(s.workers[w], failed, phase));
  }

  /** The provider refuses, once and for all. */
  lemma RefusalShows(s: State, v: View, w: WorkerId)
    requires Shows(s, v) && Awaits(v, w) && v.calls[v.workers[w].phase.call] == Refused
    ensures Enabled(s, ReceiveFailure(w, BAD_REQUEST))
    ensures Shows(Next(s, ReceiveFailure(w, BAD_REQUEST)), FailingView(v, w, BAD_REQUEST))
  {
    FailureShows(s, v, w, BAD_REQUEST);
    assert Next(s, ReceiveFailure(w, BAD_REQUEST)) == AfterFailure(s, w, ClassifyPublishFailure(BAD_REQUEST));
  }

  /** The request is refused before it leaves, for instance while a token is renewed. */
  lemma LocalFailureShows(s: State, v: View, w: WorkerId)
    requires Shows(s, v) && w in v.workers && v.workers[w].phase.Marked? && v.workers[w].job.retryCount == 0
    ensures Enabled(s, FailLocally(w, TOO_MANY_REQUESTS))
    ensures Shows(Next(s, FailLocally(w, TOO_MANY_REQUESTS)), FailingView(v, w, TOO_MANY_REQUESTS))
  {
    FailureShows(s, v, w, TOO_MANY_REQUESTS);
    assert Next(s, FailLocally(w, TOO_MANY_REQUESTS)) == AfterFailure(s, w, ClassifyPublishFailure(TOO_MANY_REQUESTS));
  }

  // -------------------------------------------------------------- lookups in vain

  predicate Looks(v: View, w: WorkerId) {
    w in v.workers && (v.workers[w].phase.Reconciling? || v.workers[w].phase.Rechecking?)
        && v.workers[w].job.retryCount <= 3
    && v.workers[w].job.status != Failed && v.workers[w].job.platform == Threads
  }

  /** The job a fruitless lookup defers. */
  function MissedJob(seen: Seen): SocialPublishJob {
    DeferredJob(if seen.phase.Rechecking? then FailedJob(seen.job, seen.phase.failure) else seen.job)
  }

  function DelayAfter(failures: nat): nat {
    if failures <= 1 then 30_000 else if failures == 2 then 120_000 else 600_000
  }

  function DeferralPlan(job: SocialPublishJob, now: Time): Phase {
    if job.retryCount <= 3 then Deferring(true, Some(now + DelayAfter(job.retryCount))) else Deferring(false, None)
  }

  /** Where publish is idempotent, a request that was not found is repeated; elsewhere it is deferred. */
  function MissedSeen(seen: Seen, idempotent: set<SocialPlatform>, now: Time): Seen {
    if seen.phase.Reconciling? && Threads in idempotent then seen.(phase := ReadyToMark)
    else seen.(job := MissedJob(seen), phase := DeferralPlan(MissedJob(seen), now))
  }

  function MissView(v: View, w: WorkerId): View
    requires w in v.workers
  {
    PutSeen(v, w, MissedSeen(v.workers[w], v.idempotent, v.now))
  }

  lemma DeferralIsPlanned(s: State, w: WorkerId, job: SocialPublishJob)
    requires w in s.workers && 1 <= DeferredJob(job).retryCount <= 4
    ensures BeginDefer(s, w, job)
             == PutWorker(s, w, Goes(s.workers[w], DeferredJob(job), DeferralPlan(DeferredJob(job), s.now)))
  {
  }

  function MissedWorker(worker: Worker, idempotent: set<SocialPlatform>, now: Time): Worker {
    if worker.phase.Reconciling? && Threads in idempotent then Goes(worker, worker.job, ReadyToMark)
    else Goes(worker, MissedJob(SeenOf(worker)), DeferralPlan(MissedJob(SeenOf(worker)), now))
  }

  lemma MissedWorkerIsSeen(worker: Worker, idempotent: set<SocialPlatform>, now: Time)
    ensures SeenOf(MissedWorker(worker, idempotent, now)) == MissedSeen(SeenOf(worker), idempotent, now)
  {
  }

  lemma RecheckIsPlanned(s: State, w: WorkerId)
    requires w in s.workers && s.workers[w].phase.Rechecking? && s.workers[w].job.retryCount <= 3
    ensures MissStep(s, w) == PutWorker(s, w, MissedWorker(s.workers[w], s.idempotent, s.now))
  {
    DeferralIsPlanned(s, w, FailedJob(s.workers[w].job, s.workers[w].phase.failure));
  }

  lemma LookupIsPlanned(s: State, w: WorkerId)
    requires w in s.workers && s.workers[w].phase.Reconciling? && s.workers[w].job.platform == Threads
    requires s.workers[w].job.retryCount <= 3 && s.workers[w].job.status != Failed
    ensures MissStep(s, w) == PutWorker(s, w, MissedWorker(s.workers[w], s.idempotent, s.now))
  {
    if Threads !in s.idempotent { DeferralIsPlanned(s, w, s.workers[w].job); }
  }

  lemma MissShows(s: State, v: View, w: WorkerId)
    requires Shows(s, v) && Looks(v, w)
    ensures Enabled(s, MissPost(w)) && Shows(Next(s, MissPost(w)), MissView(v, w))
  {
    if s.workers[w].phase.Rechecking? { RecheckIsPlanned(s, w); } else { LookupIsPlanned(s, w); }
    MissedWorkerIsSeen(s.workers[w], s.idempotent, s.now);
    WorkerShows(s, v, w, MissedWorker(s.workers[w], s.idempotent, s.now));
    assert Next(s, MissPost(w)) == MissStep(s, w);
  }

  // -------------------------------------------------------------- failures that are stored

  lemma StoredFailure(db: Db, now: Time, row: SocialPublishJob)
    requires 0 in db.jobs && IsThreadsRow(row) && row.status in {Failed, Retrying, RemoteRequesting}
    requires 1 <= row.retryCount
    ensures var outcome := FailRow(db, now, 0, row);
            outcome.Updated? && outcome.db == db.(jobs := db.jobs[0 := row], alerts := outcome.db.alerts)
  {
  }

  lemma StoredFailureShows(s: State, v: View, w: WorkerId, row: SocialPublishJob)
    requires Shows(s, v) && IsThreadsRow(row) && row.status in {Failed, Retrying, RemoteRequesting}
    requires 1 <= row.retryCount
    ensures Shows(Without(PutDb(s, After(FailRow(s.db, s.now, 0, row), s.db)), w), Gone(v.(row := row), w))
  {
    StoredFailure(s.db, s.now, row);
    RowShows(s, v, FailRow(s.db, s.now, 0, row).db, row);
    LeaveShows(PutDb(s, FailRow(s.db, s.now, 0, row).db), v.(row := row), w);
  }

  function DeferredRow(v: View, w: WorkerId): SocialPublishJob {
    if w in v.workers && v.workers[w].phase.Deferring?
    then AmbiguousRow(v.row, v.workers[w].job, v.workers[w].phase.retryPending, v.workers[w].phase.nextRetryAt)
        else v.row
  }

  predicate MayDefer(v: View, w: WorkerId) {
    && w in v.workers && v.workers[w].phase.Deferring? && v.workers[w].job.id == 0 && 1 <= v.workers[w].job.retryCount
    && v.row.status in {Claimed, RemoteRequesting} && IsThreadsRow(DeferredRow(v, w))
  }

  lemma DeferShows(s: State, v: View, w: WorkerId)
    requires Shows(s, v) && MayDefer(v, w)
    ensures Enabled(s, Defer(w)) && Shows(Next(s, Defer(w)), Gone(v.(row := DeferredRow(v, w)), w))
  {
    StoredFailureShows(s, v, w, DeferredRow(v, w));
    assert Next(s, Defer(w)) == DeferStep(s, w);
  }

  function FailedRow(v: View, w: WorkerId): SocialPublishJob {
    if w in v.workers && v.workers[w].phase.Failing?
    then RefusedRow(v.row, v.workers[w].job, v.workers[w].phase.retryPending, v.workers[w].phase.nextRetryAt) else v.row
  }

  predicate MayFail(v: View, w: WorkerId) {
    && w in v.workers && v.workers[w].phase.Failing? && v.workers[w].job.id == 0 && 1 <= v.workers[w].job.retryCount
    && v.row.status in {Claimed, RemoteRequesting} && IsThreadsRow(FailedRow(v, w))
  }

  lemma FailShows(s: State, v: View, w: WorkerId)
    requires Shows(s, v) && MayFail(v, w)
    ensures Enabled(s, Fail(w)) && Shows(Next(s, Fail(w)), Gone(v.(row := FailedRow(v, w)), w))
  {
    StoredFailureShows(s, v, w, FailedRow(v, w));
    assert Next(s, Fail(w)) == FailStep(s, w);
  }

  // -------------------------------------------------------------- schedule, cancel and retry

  lemma OneJobRecord(db: Db)
    requires Readable(db, 0) && db.jobsOfPost[0] == [0]
    ensures ReadRecord(db, 0).jobs == [db.jobs[0]]
  {
  }

  lemma TextPasses(content: PostContent)
    requires content.url.None?
    ensures PassesLengthGate(content, Threads)
  {
    CompactRespectsLimit(Original(content, Threads).1, THREADS_LIMIT);
  }

  lemma NoIssues(content: PostContent)
    requires content.url.None? && content.media == []
    ensures IssuesFor(content, Threads, false) == []
  {
    TextPasses(content);
  }

  lemma PlainIsPublishable(r: PostRecord, row: SocialPublishJob)
    requires r.jobs == [row] && row.platform == Threads && r.post.content.url.None? && r.post.content.media == []
    ensures Publishable(r, false)
  {
    NoIssues(r.post.content);
    forall found | found in Findings(r, false) ensures found == [] {
      var k :| 0 <= k < 1 && Findings(r, false)[k] == found;
      assert r.jobs[k] == row;
    }
  }

  lemma ScheduleIsAccepted(r: PostRecord, row: SocialPublishJob, to: Time, now: Time)
    requires r.jobs == [row] && row.status == Waiting && row.remoteRequestKey.None?
    requires Publishable(r, false) && r.post.status in {DraftPost, ScheduledPost}
    ensures Apply(Schedule(to, now, r.post.revision, false), r).Success?
  {
  }

  lemma RetryIsAccepted(r: PostRecord, row: SocialPublishJob, now: Time)
    requires r.jobs == [row] && row.id == 0 && row.status == Failed && row.remoteRequestKey.None?
    requires row.remotePostId.None?
    ensures Apply(Retry(0, r.post.revision, now), r).Success?
  {
    assert row in r.jobs;
  }

  lemma CancelIsAccepted(r: PostRecord, row: SocialPublishJob)
    requires r.jobs == [row] && row.status in {Waiting, Retrying, Failed} && row.remoteRequestKey.None?
    ensures Apply(Cancel(r.post.revision), r).Success?
  {
  }

  /** schedule, cancel and retry of the one job. */
  function CommandOf(v: View, c: Act): Command {
    match c
    case IsScheduled(to) => Schedule(to, v.now, v.revision, false)
    case IsCancelled => Cancel(v.revision)
    case IsRetried => Retry(0, v.revision, v.now)
  }

  datatype Act = IsScheduled(to: Time) | IsCancelled | IsRetried

  predicate MayAct(v: View, c: Act) {
    && v.row.remoteRequestKey.None? && v.row.remotePostId.None?
    && match c
       case IsScheduled(to) => v.row.status == Waiting && v.now < to && !v.stage.Over?
           && (v.stage.Drafted? || v.row.scheduledAt != to)
       case IsCancelled => v.row.status in {Waiting, Retrying, Failed}
       case IsRetried => v.row.status == Failed && v.stage.Live?
  }

  function EditedRowOf(v: View, c: Act): SocialPublishJob {
    match c
    case IsScheduled(to) => RescheduledJob(v.row, to)
    case IsCancelled => CancelledJob(v.row)
    case IsRetried => RetriedJob(v.row, 0, v.now)
  }

  function ActView(v: View, c: Act): View {
    v.(row := EditedRowOf(v, c), revision := v.revision + 1, stage := if c.IsCancelled? then Over else Live)
  }

  lemma ActIsAccepted(s: State, v: View, c: Act)
    requires Inv(s) && Shows(s, v) && MayAct(v, c)
    ensures IsAccepted(s.db, 0, 0, CommandOf(v, c)) && TimelyCommand(s, CommandOf(v, c))
  {
    var r := ReadRecord(s.db, 0);
    OneJobRecord(s.db);
    assert r.post.content.url.None? && r.post.content.media == [] && r.post.revision == v.revision by {
      PlainRecord(s.db, v);
    }
    match c {
      case IsScheduled(to) => PlainIsPublishable(r, v.row); ScheduleIsAccepted(r, v.row, to, v.now);
      case IsCancelled => CancelIsAccepted(r, v.row);
      case IsRetried => RetryIsAccepted(r, v.row, v.now);
    }
  }

  lemma PlainRecord(db: Db, v: View)
    requires IsPlainPost(db, v)
    ensures var r := ReadRecord(db, 0);
            r.post.content.url.None? && r.post.content.media == [] && r.post.revision == v.revision
                && r.post.status == db.posts[0].status
  {
  }

  predicate FreshlyQueued(db: Db) {
    0 in db.outbox && db.outbox[0].enqueuedAt.None? && db.outbox[0].dispatchLeaseExpiresAt.None?
  }

  lemma EditedContent(db: Db, after: Db, v: View, c: Act)
    requires IsPlainPost(db, v) && IsEdit(db, 0, CommandOf(v, c), after)
    ensures 0 in after.media && after.media[0] == map[] && 0 in after.posts && after.posts[0].destinationUrl.None?
    ensures after.posts[0].ownerId == 0 && after.posts[0].revision == v.revision + 1
    ensures !c.IsCancelled? ==> after.posts[0].status == ScheduledPost
  {
    assert ReadPost(after, 0).content == ReadPost(db, 0).content;
  }

  lemma EditedQueue(db: Db, after: Db, v: View, c: Act)
    requires 0 in db.jobs && db.jobs[0] == v.row && IsThreadsRow(v.row) && MayAct(v, c)
    requires v.stage.Drafted? ==> 0 !in db.outbox && 0 in db.posts && db.posts[0].status == DraftPost
    requires IsEditedJob(db, after, 0, CommandOf(v, c), 0)
    requires !c.IsCancelled? ==> after.posts[0].status == ScheduledPost
    ensures after.jobs[0] == EditedRowOf(v, c) && (c.IsCancelled? || FreshlyQueued(after))
  {
  }

  lemma EditedTablesOf(db: Db, after: Db, command: Command)
    requires IsEdit(db, 0, command, after) && db.jobsOfPost[0] == [0]
    ensures Readable(after, 0) && after.jobsOfPost[0] == [0] && IsEditedJob(db, after, 0, command, 0)
  {
    assert 0 in db.jobsOfPost[0];
  }

  /** The tables after the transaction, from the contract of edits. */
  lemma EditedPlainPost(db: Db, after: Db, v: View, c: Act)
    requires 0 in db.jobs && db.jobs[0] == v.row && IsThreadsRow(v.row) && IsPlainPost(db, v) && MayAct(v, c)
    requires IsEdit(db, 0, CommandOf(v, c), after)
    ensures 0 in after.jobs && after.jobs[0] == EditedRowOf(v, c) && IsPlainPost(after, ActView(v, c))
    ensures c.IsCancelled? || FreshlyQueued(after)
  {
    EditedTablesOf(db, after, CommandOf(v, c));
    EditedContent(db, after, v, c);
    EditedQueue(db, after, v, c);
    EditedIsPlain(after, v, c);
  }

  lemma EditedIsPlain(after: Db, v: View, c: Act)
    requires Readable(after, 0) && after.jobsOfPost[0] == [0] && after.media[0] == map[]
    requires after.posts[0].destinationUrl.None?
    requires after.posts[0].ownerId == 0 && after.posts[0].revision == v.revision + 1
    requires c.IsCancelled? || (after.posts[0].status == ScheduledPost && FreshlyQueued(after))
    ensures IsPlainPost(after, ActView(v, c))
  {
  }

  lemma ActScene(s: State, v: View, c: Act)
    requires Inv(s) && Shows(s, v) && MayAct(v, c)
    ensures var e := Transaction(s, 0, 0, CommandOf(v, c));
            && Enabled(s, e) && IsGenuine(s, e) && Scene(Next(s, e), ActView(v, c)) && Next(s, e).dispatchers == map[]
            && (c.IsCancelled? || FreshlyQueued(Next(s, e).db))
  {
    ActIsAccepted(s, v, c);
    TransactionIsEnabled(s, 0, 0, CommandOf(v, c));
    var t := Next(s, Transaction(s, 0, 0, CommandOf(v, c)));
    EditedPlainPost(s.db, t.db, v, c);
    EditedRowIsThreads(v, c);
    EditedOnstage(s, t, v, c);
  }

  lemma EditedRowIsThreads(v: View, c: Act)
    requires IsThreadsRow(v.row) && MayAct(v, c)
    ensures IsThreadsRow(EditedRowOf(v, c))
  {
  }

  lemma EditedOnstage(s: State, t: State, v: View, c: Act)
    requires Onstage(s, v) && t.workers == s.workers && t.calls == s.calls
    ensures Onstage(t, ActView(v, c))
  {
  }
}
