/** What the invariant means for the people who use the system: consequences over whole runs. */
module PublishGuarantees {
  import opened Wrappers
  import opened PostEntity
  import opened RetryPolicy
  import opened Schema
  import opened PostService
  import opened PostRepository
  import opened PublishOutboxRepository
  import opened PublishingService
  import opened PublishProtocol
  import opened ProtocolInvariant
  import opened WorkerSteps
  import opened ProtocolSafety
  import opened StepFacts

  // -------------------------------------------------------------- no stuck row

  /** The time a live row is waiting for. */
  function WakeUp(row: SocialPublishJob): Time {
    match row.status
    case Retrying => Later(row.scheduledAt, row.nextRetryAt.GetOr(0))
    case Claimed => Later(row.scheduledAt, row.leaseExpiresAt.GetOr(0))
    case RemoteRequesting => Later(row.scheduledAt, if row.nextRetryAt.Some? then row.nextRetryAt.value
        else row.leaseExpiresAt.GetOr(0))
    case RemoteConfirmed => Later(row.scheduledAt, row.leaseExpiresAt.GetOr(0))
    case _ => row.scheduledAt
  }

  function Later(a: Time, b: Time): (r: Time)
    ensures r >= a && r >= b && r in {a, b}
  {
    if a < b then b else a
  }

  predicate IsTerminal(status: PublishJobStatus) {
    status in {Published, Failed, Cancelled}
  }

  lemma WakeUpClaims(row: SocialPublishJob, now: Time, later: Time)
    requires RowOk(row, now) && !IsTerminal(row.status) && WakeUp(row) <= later
    ensures row.scheduledAt <= later && StatusClaimable(row, later)
  {
  }

  /**
   * No row gets stuck: a job of a published post can be claimed from some time on, by a
   * delivery of its current queue id and for any lease, exactly unless it is published, failed
   * or cancelled. The claim matches its row and passes every CHECK.
   */
  lemma NoStuckRow(s: State, run: seq<Event>, j: JobId)
    requires Init(s) && IsRun(s, run) && j in Exec(s, run).db.jobs
    ensures var t := Exec(s, run);
            var row := t.db.jobs[j];
            row.postId in t.db.posts && t.db.posts[row.postId].status != DraftPost ==>
              if IsTerminal(row.status) then forall now, q :: !Claimable(t.db, now, j, q)
              else && j in t.db.outbox
                   && forall now, leaseMs | WakeUp(row) <= now ::
                        ClaimPublishJob(t.db, now, j, leaseMs, Some(t.db.outbox[j].queueJobId)).Updated?
  {
    InitHasInv(s);
    RunKeepsInv(s, run);
    var t := Exec(s, run);
    if IsTerminal(t.db.jobs[j].status) { TerminalIsNeverClaimable(t.db, j); }
    else if t.db.jobs[j].postId in t.db.posts && t.db.posts[t.db.jobs[j].postId].status != DraftPost {
      ClaimableFromWakeUp(t, j);
    }
  }

  lemma ClaimPassesChecks(db: Db, now: Time, j: JobId, leaseMs: nat, queueJobId: Option<nat>)
    requires j in db.jobs && JobChecks(db.jobs[j])
    ensures !ClaimPublishJob(db, now, j, leaseMs, queueJobId).Raised?
    ensures Claimable(db, now, j, queueJobId) ==> ClaimPublishJob(db, now, j, leaseMs, queueJobId).Updated?
  {
  }

  lemma TerminalIsNeverClaimable(db: Db, j: JobId)
    requires j in db.jobs && IsTerminal(db.jobs[j].status)
    ensures forall now, q :: !Claimable(db, now, j, q)
  {
  }

  lemma ClaimableFromWakeUp(t: State, j: JobId)
    requires Inv(t) && j in t.db.jobs && !IsTerminal(t.db.jobs[j].status)
    requires t.db.jobs[j].postId in t.db.posts && t.db.posts[t.db.jobs[j].postId].status != DraftPost
    ensures j in t.db.outbox
    ensures forall now, leaseMs | WakeUp(t.db.jobs[j]) <= now ::
              ClaimPublishJob(t.db, now, j, leaseMs, Some(t.db.outbox[j].queueJobId)).Updated?
  {
    assert JobInv(t, j);
    ShapeIsReadable(t.db, t.db.jobs[j].postId);
    ReadableIsClaimable(t, j);
  }

  lemma ReadableIsClaimable(t: State, j: JobId)
    requires j in t.db.jobs && JobInv(t, j) && !IsTerminal(t.db.jobs[j].status) && Readable(t.db, t.db.jobs[j].postId)
    requires t.db.posts[t.db.jobs[j].postId].status != DraftPost
    ensures j in t.db.outbox
    ensures forall now, leaseMs | WakeUp(t.db.jobs[j]) <= now ::
              ClaimPublishJob(t.db, now, j, leaseMs, Some(t.db.outbox[j].queueJobId)).Updated?
  {
    forall now, leaseMs | WakeUp(t.db.jobs[j]) <= now
      ensures ClaimPublishJob(t.db, now, j, leaseMs, Some(t.db.outbox[j].queueJobId)).Updated?
    {
      WakeUpClaims(t.db.jobs[j], t.now, now);
      ClaimPassesChecks(t.db, now, j, leaseMs, Some(t.db.outbox[j].queueJobId));
    }
  }

  // -------------------------------------------------------------- outbox

  /** The outbox holds exactly the live jobs of published posts, under their own time. */
  lemma OutboxAgreement(s: State, run: seq<Event>, j: JobId)
    requires Init(s) && IsRun(s, run)
    ensures var t := Exec(s, run);
            && (j in t.db.outbox <==> j in t.db.jobs && t.db.jobs[j].postId in t.db.posts
                                      && t.db.jobs[j].status != Cancelled
                                      && t.db.posts[t.db.jobs[j].postId].status != DraftPost)
            && (j in t.db.outbox ==> t.db.outbox[j].scheduledAt == t.db.jobs[j].scheduledAt)
  {
    InitHasInv(s);
    RunKeepsInv(s, run);
    if j in Exec(s, run).db.jobs { assert JobInv(Exec(s, run), j); }
  }

  /** Once a queue id is not the current one of job j, no later delivery of it claims the job. */
  lemma SupersededIdNeverClaims(s: State, run: seq<Event>, j: JobId, q: nat, now: Time)
    requires Inv(s) && IsRun(s, run) && q < s.db.nextQueueId
    requires !HoldsQueueId(s.db, j, q)
    ensures !Claimable(Exec(s, run).db, now, j, Some(q))
  {
    RunEvolves(s, run);
    var t := Exec(s, run);
    if j in t.db.outbox { assert OldOrFreshId(s, t, j); }
  }

  /** Nothing is marked as handed over that the queue does not have, and no queue id is shared. */
  lemma NoLostHandOff(s: State, run: seq<Event>, j: JobId, k: JobId)
    requires Init(s) && IsRun(s, run) && j in Exec(s, run).db.outbox
    ensures var t := Exec(s, run);
            && (t.db.outbox[j].enqueuedAt.Some? ==> t.db.outbox[j].queueJobId in t.queue)
            && (k in t.db.outbox && k != j ==> t.db.outbox[j].queueJobId != t.db.outbox[k].queueJobId)
            && (t.db.outbox[j].enqueuedAt.None? ==>
                  forall now | t.db.outbox[j].dispatchLeaseExpiresAt.GetOr(0) <= now :: Dispatchable(t.db, now, j))
  {
    InitHasInv(s);
    RunKeepsInv(s, run);
    HandOffFacts(Exec(s, run), j, k);
  }

  lemma HandOffFacts(t: State, j: JobId, k: JobId)
    requires HandOffInv(t) && j in t.db.outbox
    ensures t.db.outbox[j].enqueuedAt.Some? ==> t.db.outbox[j].queueJobId in t.queue
    ensures k in t.db.outbox && k != j ==> t.db.outbox[j].queueJobId != t.db.outbox[k].queueJobId
    ensures t.db.outbox[j].enqueuedAt.None? ==>
              forall now | t.db.outbox[j].dispatchLeaseExpiresAt.GetOr(0) <= now :: Dispatchable(t.db, now, j)
  {
  }

  // -------------------------------------------------------------- retry budget

  /** However stale the writers, counts stay in budget and alerts satisfy their CHECK. */
  lemma RetryBudget(s: State, run: seq<Event>, j: JobId)
    requires Init(s) && IsRun(s, run) && j in Exec(s, run).db.jobs
    ensures var t := Exec(s, run);
            && t.db.jobs[j].retryCount <= 4
            && (!IsTerminal(t.db.jobs[j].status) ==> t.db.jobs[j].retryCount <= 3)
            && (t.db.jobs[j].status == Failed ==> 1 <= t.db.jobs[j].retryCount && j in t.db.alerts)
            && (j in t.db.alerts ==> 1 <= t.db.alerts[j].retryCount <= 4)
  {
    InitHasInv(s);
    RunKeepsInv(s, run);
    assert JobInv(Exec(s, run), j);
  }

  lemma DeferralHasDelay(s: State, w: WorkerId, job: SocialPublishJob)
    requires w in s.workers && (job.status == Failed ==> 1 <= job.retryCount)
    ensures w in BeginDefer(s, w, job).workers
  {
  }

  lemma MissIsRecorded(s: State, w: WorkerId)
    requires w in s.workers && s.workers[w].job.status != Failed
    ensures w in MissStep(s, w).workers
  {
    var worker := s.workers[w];
    if worker.phase.Rechecking? { DeferralHasDelay(s, w, FailedJob(worker.job, worker.phase.failure)); }
    else if worker.job.platform !in s.idempotent { DeferralHasDelay(s, w, worker.job); }
  }

  lemma RunningIsNotFailed(s: State, w: WorkerId)
    requires Local(s, w) && (s.workers[w].phase.Reconciling? || s.workers[w].phase.Rechecking?)
    ensures s.workers[w].job.status != Failed
  {
  }

  lemma FailureIsRecorded(s: State, w: WorkerId, failure: PublishFailure)
    requires w in s.workers
    ensures w in AfterFailure(s, w, failure).workers
  {
  }

  /** retryDelayForFailure never throws: a worker that hits a failure always gets to record it. */
  lemma FailuresAreAlwaysRecorded(s: State, e: Event)
    requires Inv(s) && Enabled(s, e) && (e.MissPost? || e.FailLocally? || e.ReceiveFailure?)
    ensures e.w in Next(s, e).workers
  {
    if e.MissPost? { LocalFacts(s, e.w); RunningIsNotFailed(s, e.w); MissIsRecorded(s, e.w); }
    else { FailureIsRecorded(s, e.w, ClassifyPublishFailure(e.error)); }
  }

  /**
   * Of the writes that end an attempt the database refuses one in exactly one situation: a
   * deferral that should stay pending reaches a row whose request key a definite failure has
   * cleared meanwhile.
   */
  lemma OnlyStaleDeferralsAreRefused(s: State, w: WorkerId)
    requires Inv(s) && w in s.workers
    ensures var worker := s.workers[w];
            && (worker.phase.Confirming? ==> !ConfirmRemotePublication(s.db, worker.job).Raised?)
            && (worker.phase.Finishing? ==> !SaveSuccess(s.db, worker.job).Raised?)
            && (worker.phase.Failing? ==>
                 !SaveFailure(s.db, s.now, worker.job, worker.phase.retryPending, worker.phase.nextRetryAt).Raised?)
            && (worker.phase.Deferring? ==>
                  (RecordAmbiguousRemoteOutcome(s.db, s.now, worker.job, worker.phase.retryPending,
                      worker.phase.nextRetryAt).Raised? <==>
                     WorkerMayFail(s.db, worker.job.id) && worker.phase.retryPending && !HasKey(s, worker.job.id)))
  {
    LocalFacts(s, w);
    var worker := s.workers[w];
    match worker.phase {
      case Confirming => ConfirmIsAccepted(s, w);
      case Finishing => FinishIsReady(s, w); FinishIsAccepted(s, w);
      case Failing(_, _) => FailureIsAccepted(s, w);
      case Deferring(_, _) => DeferralIsAccepted(s, w);
      case _ =>
    }
  }

  /** The database refuses no claim, of whatever job with whatever lease, and no mark. */
  lemma ClaimAndMarkAreNeverRefused(s: State, j: JobId, w: WorkerId, leaseMs: nat, queueJobId: Option<nat>)
    requires Inv(s)
    ensures !ClaimPublishJob(s.db, s.now, j, leaseMs, queueJobId).Raised?
    ensures IsReadyToMark(s, w) ==>
              !MarkRemoteRequesting(s.db, s.now, s.workers[w].job.id, RequestKeyOf(s.workers[w].job), leaseMs).Raised?
  {
    if j in s.db.jobs {
      assert JobInv(s, j);
      ClaimPassesChecks(s.db, s.now, j, leaseMs, queueJobId);
    }
    if IsReadyToMark(s, w) {
      LocalFacts(s, w);
      MarkIsAccepted(s, w, leaseMs);
    }
  }

  lemma MarkIsAccepted(s: State, w: WorkerId, leaseMs: nat)
    requires Local(s, w)
    ensures !MarkRemoteRequesting(s.db, s.now, s.workers[w].job.id, RequestKeyOf(s.workers[w].job), leaseMs).Raised?
  {
  }

  lemma ConfirmIsAccepted(s: State, w: WorkerId)
    requires Local(s, w) && s.workers[w].phase.Confirming?
    ensures !ConfirmRemotePublication(s.db, s.workers[w].job).Raised?
  {
  }

  lemma FinishIsAccepted(s: State, w: WorkerId)
    requires Local(s, w) && s.workers[w].phase.Finishing?
    requires var job := s.workers[w].job;
             !RemotePostTaken(s.db, job.id, s.db.jobs[job.id].platform, job.remotePostId.value)
    ensures !SaveSuccess(s.db, s.workers[w].job).Raised?
  {
  }

  lemma FailureIsAccepted(s: State, w: WorkerId)
    requires Local(s, w) && s.workers[w].phase.Failing?
    ensures var job, phase := s.workers[w].job, s.workers[w].phase;
            !SaveFailure(s.db, s.now, job, phase.retryPending, phase.nextRetryAt).Raised?
  {
  }

  lemma DeferralIsAccepted(s: State, w: WorkerId)
    requires Local(s, w) && s.workers[w].phase.Deferring?
    ensures var job, phase := s.workers[w].job, s.workers[w].phase;
            RecordAmbiguousRemoteOutcome(s.db, s.now, job, phase.retryPending, phase.nextRetryAt).Raised? <==>
              WorkerMayFail(s.db, job.id) && phase.retryPending && !HasKey(s, job.id)
  {
  }

  // -------------------------------------------------------------- frozen success

  /**
   * Once a row has a remote id it keeps it and can only become published; a published row
   * and its one social_posts row never change, and they name a post the provider holds.
   */
  lemma SuccessIsFinal(s: State, run: seq<Event>, j: JobId)
    requires Inv(s) && IsRun(s, run) && j in s.db.jobs && s.db.jobs[j].remotePostId.Some?
    ensures var t := Exec(s, run);
            && j in t.db.jobs && t.db.jobs[j].remotePostId == s.db.jobs[j].remotePostId
            && IsSuccess(t.db.jobs[j].status)
            && IsPostOf(t, t.db.jobs[j].remotePostId.value, j)
            && (j in t.db.socialPosts <==> t.db.jobs[j].status == Published)
            && (j in t.db.socialPosts ==> Some(t.db.socialPosts[j].remotePostId) == t.db.jobs[j].remotePostId)
            && (s.db.jobs[j].status == Published ==>
                 t.db.jobs[j] == s.db.jobs[j] && t.db.socialPosts[j] == s.db.socialPosts[j])
  {
    RunKeepsInv(s, run);
    RunEvolves(s, run);
    assert JobInv(s, j);
    assert JobInv(Exec(s, run), j);
  }

  /** Two rows of social_posts never name one remote post. */
  lemma RemotePostsAreUnique(s: State, run: seq<Event>, j: JobId, k: JobId)
    requires Init(s) && IsRun(s, run) && j in Exec(s, run).db.socialPosts && k in Exec(s, run).db.socialPosts
    requires Exec(s, run).db.socialPosts[j].remotePostId == Exec(s, run).db.socialPosts[k].remotePostId
    ensures j == k
  {
    InitHasInv(s);
    RunKeepsInv(s, run);
    SocialPostIsItsJobs(Exec(s, run), j);
    SocialPostIsItsJobs(Exec(s, run), k);
  }

  lemma SocialPostIsItsJobs(t: State, j: JobId)
    requires Inv(t) && j in t.db.socialPosts
    ensures IsPostOf(t, t.db.socialPosts[j].remotePostId, j)
  {
    assert JobInv(t, j);
  }

  /** Were there such a row, saving a success would be rolled back. */
  lemma DuplicateIsRefused(db: Db, job: SocialPublishJob, k: JobId)
    requires job.id in db.jobs && db.jobs[job.id].status == RemoteConfirmed && k in db.socialPosts && k != job.id
    requires db.socialPosts[k].platform == db.jobs[job.id].platform
    requires job.remotePostId == Some(db.socialPosts[k].remotePostId)
    ensures SaveSuccess(db, job).Raised?
  {
  }

  /**
   * A failed job has its alert, and publishing never touches it again, through retries and later
   * failures. AlertDelivery adds the statements that deliver it.
   */
  lemma AlertsAreNeverLost(s: State, run: seq<Event>, j: JobId)
    requires Inv(s) && IsRun(s, run) && j in s.db.jobs && (s.db.jobs[j].status == Failed || j in s.db.alerts)
    ensures j in s.db.alerts && j in Exec(s, run).db.alerts && Exec(s, run).db.alerts[j] == s.db.alerts[j]
  {
    RunEvolves(s, run);
    assert JobInv(s, j);
  }

  // -------------------------------------------------------------- isolation and displayed status

  /** A worker statement changes nothing of any other job, and no post. */
  lemma WorkersAreIsolated(s: State, e: Event, k: JobId)
    requires Inv(s) && Enabled(s, e) && (IsRowStatement(e) || IsLocal(e)) && (IsRowStatement(e) ==> k != RowOf(s, e))
    ensures var t := Next(s, e);
            && (k in t.db.jobs <==> k in s.db.jobs) && (k in s.db.jobs ==> t.db.jobs[k] == s.db.jobs[k])
            && (k in t.db.alerts <==> k in s.db.alerts) && (k in s.db.alerts ==> t.db.alerts[k] == s.db.alerts[k])
            && (k in t.db.socialPosts <==> k in s.db.socialPosts)
            && (k in s.db.socialPosts ==> t.db.socialPosts[k] == s.db.socialPosts[k])
            && t.db.outbox == s.db.outbox && t.db.posts == s.db.posts && t.db.media == s.db.media
  {
    if IsRowStatement(e) {
      StatementTouchesOneRow(s, e);
      OtherRowStays(s, Next(s, e), RowOf(s, e), e.w, k);
    } else {
      LocalMovesWorkersOnly(s, e);
    }
  }

  lemma OtherRowStays(s: State, t: State, j: JobId, w: WorkerId, k: JobId)
    requires (t == Without(s, w) || RowStep(s, t, j, w)) && k != j
    ensures (k in t.db.jobs <==> k in s.db.jobs) && (k in s.db.jobs ==> t.db.jobs[k] == s.db.jobs[k])
    ensures (k in t.db.alerts <==> k in s.db.alerts) && (k in s.db.alerts ==> t.db.alerts[k] == s.db.alerts[k])
    ensures k in t.db.socialPosts <==> k in s.db.socialPosts
    ensures k in s.db.socialPosts ==> t.db.socialPosts[k] == s.db.socialPosts[k]
    ensures t.db.outbox == s.db.outbox && t.db.posts == s.db.posts && t.db.media == s.db.media
  {
  }

  ghost predicate Frozen(s: State, p: PostId) {
    Readable(s.db, p) && forall j | j in s.db.jobsOfPost[p] :: s.db.jobs[j].status in {Published, Cancelled}
  }

  lemma DisplayedEndIsFrozen(r: PostRecord)
    requires Present(r).post.status in {CompletedPost, CancelledPost}
    ensures forall job | job in r.jobs :: job.status in {Published, Cancelled}
    ensures |r.jobs| > 0
  {
  }

  lemma FrozenJobsStay(s: State, t: State, p: PostId)
    requires Frozen(s, p) && Readable(t.db, p) && JobsEvolve(s, t) && t.db.jobsOfPost[p] == s.db.jobsOfPost[p]
    ensures ReadJobs(t.db, p) == ReadJobs(s.db, p) && Frozen(t, p)
  {
    forall j | j in s.db.jobsOfPost[p] ensures t.db.jobs[j] == s.db.jobs[j] {
      assert SuccessIsFrozen(s.db.jobs[j], t.db.jobs[j]);
    }
  }

  /** A post whose jobs are all published or cancelled keeps exactly those jobs for ever. */
  lemma FrozenPostStays(s: State, run: seq<Event>, p: PostId)
    requires Inv(s) && IsRun(s, run) && p in s.db.posts && Frozen(s, p)
    ensures Frozen(Exec(s, run), p) && ReadJobs(Exec(s, run).db, p) == ReadJobs(s.db, p)
  {
    RunKeepsInv(s, run);
    RunEvolves(s, run);
    assert p in Exec(s, run).db.jobsOfPost;
    ShapeIsReadable(Exec(s, run).db, p);
    FrozenJobsStay(s, Exec(s, run), p);
  }

  lemma SettledIsNoDraft(t: State, p: PostId)
    requires Inv(t) && p in t.db.posts && Frozen(t, p)
    ensures t.db.posts[p].status != DraftPost
  {
    var j := t.db.jobsOfPost[p][0];
    assert PostInv(t, p) && IndexOk(t.db, p) && JobInv(t, j);
  }

  /** The displayed status `completed` or `cancelled` is final. */
  lemma DisplayedEndIsFinal(s: State, run: seq<Event>, p: PostId)
    requires Inv(s) && IsRun(s, run) && Readable(s.db, p)
    requires Present(ReadRecord(s.db, p)).post.status in {CompletedPost, CancelledPost}
    ensures Readable(Exec(s, run).db, p)
    ensures Present(ReadRecord(Exec(s, run).db, p)).post.status == Present(ReadRecord(s.db, p)).post.status
  {
    DisplayedEndIsFrozen(ReadRecord(s.db, p));
    forall j | j in s.db.jobsOfPost[p] ensures s.db.jobs[j].status in {Published, Cancelled} {
      var i :| 0 <= i < |s.db.jobsOfPost[p]| && s.db.jobsOfPost[p][i] == j;
      assert ReadJobs(s.db, p)[i] in ReadJobs(s.db, p);
    }
    FrozenPostStays(s, run, p);
    RunKeepsInv(s, run);
    SettledIsNoDraft(Exec(s, run), p);
  }
}
