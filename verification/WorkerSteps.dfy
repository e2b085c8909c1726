/** Every worker, provider and clock step keeps the protocol invariant. */
module WorkerSteps {
  import opened Wrappers
  import opened PostEntity
  import opened RetryPolicy
  import opened Schema
  import opened PostRepository
  import opened PublishOutboxRepository
  import opened PublishingService
  import opened PublishProtocol
  import opened ProtocolInvariant

  // -------------------------------------------------------------- statements on the claimed row

  /** What a statement has to show about the one row and the one worker it touches. */
  ghost predicate RowStep(s: State, t: State, j: JobId, w: WorkerId) {
    && OnlyRow(s, t, j) && t.db.jobs[j].postId in t.db.posts && JobInv(t, j)
    && SuccessIsFrozen(s.db.jobs[j], t.db.jobs[j])
    && (w in t.workers ==> WorkerInv(t, w))
    && (j in s.db.alerts ==> j in t.db.alerts && t.db.alerts[j] == s.db.alerts[j])
    && (j in s.db.socialPosts ==> j in t.db.socialPosts && t.db.socialPosts[j] == s.db.socialPosts[j])
    && forall v | v in t.workers && v != w :: v in s.workers && t.workers[v] == s.workers[v]
  }

  lemma RowStepKeepsInv(s: State, t: State, j: JobId, w: WorkerId)
    requires Inv(s) && RowStep(s, t, j, w)
    ensures Inv(t)
  {
    RowOnly(s, t, j);
  }

  /** Facts of the invariant about one worker and its row. */
  ghost predicate Local(s: State, w: WorkerId) {
    && w in s.workers && WorkerInv(s, w) && JobInv(s, s.workers[w].job.id)
  }

  lemma LocalFacts(s: State, w: WorkerId)
    requires Inv(s) && w in s.workers
    ensures Local(s, w)
  {
    assert WorkerInv(s, w);
    assert JobInv(s, s.workers[w].job.id);
  }

  lemma WithoutKeepsInv(s: State, w: WorkerId)
    requires Inv(s)
    ensures Inv(Without(s, w))
  {
    WorkersOnly(s, Without(s, w));
  }

  lemma ClaimedRowIsOk(row: SocialPublishJob, now: Time, leaseMs: nat)
    requires RowOk(row, now) && row.scheduledAt <= now && StatusClaimable(row, now)
    ensures var claimed := ClaimedRow(row, now, leaseMs);
            && RowOk(claimed, now) && SuccessIsFrozen(row, claimed) && SameTarget(row, claimed)
            && (claimed.status == RemoteConfirmed <==> row.status == RemoteConfirmed)
            && claimed.status in {Claimed, RemoteConfirmed}
  {
  }

  lemma ClaimedRowInTables(s: State, j: JobId, leaseMs: nat)
    requires j in s.db.jobs && JobInv(s, j) && s.db.jobs[j].scheduledAt <= s.now && StatusClaimable(s.db.jobs[j], s.now)
    requires s.db.posts[s.db.jobs[j].postId].status != DraftPost
    ensures var t := s.(db := s.db.(jobs := s.db.jobs[j := ClaimedRow(s.db.jobs[j], s.now, leaseMs)]));
            OnlyRow(s, t, j) && JobInv(t, j) && SuccessIsFrozen(s.db.jobs[j], t.db.jobs[j])
            && t.db.jobs[j].postId in s.approvals
  {
    ClaimedRowIsOk(s.db.jobs[j], s.now, leaseMs);
  }

  lemma FirstPhaseIsOk(s: State, row: SocialPublishJob, post: Post, leaseEnd: Time)
    requires row.id in s.db.jobs && s.db.jobs[row.id] == row && RowOk(row, s.now)
    requires row.status in {Claimed, RemoteConfirmed}
    ensures PhaseOk(s, NewWorker(row, post, leaseEnd))
  {
  }

  lemma ClaimedState(s: State, w: WorkerId, j: JobId, leaseMs: nat, queueJobId: Option<nat>) returns (t: State)
    requires Claimable(s.db, s.now, j, queueJobId) && w !in s.workers && RowOk(s.db.jobs[j], s.now)
    ensures ClaimPublishJob(s.db, s.now, j, leaseMs, queueJobId).Updated?
    ensures t == ClaimStep(s, w, j, leaseMs, queueJobId) && w in t.workers
    ensures t == s.(db := s.db.(jobs := s.db.jobs[j := ClaimedRow(s.db.jobs[j], s.now, leaseMs)]), workers := t.workers)
    ensures var row := ClaimedRow(s.db.jobs[j], s.now, leaseMs);
            t.workers == s.workers[w := NewWorker(row, ReadPost(s.db, row.postId), s.now + leaseMs)]
  {
    ClaimedRowIsOk(s.db.jobs[j], s.now, leaseMs);
    t := ClaimStep(s, w, j, leaseMs, queueJobId);
    assert ReadPost(t.db, s.db.jobs[j].postId) == ReadPost(s.db, s.db.jobs[j].postId);
  }

  lemma ClaimRowStep(s: State, w: WorkerId, j: JobId, leaseMs: nat, queueJobId: Option<nat>)
    requires Shape(s.db) && j in s.db.jobs && JobInv(s, j) && PostInv(s, s.db.jobs[j].postId)
    requires w !in s.workers && Claimable(s.db, s.now, j, queueJobId)
    ensures RowStep(s, ClaimStep(s, w, j, leaseMs, queueJobId), j, w)
  {
    var t := ClaimedState(s, w, j, leaseMs, queueJobId);
    ClaimedRowIsOk(s.db.jobs[j], s.now, leaseMs);
    ClaimedRowInTables(s, j, leaseMs);
    FirstPhaseIsOk(t, t.db.jobs[j], t.workers[w].post, t.workers[w].leaseEnd);
    ClaimedStateStep(s, t, w, j, leaseMs);
  }

  lemma ClaimedStateStep(s: State, t: State, w: WorkerId, j: JobId, leaseMs: nat)
    requires w !in s.workers && w in t.workers && j in s.db.jobs
    requires var u := s.(db := s.db.(jobs := s.db.jobs[j := ClaimedRow(s.db.jobs[j], s.now, leaseMs)]));
             OnlyRow(s, u, j) && JobInv(u, j) && SuccessIsFrozen(s.db.jobs[j], u.db.jobs[j])
                 && t == u.(workers := s.workers[w := t.workers[w]])
    requires WorkerInv(t, w)
    ensures RowStep(s, t, j, w)
  {
  }

  lemma ClaimKeepsInv(s: State, w: WorkerId, j: JobId, leaseMs: nat, queueJobId: Option<nat>)
    requires Inv(s) && w !in s.workers && ClaimPublishJob(s.db, s.now, j, leaseMs, queueJobId).Updated?
    ensures Inv(ClaimStep(s, w, j, leaseMs, queueJobId))
  {
    assert JobInv(s, j);
    assert PostInv(s, s.db.jobs[j].postId);
    ClaimRowStep(s, w, j, leaseMs, queueJobId);
    RowStepKeepsInv(s, ClaimStep(s, w, j, leaseMs, queueJobId), j, w);
  }

  lemma MarkRowStep(s: State, w: WorkerId, leaseMs: nat)
    requires Local(s, w) && (s.workers[w].phase.ReadyToMark? || s.workers[w].phase.Remarking?)
    ensures var t, j := MarkStep(s, w, leaseMs), s.workers[w].job.id;
            t == Without(s, w) || RowStep(s, t, j, w)
  {
  }

  lemma MarkKeepsInv(s: State, w: WorkerId, leaseMs: nat)
    requires Inv(s) && w in s.workers && (s.workers[w].phase.ReadyToMark? || s.workers[w].phase.Remarking?)
    ensures Inv(MarkStep(s, w, leaseMs))
  {
    LocalFacts(s, w);
    MarkRowStep(s, w, leaseMs);
    OneStepKeepsInv(s, MarkStep(s, w, leaseMs), s.workers[w].job.id, w);
  }

  lemma ConfirmRowStep(s: State, w: WorkerId)
    requires Local(s, w) && s.workers[w].phase.Confirming?
    ensures var t, j := ConfirmStep(s, w), s.workers[w].job.id;
            t == Without(s, w) || RowStep(s, t, j, w)
  {
  }

  lemma ConfirmKeepsInv(s: State, w: WorkerId)
    requires Inv(s) && w in s.workers && s.workers[w].phase.Confirming?
    ensures Inv(ConfirmStep(s, w))
  {
    LocalFacts(s, w);
    ConfirmRowStep(s, w);
    OneStepKeepsInv(s, ConfirmStep(s, w), s.workers[w].job.id, w);
  }

  /** Two jobs never share a remote post, so the unique index of social_posts is never hit. */
  lemma RemotePostIsFree(s: State, j: JobId, platform: SocialPlatform, r: RemoteId)
    requires Inv(s) && IsPostOf(s, r, j)
    ensures !RemotePostTaken(s.db, j, platform, r)
  {
    forall k | k in s.db.socialPosts && k != j ensures s.db.socialPosts[k].remotePostId != r {
      assert k in s.db.jobs && JobInv(s, k);
    }
  }

  lemma FinishRowStep(s: State, w: WorkerId)
    requires Local(s, w) && s.workers[w].phase.Finishing?
    requires !RemotePostTaken(s.db, s.workers[w].job.id, s.db.jobs[s.workers[w].job.id].platform,
             s.workers[w].job.remotePostId.value)
    ensures var t, j := FinishStep(s, w), s.workers[w].job.id;
            t == Without(s, w) || RowStep(s, t, j, w)
  {
  }

  lemma FinishingFacts(s: State, w: WorkerId)
    requires Local(s, w) && s.workers[w].phase.Finishing?
    ensures var job := s.workers[w].job;
            job.id in s.db.jobs && job.remotePostId.Some? && IsPostOf(s, job.remotePostId.value, job.id)
  {
  }

  /** The unique index does not stand in the way of publishing this job. */
  predicate MayFinish(db: Db, job: SocialPublishJob) {
    job.id in db.jobs && job.remotePostId.Some?
        && !RemotePostTaken(db, job.id, db.jobs[job.id].platform, job.remotePostId.value)
  }

  lemma FinishIsReady(s: State, w: WorkerId)
    requires Inv(s) && w in s.workers && s.workers[w].phase.Finishing?
    ensures Local(s, w) && MayFinish(s.db, s.workers[w].job)
  {
    var job := s.workers[w].job;
    LocalFacts(s, w);
    FinishingFacts(s, w);
    RemotePostIsFree(s, job.id, s.db.jobs[job.id].platform, job.remotePostId.value);
  }

  lemma FinishKeepsInv(s: State, w: WorkerId)
    requires Inv(s) && w in s.workers && s.workers[w].phase.Finishing?
    ensures Inv(FinishStep(s, w))
  {
    FinishIsReady(s, w);
    FinishRowStep(s, w);
    OneStepKeepsInv(s, FinishStep(s, w), s.workers[w].job.id, w);
  }

  lemma OneStepKeepsInv(s: State, t: State, j: JobId, w: WorkerId)
    requires Inv(s) && (t == Without(s, w) || RowStep(s, t, j, w))
    ensures Inv(t)
  {
    if t == Without(s, w) { WithoutKeepsInv(s, w); } else { RowStepKeepsInv(s, t, j, w); }
  }

  /** A failure recorded over the row keeps it in order; a pending one on a row without a key raises. */
  lemma FailedRowIsOk(row: SocialPublishJob, failed: SocialPublishJob, now: Time)
    requires RowOk(row, now) && row.status in {Claimed, RemoteRequesting}
    requires failed == row.(status := failed.status, errorCode := failed.errorCode, errorMessage := failed.errorMessage,
                            retryCount := failed.retryCount, nextRetryAt := failed.nextRetryAt, leaseExpiresAt := None,
                            remoteRequestKey := failed.remoteRequestKey,
                            remoteRequestStartedAt := failed.remoteRequestStartedAt)
    requires failed.status in {Failed, Retrying, RemoteRequesting} && JobChecks(failed)
    requires failed.remoteRequestKey.None? || failed.remoteRequestKey == row.remoteRequestKey
    requires failed.status == Retrying ==> failed.remoteRequestKey.None?
    requires 1 <= failed.retryCount <= 4
    requires failed.status != Failed ==> failed.retryCount <= 3 && failed.nextRetryAt.Some?
    ensures RowOk(failed, now) && SuccessIsFrozen(row, failed) && SameTarget(row, failed)
  {
  }

  /** Alerts of other jobs stay, and so does an earlier alert of this one; a final failure has its alert. */
  ghost predicate AlertsFollow(db: Db, after: Db, j: JobId, failed: SocialPublishJob) {
    && (forall k | k != j ::
         (k in after.alerts <==> k in db.alerts) && (k in db.alerts ==> after.alerts[k] == db.alerts[k]))
    && (j in db.alerts ==> j in after.alerts && after.alerts[j] == db.alerts[j])
    && (j in after.alerts && j !in db.alerts ==> 1 <= after.alerts[j].retryCount <= 4)
    && (failed.status == Failed ==> j in after.alerts)
  }

  lemma FailedTables(db: Db, now: Time, j: JobId, failed: SocialPublishJob)
    requires j in db.jobs && failed.id == j && failed.status in {Failed, Retrying, RemoteRequesting}
    requires failed.retryCount <= 4
    ensures var outcome := FailRow(db, now, j, failed);
            outcome.Updated? ==>
              && outcome.db == db.(jobs := db.jobs[j := failed], alerts := outcome.db.alerts)
              && AlertsFollow(db, outcome.db, j, failed)
  {
  }

  lemma FailedRowKeepsInv(s: State, t: State, j: JobId, failed: SocialPublishJob)
    requires j in s.db.jobs && JobInv(s, j) && s.db.jobs[j].status in {Claimed, RemoteRequesting}
    requires RowOk(failed, s.now) && SameTarget(s.db.jobs[j], failed)
    requires failed.status in {Failed, Retrying, RemoteRequesting}
    requires t.db == s.db.(jobs := s.db.jobs[j := failed], alerts := t.db.alerts) && AlertsFollow(s.db, t.db, j, failed)
    requires t == s.(db := t.db, workers := t.workers)
    ensures OnlyRow(s, t, j) && JobInv(t, j)
  {
  }

  lemma FailRowStores(s: State, t: State, j: JobId, w: WorkerId, failed: SocialPublishJob)
    requires j in s.db.jobs && JobInv(s, j) && s.db.jobs[j].status in {Claimed, RemoteRequesting}
    requires RowOk(failed, s.now) && SameTarget(s.db.jobs[j], failed)
    requires failed.status in {Failed, Retrying, RemoteRequesting}
    requires failed.status == Failed ==> failed.retryCount <= 4
    requires t == Without(s.(db := After(FailRow(s.db, s.now, j, failed), s.db)), w)
    ensures t == Without(s, w) || (OnlyRow(s, t, j) && JobInv(t, j) && t.db.jobs[j] == failed)
    ensures j in s.db.alerts ==> j in t.db.alerts && t.db.alerts[j] == s.db.alerts[j]
  {
    FailedTables(s.db, s.now, j, failed);
    if FailRow(s.db, s.now, j, failed).Updated? { FailedRowKeepsInv(s, t, j, failed); }
  }

  lemma DeferRowStep(s: State, w: WorkerId)
    requires Local(s, w) && s.workers[w].phase.Deferring?
    ensures var t, j := DeferStep(s, w), s.workers[w].job.id;
            t == Without(s, w) || RowStep(s, t, j, w)
  {
    var worker, t := s.workers[w], DeferStep(s, w);
    var j := worker.job.id;
    if WorkerMayFail(s.db, j) {
      var failed := s.db.jobs[j].(
        status := if worker.phase.retryPending then RemoteRequesting else Failed,
        errorCode := Some(AmbiguousRemoteOutcome), errorMessage := Some(worker.job.errorMessage.GetOr(Unconfirmed)),
        retryCount := worker.job.retryCount, nextRetryAt := worker.phase.nextRetryAt, leaseExpiresAt := None);
      if JobChecks(failed) {
        FailedRowIsOk(s.db.jobs[j], failed, s.now);
        FailRowStores(s, t, j, w, failed);
      }
    }
  }

  lemma DeferKeepsInv(s: State, w: WorkerId)
    requires Inv(s) && w in s.workers && s.workers[w].phase.Deferring?
    ensures Inv(DeferStep(s, w))
  {
    LocalFacts(s, w);
    DeferRowStep(s, w);
    OneStepKeepsInv(s, DeferStep(s, w), s.workers[w].job.id, w);
  }

  lemma FailRowStep(s: State, w: WorkerId)
    requires Local(s, w) && s.workers[w].phase.Failing?
    ensures var t, j := FailStep(s, w), s.workers[w].job.id;
            t == Without(s, w) || RowStep(s, t, j, w)
  {
    var worker, t := s.workers[w], FailStep(s, w);
    var j := worker.job.id;
    if WorkerMayFail(s.db, j) {
      var failed := s.db.jobs[j].(
        status := if worker.phase.retryPending then Retrying else Failed,
        errorCode := Some(worker.job.errorCode.GetOr(UnknownError)),
        errorMessage := Some(worker.job.errorMessage.GetOr(PublishingFailed)),
        retryCount := worker.job.retryCount, nextRetryAt := worker.phase.nextRetryAt, leaseExpiresAt := None,
        remoteRequestKey := None, remoteRequestStartedAt := None);
      FailedRowIsOk(s.db.jobs[j], failed, s.now);
      FailRowStores(s, t, j, w, failed);
    }
  }

  lemma FailKeepsInv(s: State, w: WorkerId)
    requires Inv(s) && w in s.workers && s.workers[w].phase.Failing?
    ensures Inv(FailStep(s, w))
  {
    LocalFacts(s, w);
    FailRowStep(s, w);
    OneStepKeepsInv(s, FailStep(s, w), s.workers[w].job.id, w);
  }

  // -------------------------------------------------------------- steps inside the worker

  /** Only worker w moved, and it is as it should be. */
  ghost predicate WorkerStep(s: State, t: State, w: WorkerId) {
    && OnlyWorkers(s, t) && (w in t.workers ==> WorkerInv(t, w))
    && forall v | v in t.workers && v != w :: v in s.workers && t.workers[v] == s.workers[v]
  }

  lemma WorkerStepKeepsInv(s: State, t: State, w: WorkerId)
    requires Inv(s) && WorkerStep(s, t, w)
    ensures Inv(t)
  {
    WorkersOnly(s, t);
  }

  lemma DeferralIsLocal(s: State, w: WorkerId, job: SocialPublishJob)
    requires Local(s, w) && SameTarget(job, s.workers[w].job)
    requires job.retryCount <= (if job.status == Failed then 4 else 3) && (job.status == Failed ==> 1 <= job.retryCount)
    ensures WorkerStep(s, BeginDefer(s, w, job), w)
  {
    var deferred := DeferredJob(job);
    assert 1 <= deferred.retryCount <= 4;
    var t := BeginDefer(s, w, job);
    assert w in t.workers && t.workers[w].job == deferred;
    assert PhaseOk(t, t.workers[w]);
  }

  lemma MissIsLocal(s: State, w: WorkerId)
    requires Local(s, w) && (s.workers[w].phase.Reconciling? || s.workers[w].phase.Rechecking?)
    ensures WorkerStep(s, MissStep(s, w), w)
  {
    var worker := s.workers[w];
    if worker.phase.Rechecking? {
      DeferralIsLocal(s, w, FailedJob(worker.job, worker.phase.failure));
    } else if worker.job.platform !in s.idempotent {
      DeferralIsLocal(s, w, worker.job);
    } else {
      assert PhaseOk(MissStep(s, w), MissStep(s, w).workers[w]);
    }
  }

  lemma FailureIsLocal(s: State, w: WorkerId, error: ThrownError)
    requires Local(s, w) && (s.workers[w].phase.Marked? || s.workers[w].phase.AwaitingProvider?)
    ensures WorkerStep(s, AfterFailure(s, w, ClassifyPublishFailure(error)), w)
  {
  }

  lemma ConfirmationIsLocal(s: State, w: WorkerId, result: PublishResult)
    requires Local(s, w) && IsPostOf(s, result.remotePostId, s.workers[w].job.id)
    ensures WorkerStep(s, BeginConfirm(s, w, s.workers[w].job, result), w)
  {
  }

  lemma RemarkIsLocal(s: State, w: WorkerId, result: PublishResult)
    requires Local(s, w) && s.workers[w].phase.Reconciling? && IsPostOf(s, result.remotePostId, s.workers[w].job.id)
    ensures WorkerStep(s, s.(workers := s.workers[w := s.workers[w].(phase := Remarking(result))]), w)
  {
  }

  lemma FindKeepsInv(s: State, w: WorkerId, result: PublishResult)
    requires Inv(s) && IsLooking(s, w) && IsPostOf(s, result.remotePostId, s.workers[w].job.id)
    ensures Inv(FindStep(s, w, result))
  {
    LocalFacts(s, w);
    if s.workers[w].phase.Reconciling? { RemarkIsLocal(s, w, result); } else { ConfirmationIsLocal(s, w, result); }
    WorkerStepKeepsInv(s, FindStep(s, w, result), w);
  }

  lemma MissKeepsInv(s: State, w: WorkerId)
    requires Inv(s) && w in s.workers && (s.workers[w].phase.Reconciling? || s.workers[w].phase.Rechecking?)
    ensures Inv(MissStep(s, w))
  {
    LocalFacts(s, w);
    MissIsLocal(s, w);
    WorkerStepKeepsInv(s, MissStep(s, w), w);
  }

  lemma FailureKeepsInv(s: State, w: WorkerId, error: ThrownError)
    requires Inv(s) && w in s.workers && (s.workers[w].phase.Marked? || s.workers[w].phase.AwaitingProvider?)
    ensures Inv(AfterFailure(s, w, ClassifyPublishFailure(error)))
  {
    LocalFacts(s, w);
    FailureIsLocal(s, w, error);
    WorkerStepKeepsInv(s, AfterFailure(s, w, ClassifyPublishFailure(error)), w);
  }

  lemma SuccessKeepsInv(s: State, w: WorkerId, url: Option<string>, publishedAt: Time)
    requires Inv(s) && IsAwaiting(s, w) && AnswerTo(s, w).Accepted?
    ensures Inv(ReceiveStep(s, w, url, publishedAt))
  {
    LocalFacts(s, w);
    var call := s.workers[w].phase.call;
    AcceptedCallIsPost(s, w, call);
    var result := PublishResult(s.calls[call].state.remotePost, url, publishedAt);
    ConfirmationIsLocal(s, w, result);
    WorkerStepKeepsInv(s, ReceiveStep(s, w, url, publishedAt), w);
  }

  lemma AcceptedCallIsPost(s: State, w: WorkerId, call: CallId)
    requires Local(s, w) && CallsInv(s) && s.workers[w].phase == AwaitingProvider(call) && call in s.calls
    requires s.calls[call].state.Accepted?
    ensures IsPostOf(s, s.calls[call].state.remotePost, s.workers[w].job.id)
  {
    assert CallInv(s, call);
  }

  // -------------------------------------------------------------- provider and clock

  /** The same tables; the provider knows at least what it knew. */
  ghost predicate OnlyCalls(s: State, t: State) {
    && t.db == s.db && t.now == s.now && t.approvals == s.approvals
    && t.dispatchers == s.dispatchers && t.queue == s.queue && t.idempotent == s.idempotent
    && forall c | c in s.calls :: c in t.calls && t.calls[c].jobId == s.calls[c].jobId
                                  && (s.calls[c].state == Accepted(c) ==> t.calls[c].state == Accepted(c))
  }

  lemma CallsOnlyJobs(s: State, t: State)
    requires JobsInv(s) && OnlyCalls(s, t)
    ensures JobsInv(t)
  {
    forall j | j in t.db.jobs ensures JobInv(t, j) { assert JobInv(s, j); }
  }

  lemma CallsOnlyWorkers(s: State, t: State)
    requires WorkersInv(s) && OnlyCalls(s, t) && SameOrOk(s, t)
    ensures WorkersInv(t)
  {
    forall w | w in t.workers ensures WorkerInv(t, w) {
      if w in s.workers && t.workers[w] == s.workers[w] { assert WorkerInv(s, w); }
    }
  }

  lemma CallsOnly(s: State, t: State)
    requires Inv(s) && OnlyCalls(s, t) && SameOrOk(s, t)
    requires CallsInv(t) && ProviderInv(t)
    ensures Inv(t)
  {
    CallsOnlyJobs(s, t);
    CallsOnlyWorkers(s, t);
    assert PostsInv(t) by { forall p | p in t.db.posts ensures PostInv(t, p) { assert PostInv(s, p); } }
  }

  lemma SendIsLocal(s: State, w: WorkerId, call: CallId)
    requires Local(s, w) && s.workers[w].phase.Marked? && call !in s.calls
    ensures var t := SendStep(s, w, call);
            OnlyCalls(s, t) && WorkerInv(t, w) && CallInv(t, call)
  {
  }

  lemma SendKeepsCalls(s: State, w: WorkerId, call: CallId)
    requires CallsInv(s) && Local(s, w) && s.workers[w].phase.Marked? && call !in s.calls
    ensures CallsInv(SendStep(s, w, call))
  {
    var t := SendStep(s, w, call);
    SendIsLocal(s, w, call);
    forall c | c in t.calls ensures CallInv(t, c) { if c != call { assert CallInv(s, c); } }
  }

  lemma SendKeepsInv(s: State, w: WorkerId, call: CallId)
    requires Inv(s) && w in s.workers && s.workers[w].phase.Marked? && call !in s.calls
    ensures Inv(SendStep(s, w, call))
  {
    var t := SendStep(s, w, call);
    LocalFacts(s, w);
    SendMoves(s, w, call);
    SendKeepsCalls(s, w, call);
    SendKeepsProvider(s, w, call);
    CallsOnly(s, t);
  }

  lemma SendMoves(s: State, w: WorkerId, call: CallId)
    requires Local(s, w) && s.workers[w].phase.Marked? && call !in s.calls
    ensures OnlyCalls(s, SendStep(s, w, call)) && SameOrOk(s, SendStep(s, w, call))
  {
    SendIsLocal(s, w, call);
  }

  lemma SendKeepsProvider(s: State, w: WorkerId, call: CallId)
    requires ProviderInv(s) && w in s.workers && call !in s.calls
    ensures ProviderInv(SendStep(s, w, call))
  {
  }

  lemma AnsweredCalls(s: State, t: State, c: CallId, state: CallState)
    requires CallsInv(s) && c in s.calls && s.calls[c].state == InFlight && t == SetCall(s, c, state)
    requires state.Accepted? ==> state.remotePost == c || IsPostOf(s, state.remotePost, s.calls[c].jobId)
    ensures CallsInv(t) && OnlyCalls(s, t)
  {
    assert CallInv(s, c);
    forall d | d in t.calls ensures CallInv(t, d) { assert CallInv(s, d); }
  }

  lemma KnownKeyNamesTheJob(s: State, c: CallId, r: RemoteId)
    requires CallsInv(s) && c in s.calls && Deduplicates(s, c, r)
    ensures IsPostOf(s, r, s.calls[c].jobId)
  {
    assert CallInv(s, c) && CallInv(s, r);
  }

  lemma AnswerKeepsCalls(s: State, e: Event)
    requires CallsInv(s) && (e.Accept? || e.Refuse?) && Enabled(s, e)
    ensures CallsInv(Next(s, e)) && OnlyCalls(s, Next(s, e))
  {
    match e {
      case Accept(call, r) =>
        if r != call { KnownKeyNamesTheJob(s, call, r); }
        AnsweredCalls(s, SetCall(s, call, Accepted(r)), call, Accepted(r));
      case Refuse(call) =>
        AnsweredCalls(s, SetCall(s, call, Refused), call, Refused);
    }
  }

  /** A key the provider already knows is answered with the post it has. */
  lemma AnswerKeepsOnePostPerKey(s: State, e: Event)
    requires ProviderInv(s) && (e.Accept? || e.Refuse?) && Enabled(s, e)
    ensures ProviderInv(Next(s, e))
  {
    var t := Next(s, e);
    forall c, d | c in t.calls && d in t.calls && t.calls[c].state == Accepted(c) && t.calls[d].state == Accepted(d)
                  && t.calls[c].platform in t.idempotent && t.calls[d].platform == t.calls[c].platform
                  && t.calls[c].key == t.calls[d].key
      ensures c == d
    {
      if e.Accept? {
        var isKnown, wasKnown := Deduplicates(s, e.call, d), Deduplicates(s, e.call, c);
      }
    }
  }

  lemma ProviderKeepsInv(s: State, e: Event)
    requires Inv(s) && (e.Accept? || e.Refuse?) && Enabled(s, e)
    ensures Inv(Next(s, e))
  {
    AnswerKeepsCalls(s, e);
    AnswerKeepsOnePostPerKey(s, e);
    CallsOnly(s, Next(s, e));
  }

  lemma TickKeepsInv(s: State, to: Time)
    requires Inv(s) && s.now <= to
    ensures Inv(s.(now := to))
  {
    var t := s.(now := to);
    assert JobsInv(t) by { forall j | j in t.db.jobs ensures JobInv(t, j) { assert JobInv(s, j); } }
    assert PostsInv(t) by { forall p | p in t.db.posts ensures PostInv(t, p) { assert PostInv(s, p); } }
    assert WorkersInv(t) by { forall w | w in t.workers ensures WorkerInv(t, w) { assert WorkerInv(s, w); } }
    assert CallsInv(t) by { forall c | c in t.calls ensures CallInv(t, c) { assert CallInv(s, c); } }
  }
}
