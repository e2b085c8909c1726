/**
 * Termination of the worker program: a call of `process` that nobody disturbs on its own job
 * ends in published or failed, or raises the retry count by one; so four calls suffice.
 */
module WorkerProgress {
  import opened Wrappers
  import opened PostEntity
  import opened RetryPolicy
  import opened Schema
  import opened PublishOutboxRepository
  import opened PublishingService
  import opened PublishProtocol
  import opened ProtocolInvariant
  import opened WorkerSteps
  import opened EditorialSteps
  import opened CreateAndDispatch
  import opened ProtocolSafety
  import opened PublishGuarantees

  // -------------------------------------------------------------- events of one worker

  predicate IsOwn(e: Event, w: WorkerId) {
    || (e.FindPost? && e.w == w) || (e.MissPost? && e.w == w) || (e.Mark? && e.w == w) || (e.Send? && e.w == w)
    || (e.FailLocally? && e.w == w) || (e.ReceiveSuccess? && e.w == w) || (e.ReceiveFailure? && e.w == w)
    || (e.Confirm? && e.w == w) || (e.Finish? && e.w == w) || (e.Defer? && e.w == w) || (e.Fail? && e.w == w)
  }

  /** Nothing but worker w's own program touches job j, and w does not crash; all else may happen. */
  ghost predicate Undisturbed(s: State, e: Event, w: WorkerId, j: JobId) {
    && (IsRowStatement(e) && !IsOwn(e, w) ==> RowOf(s, e) != j && !(e.Claim? && e.w == w))
    && (e.Edit? ==> j in s.db.jobs && s.db.jobs[j].postId != e.postId)
    && (e.Crash? ==> e.w != w)
  }

  /** Steps the program of `process` still has in front of it, at most. */
  function Rank(phase: Phase): nat {
    match phase
    case Reconciling => 7
    case ReadyToMark => 6
    case Marked => 5
    case AwaitingProvider(_) => 4
    case Rechecking(_) => 3
    case Remarking(_) => 3
    case Confirming => 2
    case Finishing => 1
    case Deferring(_, _) => 1
    case Failing(_, _) => 1
  }

  function StepsLeft(s: State, w: WorkerId): nat {
    if w in s.workers then Rank(s.workers[w].phase) else 0
  }

  // -------------------------------------------------------------- the row follows the worker

  ghost predicate InStep(row: SocialPublishJob, worker: Worker, failures: nat) {
    match worker.phase
    case Reconciling => row == worker.job && row.status == Claimed && row.retryCount == failures
    case ReadyToMark => row == worker.job && row.status == Claimed && row.retryCount == failures
    case Remarking(_) => row == worker.job && row.status == Claimed && row.retryCount == failures
    case Marked => row == worker.job && row.status == RemoteRequesting && row.retryCount == failures
    case AwaitingProvider(_) => row == worker.job && row.status == RemoteRequesting && row.retryCount == failures
    case Rechecking(_) => row == worker.job && row.status == RemoteRequesting && row.retryCount == failures
    case Confirming => row.status == RemoteRequesting && worker.job.remotePostId.Some? && worker.job.publishedAt.Some?
        && row.remoteRequestKey.Some?
    case Finishing => row.status == RemoteConfirmed && row.remoteRequestKey.Some?
    case Deferring(_, _) => row.status in {Claimed, RemoteRequesting} && row.remoteRequestKey.Some?
        && worker.job.retryCount == failures + 1
    case Failing(_, _) => row.status == RemoteRequesting && worker.job.retryCount == failures + 1
  }

  /** What one call may leave: the end, or one failure more and a time to be claimed again. */
  predicate Progressed(row: SocialPublishJob, failures: nat) {
    row.status in {Published, Failed}
    || (row.retryCount == failures + 1 && row.status in {Retrying, RemoteRequesting} && row.nextRetryAt.Some?
        && row.leaseExpiresAt.None?)
  }

  ghost predicate OnTrack(s: State, w: WorkerId, j: JobId, failures: nat) {
    && j in s.db.jobs
    && if w in s.workers then s.workers[w].job.id == j && InStep(s.db.jobs[j], s.workers[w], failures)
       else Progressed(s.db.jobs[j], failures)
  }

  // -------------------------------------------------------------- own steps

  lemma ClaimStartsOnTrack(s: State, w: WorkerId, j: JobId, leaseMs: nat, queueJobId: Option<nat>)
    requires j in s.db.jobs && JobInv(s, j) && Claimable(s.db, s.now, j, queueJobId) && w !in s.workers
    ensures OnTrack(ClaimStep(s, w, j, leaseMs, queueJobId), w, j, s.db.jobs[j].retryCount)
    ensures w in ClaimStep(s, w, j, leaseMs, queueJobId).workers
  {
    var t := ClaimedState(s, w, j, leaseMs, queueJobId);
  }

  lemma MarkOutcome(db: Db, now: Time, row: SocialPublishJob, leaseMs: nat)
    requires row.id in db.jobs && db.jobs[row.id] == row && JobChecks(row) && row.status == Claimed
    ensures var key := row.remoteRequestKey.GetOr(KeyOf(row.id));
            var outcome := MarkRemoteRequesting(db, now, row.id, key, leaseMs);
            && outcome.Updated? && row.id in outcome.db.jobs && outcome.db.jobs[row.id] == outcome.row
            && outcome.row.id == row.id && outcome.row.status == RemoteRequesting
            && outcome.row.retryCount == row.retryCount && outcome.row.remoteRequestKey.Some?
            && outcome.row.platform == row.platform
  {
  }

  lemma MarkStaysOnTrack(s: State, w: WorkerId, j: JobId, failures: nat, leaseMs: nat)
    requires Local(s, w) && OnTrack(s, w, j, failures)
    requires s.workers[w].phase.ReadyToMark? || s.workers[w].phase.Remarking?
    ensures OnTrack(MarkStep(s, w, leaseMs), w, j, failures)
    ensures StepsLeft(MarkStep(s, w, leaseMs), w) < StepsLeft(s, w)
  {
    MarkOutcome(s.db, s.now, s.db.jobs[j], leaseMs);
  }

  lemma ConfirmOutcome(db: Db, job: SocialPublishJob)
    requires job.id in db.jobs && db.jobs[job.id].status == RemoteRequesting && job.remotePostId.Some?
    requires job.publishedAt.Some?
    requires JobChecks(db.jobs[job.id]) && db.jobs[job.id].remoteRequestKey.Some? && db.jobs[job.id].id == job.id
    ensures var outcome := ConfirmRemotePublication(db, job);
            && outcome.Updated? && job.id in outcome.db.jobs && outcome.db.jobs[job.id] == outcome.row
            && outcome.row.id == job.id && outcome.row.status == RemoteConfirmed && outcome.row.remoteRequestKey.Some?
  {
  }

  lemma ConfirmStaysOnTrack(s: State, w: WorkerId, j: JobId, failures: nat)
    requires Local(s, w) && OnTrack(s, w, j, failures) && s.workers[w].phase.Confirming?
    ensures OnTrack(ConfirmStep(s, w), w, j, failures) && StepsLeft(ConfirmStep(s, w), w) < StepsLeft(s, w)
  {
    ConfirmOutcome(s.db, s.workers[w].job);
  }

  lemma FinishOutcome(db: Db, job: SocialPublishJob)
    requires job.id in db.jobs && db.jobs[job.id].status == RemoteConfirmed && job.remotePostId.Some?
    requires job.publishedAt.Some?
    requires JobChecks(db.jobs[job.id])
    requires !RemotePostTaken(db, job.id, db.jobs[job.id].platform, job.remotePostId.value)
    ensures var outcome := SaveSuccess(db, job);
            outcome.Updated? && job.id in outcome.db.jobs && outcome.db.jobs[job.id].status == Published
  {
  }

  lemma FinishStaysOnTrack(s: State, w: WorkerId, j: JobId, failures: nat)
    requires Local(s, w) && OnTrack(s, w, j, failures) && s.workers[w].phase.Finishing?
    requires !RemotePostTaken(s.db, j, s.db.jobs[j].platform, s.workers[w].job.remotePostId.value)
    ensures OnTrack(FinishStep(s, w), w, j, failures)
  {
    FinishOutcome(s.db, s.workers[w].job);
  }

  lemma DeferOutcome(db: Db, now: Time, job: SocialPublishJob, retryPending: bool, nextRetryAt: Option<Time>)
    requires WorkerMayFail(db, job.id) && JobChecks(db.jobs[job.id]) && db.jobs[job.id].remoteRequestKey.Some?
    requires 1 <= job.retryCount <= 4 && (retryPending ==> nextRetryAt.Some?)
    ensures var outcome := RecordAmbiguousRemoteOutcome(db, now, job, retryPending, nextRetryAt);
            && outcome.Updated? && job.id in outcome.db.jobs && Progressed(outcome.db.jobs[job.id], job.retryCount - 1)
            && outcome.db.jobs[job.id].status == if retryPending then RemoteRequesting else Failed
  {
  }

  lemma DeferStaysOnTrack(s: State, w: WorkerId, j: JobId, failures: nat)
    requires Local(s, w) && OnTrack(s, w, j, failures) && s.workers[w].phase.Deferring?
    ensures OnTrack(DeferStep(s, w), w, j, failures)
  {
    var worker := s.workers[w];
    DeferOutcome(s.db, s.now, worker.job, worker.phase.retryPending, worker.phase.nextRetryAt);
  }

  lemma FailOutcome(db: Db, now: Time, job: SocialPublishJob, retryPending: bool, nextRetryAt: Option<Time>)
    requires WorkerMayFail(db, job.id) && JobChecks(db.jobs[job.id])
    requires 1 <= job.retryCount <= 4 && (retryPending ==> nextRetryAt.Some?)
    ensures var outcome := SaveFailure(db, now, job, retryPending, nextRetryAt);
            && outcome.Updated? && job.id in outcome.db.jobs && Progressed(outcome.db.jobs[job.id], job.retryCount - 1)
            && outcome.db.jobs[job.id].status == if retryPending then Retrying else Failed
  {
  }

  lemma FailStaysOnTrack(s: State, w: WorkerId, j: JobId, failures: nat)
    requires Local(s, w) && OnTrack(s, w, j, failures) && s.workers[w].phase.Failing?
    ensures OnTrack(FailStep(s, w), w, j, failures)
  {
    var worker := s.workers[w];
    FailOutcome(s.db, s.now, worker.job, worker.phase.retryPending, worker.phase.nextRetryAt);
  }

  lemma DeferralStaysOnTrack(s: State, w: WorkerId, j: JobId, failures: nat, job: SocialPublishJob)
    requires w in s.workers && j in s.db.jobs && job.id == j
    requires s.db.jobs[j].status in {Claimed, RemoteRequesting} && s.db.jobs[j].remoteRequestKey.Some?
    requires job.retryCount == (if job.status == Failed then failures + 1 else failures)
    ensures OnTrack(BeginDefer(s, w, job), w, j, failures) && StepsLeft(BeginDefer(s, w, job), w) == 1
  {
    DeferralHasDelay(s, w, job);
  }

  lemma RecheckIsKeyed(s: State, w: WorkerId)
    requires Local(s, w) && (s.workers[w].phase.Reconciling? || s.workers[w].phase.Rechecking?)
    ensures s.workers[w].job.remoteRequestKey.Some? && s.workers[w].job.status != Failed
  {
  }

  lemma MissStaysOnTrack(s: State, w: WorkerId, j: JobId, failures: nat)
    requires w in s.workers && OnTrack(s, w, j, failures)
    requires s.workers[w].phase.Reconciling? || s.workers[w].phase.Rechecking?
    requires s.workers[w].job.remoteRequestKey.Some? && s.workers[w].job.status != Failed
    ensures OnTrack(MissStep(s, w), w, j, failures) && StepsLeft(MissStep(s, w), w) < StepsLeft(s, w)
  {
    var worker := s.workers[w];
    if worker.phase.Rechecking? {
      DeferralStaysOnTrack(s, w, j, failures, FailedJob(worker.job, worker.phase.failure));
    }
    else if worker.job.platform !in s.idempotent { DeferralStaysOnTrack(s, w, j, failures, worker.job); }
  }

  lemma FailureStaysOnTrack(s: State, w: WorkerId, j: JobId, failures: nat, failure: PublishFailure)
    requires OnTrack(s, w, j, failures) && w in s.workers
    requires s.workers[w].phase.Marked? || s.workers[w].phase.AwaitingProvider?
    ensures OnTrack(AfterFailure(s, w, failure), w, j, failures)
    ensures StepsLeft(AfterFailure(s, w, failure), w) < StepsLeft(s, w)
  {
  }

  lemma ConfirmationStaysOnTrack(s: State, w: WorkerId, j: JobId, failures: nat, result: PublishResult)
    requires OnTrack(s, w, j, failures) && Local(s, w)
    requires s.workers[w].phase.Rechecking? || s.workers[w].phase.AwaitingProvider?
    ensures var t := BeginConfirm(s, w, s.workers[w].job, result);
            OnTrack(t, w, j, failures) && StepsLeft(t, w) < StepsLeft(s, w)
  {
  }

  lemma SendStaysOnTrack(s: State, w: WorkerId, j: JobId, failures: nat, call: CallId)
    requires OnTrack(s, w, j, failures) && w in s.workers && s.workers[w].phase.Marked?
    ensures OnTrack(SendStep(s, w, call), w, j, failures) && StepsLeft(SendStep(s, w, call), w) < StepsLeft(s, w)
  {
  }

  lemma OwnStatementStaysOnTrack(s: State, e: Event, w: WorkerId, j: JobId, failures: nat)
    requires Inv(s) && Enabled(s, e) && OnTrack(s, w, j, failures) && IsOwn(e, w) && IsRowStatement(e)
    ensures OnTrack(Next(s, e), w, j, failures) && StepsLeft(Next(s, e), w) < StepsLeft(s, w)
  {
    LocalFacts(s, w);
    if e.Defer? || e.Fail? { OwnFailureStaysOnTrack(s, e, w, j, failures); }
    else {
      match e {
        case Mark(_, leaseMs) => MarkStaysOnTrack(s, w, j, failures, leaseMs);
        case Confirm(_) => ConfirmStaysOnTrack(s, w, j, failures);
        case Finish(_) => FinishIsReady(s, w); FinishStaysOnTrack(s, w, j, failures);
      }
    }
  }

  lemma OwnFailureStaysOnTrack(s: State, e: Event, w: WorkerId, j: JobId, failures: nat)
    requires Local(s, w) && Enabled(s, e) && OnTrack(s, w, j, failures) && IsOwn(e, w) && (e.Defer? || e.Fail?)
    ensures OnTrack(Next(s, e), w, j, failures) && StepsLeft(Next(s, e), w) < StepsLeft(s, w)
  {
    match e {
      case Defer(_) => DeferStaysOnTrack(s, w, j, failures);
      case Fail(_) => FailStaysOnTrack(s, w, j, failures);
    }
  }

  lemma FindStaysOnTrack(s: State, w: WorkerId, j: JobId, failures: nat, result: PublishResult)
    requires OnTrack(s, w, j, failures) && Local(s, w)
    requires s.workers[w].phase.Reconciling? || s.workers[w].phase.Rechecking?
    ensures var t := if s.workers[w].phase.Reconciling?
                     then s.(workers := s.workers[w := s.workers[w].(phase := Remarking(result))])
                     else BeginConfirm(s, w, s.workers[w].job, result);
            OnTrack(t, w, j, failures) && StepsLeft(t, w) < StepsLeft(s, w)
  {
    if s.workers[w].phase.Rechecking? { ConfirmationStaysOnTrack(s, w, j, failures, result); }
  }

  lemma OwnStepStaysOnTrack(s: State, e: Event, w: WorkerId, j: JobId, failures: nat)
    requires Inv(s) && Enabled(s, e) && OnTrack(s, w, j, failures) && IsOwn(e, w) && !IsRowStatement(e)
    ensures OnTrack(Next(s, e), w, j, failures) && StepsLeft(Next(s, e), w) < StepsLeft(s, w)
  {
    LocalFacts(s, w);
    match e {
      case FindPost(_, result) => FindStaysOnTrack(s, w, j, failures, result);
      case MissPost(_) => RecheckIsKeyed(s, w); MissStaysOnTrack(s, w, j, failures);
      case Send(_, call) => SendStaysOnTrack(s, w, j, failures, call);
      case FailLocally(_, error) => FailureStaysOnTrack(s, w, j, failures, ClassifyPublishFailure(error));
      case ReceiveFailure(_, error) => FailureStaysOnTrack(s, w, j, failures, ClassifyPublishFailure(error));
      case ReceiveSuccess(_, url, publishedAt) =>
        ConfirmationStaysOnTrack(s, w, j, failures,
            PublishResult(s.calls[s.workers[w].phase.call].state.remotePost, url, publishedAt));
    }
  }

  // -------------------------------------------------------------- everybody else's steps

  /** Row j and worker w are as before. */
  ghost predicate LeavesAlone(s: State, t: State, w: WorkerId, j: JobId) {
    && j in s.db.jobs && j in t.db.jobs && t.db.jobs[j] == s.db.jobs[j]
    && (w in t.workers <==> w in s.workers) && (w in s.workers ==> t.workers[w] == s.workers[w])
  }

  ghost predicate SameWorker(s: State, t: State, w: WorkerId) {
    (w in t.workers <==> w in s.workers) && (w in s.workers ==> t.workers[w] == s.workers[w])
  }

  lemma ClaimSparesOthers(s: State, v: WorkerId, j: JobId, leaseMs: nat, queueJobId: Option<nat>, w: WorkerId)
    requires v != w
    ensures SameWorker(s, ClaimStep(s, v, j, leaseMs, queueJobId), w)
  {
  }

  lemma MarkSparesOthers(s: State, v: WorkerId, leaseMs: nat, w: WorkerId)
    requires v in s.workers && v != w
    ensures SameWorker(s, MarkStep(s, v, leaseMs), w)
  {
  }

  lemma ConfirmSparesOthers(s: State, v: WorkerId, w: WorkerId)
    requires v in s.workers && v != w
    ensures SameWorker(s, ConfirmStep(s, v), w)
  {
  }

  lemma StatementSparesOthers(s: State, e: Event, w: WorkerId)
    requires Enabled(s, e) && IsRowStatement(e) && e.w != w
    ensures SameWorker(s, Next(s, e), w)
  {
    match e {
      case Claim(v, j, leaseMs, queueJobId) => ClaimSparesOthers(s, v, j, leaseMs, queueJobId, w);
      case Mark(v, leaseMs) => MarkSparesOthers(s, v, leaseMs, w);
      case Confirm(v) => ConfirmSparesOthers(s, v, w);
      case Finish(_) =>
      case Defer(_) =>
      case Fail(_) =>
    }
  }

  lemma StatementSparesRow(s: State, e: Event, j: JobId)
    requires Inv(s) && Enabled(s, e) && IsRowStatement(e) && RowOf(s, e) != j && j in s.db.jobs
    ensures j in Next(s, e).db.jobs && Next(s, e).db.jobs[j] == s.db.jobs[j]
  {
    StatementFrame(s, e);
  }

  lemma DeferralSparesOthers(s: State, v: WorkerId, job: SocialPublishJob, w: WorkerId)
    requires v in s.workers && v != w
    ensures SameWorker(s, BeginDefer(s, v, job), w)
  {
  }

  lemma MissSparesOthers(s: State, v: WorkerId, w: WorkerId)
    requires v in s.workers && v != w
    ensures SameWorker(s, MissStep(s, v), w)
  {
    var worker := s.workers[v];
    if worker.phase.Rechecking? { DeferralSparesOthers(s, v, FailedJob(worker.job, worker.phase.failure), w); }
    else if worker.job.platform !in s.idempotent { DeferralSparesOthers(s, v, worker.job, w); }
  }

  lemma FailureSparesOthers(s: State, v: WorkerId, failure: PublishFailure, w: WorkerId)
    requires v in s.workers && v != w
    ensures SameWorker(s, AfterFailure(s, v, failure), w)
  {
  }

  lemma OtherLocalLeavesAlone(s: State, e: Event, w: WorkerId, j: JobId)
    requires Enabled(s, e) && IsLocal(e) && e.w != w && j in s.db.jobs
    ensures LeavesAlone(s, Next(s, e), w, j)
  {
    LocalMovesWorkersOnly(s, e);
    if e.MissPost? { MissSparesOthers(s, e.w, w); }
    if e.FailLocally? || e.ReceiveFailure? { FailureSparesOthers(s, e.w, ClassifyPublishFailure(e.error), w); }
  }

  lemma EditLeavesAlone(s: State, e: Event, w: WorkerId, j: JobId)
    requires Inv(s) && Enabled(s, e) && e.Edit? && j in s.db.jobs && s.db.jobs[j].postId != e.postId
    ensures LeavesAlone(s, Next(s, e), w, j)
  {
    EditIsStep(s, e);
  }

  lemma CreatedLeavesAlone(s: State, t: State, post: Post, jobs: seq<SocialPublishJob>, w: WorkerId, j: JobId)
    requires AddsDraftJobs(WithPost(s.db, post), t.db, post.id, jobs) && t == s.(db := t.db) && j in s.db.jobs
    ensures LeavesAlone(s, t, w, j)
  {
  }

  lemma CreateLeavesAlone(s: State, e: Event, w: WorkerId, j: JobId)
    requires Inv(s) && Enabled(s, e) && e.Create? && j in s.db.jobs
    ensures LeavesAlone(s, Next(s, e), w, j)
  {
    CreateAdds(s, e);
    CreatedLeavesAlone(s, Next(s, e), e.post, e.jobs, w, j);
  }

  lemma DispatchLeavesAlone(s: State, t: State, w: WorkerId, j: JobId)
    requires OnlyDispatch(s, t) && j in s.db.jobs
    ensures LeavesAlone(s, t, w, j)
  {
  }

  lemma EnvironmentLeavesAlone(s: State, e: Event, w: WorkerId, j: JobId)
    requires Enabled(s, e) && (e.Tick? || e.Accept? || e.Refuse? || (e.Send? && e.w != w)) && j in s.db.jobs
    ensures LeavesAlone(s, Next(s, e), w, j)
  {
  }

  lemma OtherStepLeavesAlone(s: State, e: Event, w: WorkerId, j: JobId)
    requires Inv(s) && Enabled(s, e) && !IsOwn(e, w) && Undisturbed(s, e, w, j) && j in s.db.jobs
    ensures LeavesAlone(s, Next(s, e), w, j)
  {
    if IsRowStatement(e) { StatementSparesRow(s, e, j); StatementSparesOthers(s, e, w); }
    else if IsLocal(e) { OtherLocalLeavesAlone(s, e, w, j); }
    else if e.Edit? { EditLeavesAlone(s, e, w, j); }
    else if e.Create? { CreateLeavesAlone(s, e, w, j); }
    else if IsDispatch(e) { DispatchIsOnly(s, e); DispatchLeavesAlone(s, Next(s, e), w, j); }
    else { EnvironmentLeavesAlone(s, e, w, j); }
  }

  // -------------------------------------------------------------- one call

  ghost predicate IsUndisturbedRun(s: State, run: seq<Event>, w: WorkerId, j: JobId)
    decreases |run|
  {
    run == []
        || (Enabled(s, run[0]) && Undisturbed(s, run[0], w, j) && IsUndisturbedRun(Next(s, run[0]), run[1..], w, j))
  }

  function OwnSteps(run: seq<Event>, w: WorkerId): nat
    decreases |run|
  {
    if run == [] then 0 else (if IsOwn(run[0], w) then 1 else 0) + OwnSteps(run[1..], w)
  }

  lemma {:induction false} StaysOnTrack(s: State, run: seq<Event>, w: WorkerId, j: JobId, failures: nat)
    requires Inv(s) && OnTrack(s, w, j, failures) && IsUndisturbedRun(s, run, w, j)
    ensures IsRun(s, run) && OnTrack(Exec(s, run), w, j, failures)
    ensures OwnSteps(run, w) + StepsLeft(Exec(s, run), w) <= StepsLeft(s, w)
    decreases |run|
  {
    if run != [] {
      var e := run[0];
      StepKeepsInv(s, e);
      if !IsOwn(e, w) { OtherStepLeavesAlone(s, e, w, j); }
      else if IsRowStatement(e) { OwnStatementStaysOnTrack(s, e, w, j, failures); }
      else { OwnStepStaysOnTrack(s, e, w, j, failures); }
      StaysOnTrack(Next(s, e), run[1..], w, j, failures);
    }
  }

  /** Claim by w, then everything until w is done. */
  ghost predicate IsOneCall(s: State, claim: Event, run: seq<Event>, j: JobId) {
    && claim.Claim? && claim.jobId == j && Enabled(s, claim)
    && IsUndisturbedRun(Next(s, claim), run, claim.w, j) && IsRun(Next(s, claim), run)
    && claim.w !in Exec(Next(s, claim), run).workers
  }

  /**
   * One call of `process` takes at most seven steps after its claim, whatever the adapter
   * and the lookups answer; it leaves the job published or failed, or with exactly one
   * failure more and a time at which it can be claimed again; and each CHECK holds.
   */
  lemma OneCallMakesProgress(s: State, claim: Event, run: seq<Event>, j: JobId)
    requires Inv(s) && IsOneCall(s, claim, run, j)
    ensures var t := Exec(Next(s, claim), run);
            && j in s.db.jobs && j in t.db.jobs && Inv(t) && Progressed(t.db.jobs[j], s.db.jobs[j].retryCount)
            && JobChecks(t.db.jobs[j]) && OwnSteps(run, claim.w) <= 7
  {
    assert JobInv(s, j);
    ClaimStartsOnTrack(s, claim.w, j, claim.leaseMs, claim.queueJobId);
    StepKeepsInv(s, claim);
    StaysOnTrack(Next(s, claim), run, claim.w, j, s.db.jobs[j].retryCount);
    RunKeepsInv(Next(s, claim), run);
    assert JobInv(Exec(Next(s, claim), run), j);
  }

  // -------------------------------------------------------------- four calls suffice

  datatype Call = Call(between: seq<Event>, claim: Event, run: seq<Event>)

  /** Calls of `process` for job j one after another, with steps in between that leave row j alone. */
  ghost predicate AreCalls(s: State, calls: seq<Call>, j: JobId)
    decreases |calls|
  {
    calls == [] ||
      (&& IsRun(s, calls[0].between)
       && j in s.db.jobs && j in Exec(s, calls[0].between).db.jobs
       && Exec(s, calls[0].between).db.jobs[j] == s.db.jobs[j]
       && IsOneCall(Exec(s, calls[0].between), calls[0].claim, calls[0].run, j)
       && AreCalls(Exec(Next(Exec(s, calls[0].between), calls[0].claim), calls[0].run), calls[1..], j))
  }

  ghost function AfterCalls(s: State, calls: seq<Call>, j: JobId): State
    requires AreCalls(s, calls, j)
    decreases |calls|
  {
    if calls == [] then s
    else AfterCalls(Exec(Next(Exec(s, calls[0].between), calls[0].claim), calls[0].run), calls[1..], j)
  }

  lemma {:induction false} CallsCountFailures(s: State, calls: seq<Call>, j: JobId)
    requires Inv(s) && AreCalls(s, calls, j) && j in s.db.jobs
    ensures var t := AfterCalls(s, calls, j);
            && Inv(t) && j in t.db.jobs
            && (t.db.jobs[j].status in {Published, Failed}
                 || t.db.jobs[j].retryCount == s.db.jobs[j].retryCount + |calls|)
            && (calls == [] ==> t == s) && (calls != [] ==> t.db.jobs[j].status != Cancelled)
    decreases |calls|
  {
    if calls != [] {
      var u := Exec(s, calls[0].between);
      RunKeepsInv(s, calls[0].between);
      OneCallMakesProgress(u, calls[0].claim, calls[0].run, j);
      var v := Exec(Next(u, calls[0].claim), calls[0].run);
      if v.db.jobs[j].status in {Published, Failed} { EndedIsNotCalled(v, calls[1..], j); }
      CallsCountFailures(v, calls[1..], j);
    }
  }

  lemma EndedIsNotCalled(s: State, calls: seq<Call>, j: JobId)
    requires AreCalls(s, calls, j) && j in s.db.jobs && s.db.jobs[j].status in {Published, Failed}
    ensures calls == []
  {
    if calls != [] { TerminalIsNeverClaimable(Exec(s, calls[0].between).db, j); }
  }

  lemma LiveRowIsInBudget(s: State, j: JobId)
    requires Inv(s) && j in s.db.jobs && s.db.jobs[j].status !in {Failed, Cancelled}
    ensures s.db.jobs[j].retryCount < 4
  {
    assert JobInv(s, j);
  }

  /** From any row that is not cancelled, after four calls at the latest the job is published or failed. */
  lemma FourCallsSuffice(s: State, calls: seq<Call>, j: JobId)
    requires Inv(s) && AreCalls(s, calls, j) && j in s.db.jobs && s.db.jobs[j].status != Cancelled
    requires |calls| >= 4 - s.db.jobs[j].retryCount
    ensures var t := AfterCalls(s, calls, j);
            j in t.db.jobs && t.db.jobs[j].status in {Published, Failed}
  {
    CallsCountFailures(s, calls, j);
    var t := AfterCalls(s, calls, j);
    if t.db.jobs[j].status !in {Published, Failed} { LiveRowIsInBudget(t, j); }
  }
}
