/**
 * What BullMQ's deliveries do for a job. A delivery calls `process`; a failure that is to be
 * retried throws and BullMQ delivers again after its own delay, up to PUBLISH_MAX_ATTEMPTS
 * times; everything else, a claim that matched no row included, ends the deliveries of a queue
 * id. So a delivery must not come before the row can be claimed: deliveries that follow one
 * another undisturbed never do, but the one that follows a crash may.
 */
module Deliveries {
  import opened Wrappers
  import opened PostEntity
  import opened RetryPolicy
  import opened Schema
  import opened PostService
  import opened PostRepository
  import opened EditContract
  import opened PublishOutboxRepository
  import opened PublishingService
  import opened PublishProtocol
  import opened GenuineRuns
  import opened ProtocolInvariant
  import opened EditorialSteps
  import opened CreateAndDispatch
  import opened ProtocolSafety
  import opened StepFacts
  import opened PublishGuarantees
  import opened WorkerProgress
  import opened Scenes
  import opened Stories

  // -------------------------------------------------------------- two delays for one failure

  /** The delay BullMQ observes after this many attempts. */
  function QueueDelay(attemptsMade: nat): nat {
    RetryDelayForBullMq(attemptsMade).value
  }

  /** A time planned after this many failures comes no later than BullMQ's next delivery. */
  predicate IsInTime(at: Option<Time>, failures: nat, now: Time) {
    at.Some? ==> 1 <= failures <= 3 && at.value <= now + QueueDelay(failures)
  }

  predicate RowIsInTime(row: SocialPublishJob, now: Time) {
    row.status in {Retrying, RemoteRequesting} ==>
      IsInTime(row.nextRetryAt, row.retryCount, now) && (row.nextRetryAt.Some? ==> row.leaseExpiresAt.None?)
  }

  predicate WorkerIsInTime(worker: Worker, now: Time) {
    match worker.phase
    case Deferring(_, at) => IsInTime(at, worker.job.retryCount, now)
    case Failing(_, at) => IsInTime(at, worker.job.retryCount, now)
    case _ => true
  }

  /** What the database says about the next attempt agrees with when BullMQ makes it. */
  ghost predicate DelaysAgree(s: State) {
    && (forall j | j in s.db.jobs :: RowIsInTime(s.db.jobs[j], s.now))
    && (forall w | w in s.workers :: WorkerIsInTime(s.workers[w], s.now))
  }

  lemma PlansAreInTime(pending: bool, failures: nat, now: Time)
    ensures IsInTime(PlannedTime(PlanRetry(pending, failures, now)), failures, now)
  {
  }

  // -------------------------------------------------------------- every step keeps them in agreement

  /** One row and one worker moved, and both are in time afterwards. */
  lemma OneMoved(s: State, t: State, w: WorkerId, j: JobId)
    requires DelaysAgree(s) && Statement(s, t, w, j) && (w in t.workers ==> WorkerIsInTime(t.workers[w], t.now))
    requires RowIsInTime(t.db.jobs[j], t.now)
    ensures DelaysAgree(t)
  {
  }

  lemma StatementIsInTime(s: State, e: Event, t: State)
    requires DelaysAgree(s) && IsRowStatement(e) && StatementSummed(s, e, t)
    ensures DelaysAgree(t)
  {
    match e {
      case Claim(w, j, _, _) => OneMoved(s, t, w, j);
      case Mark(w, _) => OneMoved(s, t, w, s.workers[w].job.id);
      case Confirm(w) => OneMoved(s, t, w, s.workers[w].job.id);
      case Finish(w) => OneMoved(s, t, w, s.workers[w].job.id);
      case Defer(w) => OneMoved(s, t, w, s.workers[w].job.id);
      case Fail(w) => OneMoved(s, t, w, s.workers[w].job.id);
    }
  }

  lemma PlannedIsInTime(s: State, w: WorkerId, job: SocialPublishJob, pending: bool, deferral: bool)
    requires w in s.workers
    ensures var t := WithPlan(s, w, job, PlanRetry(pending, job.retryCount, s.now), deferral);
            w in t.workers ==> WorkerIsInTime(t.workers[w], s.now)
  {
    PlansAreInTime(pending, job.retryCount, s.now);
  }

  lemma DeferralIsInTime(s: State, w: WorkerId, job: SocialPublishJob)
    requires w in s.workers
    ensures var t := BeginDefer(s, w, job); w in t.workers ==> WorkerIsInTime(t.workers[w], s.now)
  {
    PlannedIsInTime(s, w, DeferredJob(job), DeferralIsPending(DeferredJob(job)), true);
  }

  lemma MissIsInTime(s: State, w: WorkerId)
    requires IsLooking(s, w)
    ensures var t := MissStep(s, w); w in t.workers ==> WorkerIsInTime(t.workers[w], s.now)
  {
    var worker := s.workers[w];
    if worker.phase.Rechecking? { DeferralIsInTime(s, w, FailedJob(worker.job, worker.phase.failure)); }
    else if worker.job.platform !in s.idempotent { DeferralIsInTime(s, w, worker.job); }
  }

  lemma FailureIsInTime(s: State, w: WorkerId, failure: PublishFailure)
    requires w in s.workers
    ensures var t := AfterFailure(s, w, failure); w in t.workers ==> WorkerIsInTime(t.workers[w], s.now)
  {
    var failed := FailedJob(s.workers[w].job, failure);
    PlannedIsInTime(s, w, failed, ShouldRetryPublish(failure, failed.retryCount), false);
  }

  lemma LocalIsInTime(s: State, e: Event)
    requires Enabled(s, e) && IsLocal(e)
    ensures e.w in Next(s, e).workers ==> WorkerIsInTime(Next(s, e).workers[e.w], s.now)
  {
    match e {
      case MissPost(w) => MissIsInTime(s, w);
      case FailLocally(w, error) => FailureIsInTime(s, w, ClassifyPublishFailure(error));
      case ReceiveFailure(w, error) => FailureIsInTime(s, w, ClassifyPublishFailure(error));
      case _ =>
    }
  }

  lemma MoveIsInTime(s: State, t: State, w: WorkerId)
    requires DelaysAgree(s) && DoesMove(s, t, w) && (w in t.workers ==> WorkerIsInTime(t.workers[w], s.now))
    ensures DelaysAgree(t)
  {
  }

  lemma CallIsInTime(s: State, e: Event, t: State)
    requires DelaysAgree(s) && IsCallEvent(e) && CallSummed(s, e, t)
    ensures DelaysAgree(t)
  {
  }

  lemma GrownRowIsInTime(s: State, t: State, j: JobId)
    requires DoesGrow(s, t) && j in s.db.jobs && RowIsInTime(s.db.jobs[j], s.now)
    ensures j in t.db.jobs && RowIsInTime(t.db.jobs[j], t.now)
  {
    assert RowGrows(s.db.jobs[j], t.db.jobs[j]);
  }

  /** New rows wait. */
  ghost predicate NewRowsWait(s: State, t: State) {
    forall j | j in t.db.jobs && j !in s.db.jobs :: t.db.jobs[j].status == Waiting
  }

  lemma GrowthIsInTime(s: State, t: State)
    requires DelaysAgree(s) && DoesGrow(s, t) && NewRowsWait(s, t)
    ensures DelaysAgree(t)
  {
    forall j | j in t.db.jobs ensures RowIsInTime(t.db.jobs[j], t.now) {
      if j in s.db.jobs { GrownRowIsInTime(s, t, j); }
    }
  }

  lemma CreatedRowsWait(s: State, t: State, post: Post, jobs: seq<SocialPublishJob>)
    requires AddsDraftJobs(WithPost(s.db, post), t.db, post.id, jobs)
    requires forall i | 0 <= i < |jobs| :: IsNewJob(jobs[i], post)
    ensures NewRowsWait(s, t)
  {
  }

  lemma GrowthAddsWaitingRows(s: State, e: Event) returns (t: State)
    requires Inv(s) && Enabled(s, e) && (e.Edit? || e.Create? || e.Tick? || IsDispatch(e))
    ensures t == Next(s, e) && NewRowsWait(s, t)
  {
    t := Next(s, e);
    if e.Edit? { EditIsStep(s, e); }
    else if e.Create? { CreateAdds(s, e); CreatedRowsWait(s, t, e.post, e.jobs); }
    else if IsDispatch(e) { DispatchIsOnly(s, e); }
  }

  lemma StepKeepsDelays(s: State, e: Event)
    requires Inv(s) && DelaysAgree(s) && Enabled(s, e)
    ensures DelaysAgree(Next(s, e))
  {
    StepIsSummed(s, e);
    if IsRowStatement(e) { StatementIsInTime(s, e, Next(s, e)); }
    else if IsCallEvent(e) { CallIsInTime(s, e, Next(s, e)); }
    else if IsLocal(e) { LocalIsInTime(s, e); MoveIsInTime(s, Next(s, e), e.w); }
    else { var t := GrowthAddsWaitingRows(s, e); GrowthIsInTime(s, t); }
  }

  lemma {:induction false} RunKeepsDelays(s: State, run: seq<Event>)
    requires Inv(s) && DelaysAgree(s) && IsRun(s, run)
    ensures Inv(Exec(s, run)) && DelaysAgree(Exec(s, run))
    decreases |run|
  {
    if run != [] {
      StepKeepsDelays(s, run[0]);
      StepKeepsInv(s, run[0]);
      RunKeepsDelays(Next(s, run[0]), run[1..]);
    }
  }

  /** In every run from the empty database. */
  lemma DelaysAlwaysAgree(s: State, run: seq<Event>)
    requires Init(s) && IsRun(s, run)
    ensures DelaysAgree(Exec(s, run))
  {
    InitHasInv(s);
    RunKeepsDelays(s, run);
  }

  // -------------------------------------------------------------- when a delivery claims its row

  lemma WakeUpIsExact(row: SocialPublishJob, now: Time)
    requires RowOk(row, now) && RowIsInTime(row, now) && !IsTerminal(row.status)
    ensures row.scheduledAt <= now && StatusClaimable(row, now) <==> WakeUp(row) <= now
  {
  }

  lemma OutboxRowIsClaimable(s: State, j: JobId)
    requires Inv(s) && j in s.db.outbox && j in s.db.jobs
    ensures s.db.jobs[j].postId in s.db.posts && s.db.posts[s.db.jobs[j].postId].status != DraftPost
  {
    assert JobInv(s, j);
  }

  /** A delivery of the current queue id claims its row exactly from the wake-up time on. */
  lemma DeliveryClaimsExactly(s: State, w: WorkerId, j: JobId, leaseMs: nat)
    requires Inv(s) && DelaysAgree(s) && j in s.db.jobs && !IsTerminal(s.db.jobs[j].status) && w !in s.workers
    requires j in s.db.outbox && s.db.outbox[j].queueJobId in s.queue
    ensures Enabled(s, Claim(w, j, leaseMs, Some(s.db.outbox[j].queueJobId))) <==> WakeUp(s.db.jobs[j]) <= s.now
  {
    ClaimMatchesExactly(s, j, leaseMs);
  }

  lemma ClaimMatchesExactly(s: State, j: JobId, leaseMs: nat)
    requires Inv(s) && DelaysAgree(s) && j in s.db.jobs && !IsTerminal(s.db.jobs[j].status) && j in s.db.outbox
    ensures ClaimPublishJob(s.db, s.now, j, leaseMs, Some(s.db.outbox[j].queueJobId)).Updated?
            <==> WakeUp(s.db.jobs[j]) <= s.now
  {
    assert JobInv(s, j);
    WakeUpIsExact(s.db.jobs[j], s.now);
    OutboxRowIsClaimable(s, j);
    ClaimableFromWakeUp(s, j);
  }

  // -------------------------------------------------------------- undisturbed deliveries

  lemma ProgressIsInTime(row: SocialPublishJob, failures: nat, now: Time, later: Time)
    requires Progressed(row, failures) && row.status !in {Published, Failed} && RowOk(row, now) && RowIsInTime(row, now)
    requires now + QueueDelay(failures + 1) <= later
    ensures failures + 1 < 4 && WakeUp(row) <= later
  {
  }

  lemma OneCallKeepsDelays(s: State, call: Call, j: JobId) returns (v: State)
    requires Inv(s) && DelaysAgree(s) && AreCalls(s, [call], j)
    ensures v == Exec(Next(Exec(s, call.between), call.claim), call.run) && Inv(v) && DelaysAgree(v)
    ensures j in s.db.jobs && j in v.db.jobs && Progressed(v.db.jobs[j], s.db.jobs[j].retryCount)
  {
    var u := Exec(s, call.between);
    RunKeepsDelays(s, call.between);
    OneCallMakesProgress(u, call.claim, call.run, j);
    StepKeepsDelays(u, call.claim);
    StepKeepsInv(u, call.claim);
    RunKeepsDelays(Next(u, call.claim), call.run);
    v := Exec(Next(u, call.claim), call.run);
  }

  lemma {:induction false} CallsKeepDelays(s: State, calls: seq<Call>, j: JobId)
    requires Inv(s) && DelaysAgree(s) && AreCalls(s, calls, j) && calls != []
    ensures var t := AfterCalls(s, calls, j);
            && Inv(t) && DelaysAgree(t) && j in s.db.jobs && j in t.db.jobs
            && Progressed(t.db.jobs[j], s.db.jobs[j].retryCount + |calls| - 1)
    decreases |calls|
  {
    assert [calls[0]][1..] == [];
    var v := OneCallKeepsDelays(s, calls[0], j);
    if calls[1..] != [] {
      if v.db.jobs[j].status in {Published, Failed} { EndedIsNotCalled(v, calls[1..], j); }
      CallsKeepDelays(v, calls[1..], j);
    }
  }

  /** When BullMQ delivers next: at the scheduled time, and after each failed attempt one delay later. */
  ghost function NextDelivery(s: State, calls: seq<Call>, j: JobId): Time
    requires AreCalls(s, calls, j) && j in s.db.jobs
  {
    if calls == [] then s.db.jobs[j].scheduledAt else AfterCalls(s, calls, j).now + QueueDelay(|calls|)
  }

  lemma JobWaitsOrEnds(s: State, calls: seq<Call>, j: JobId, later: Time)
    requires Inv(s) && DelaysAgree(s) && AreCalls(s, calls, j) && j in s.db.jobs
    requires s.db.jobs[j].status == Waiting && s.db.jobs[j].retryCount == 0 && NextDelivery(s, calls, j) <= later
    ensures var t := AfterCalls(s, calls, j);
            && Inv(t) && DelaysAgree(t) && j in t.db.jobs
            && (t.db.jobs[j].status !in {Published, Failed} ==>
                  |calls| < 4 && !IsTerminal(t.db.jobs[j].status) && WakeUp(t.db.jobs[j]) <= later)
  {
    if calls != [] {
      CallsKeepDelays(s, calls, j);
      var t := AfterCalls(s, calls, j);
      if t.db.jobs[j].status !in {Published, Failed} {
        assert JobInv(t, j);
        ProgressIsInTime(t.db.jobs[j], |calls| - 1, t.now, later);
      }
    }
  }

  /**
   * Deliveries of a fresh or manually retried job that follow one another undisturbed: as long
   * as the job is neither published nor failed, BullMQ has an attempt left, and its next
   * delivery, whenever it comes, claims the row.
   */
  lemma AttemptsSuffice(s: State, calls: seq<Call>, between: seq<Event>, j: JobId, w: WorkerId, leaseMs: nat)
    requires Inv(s) && DelaysAgree(s) && AreCalls(s, calls, j) && IsRun(AfterCalls(s, calls, j), between)
    requires j in s.db.jobs && s.db.jobs[j].status == Waiting && s.db.jobs[j].retryCount == 0
    requires var u := Exec(AfterCalls(s, calls, j), between);
             && IsUntouched(AfterCalls(s, calls, j), u, j) && NextDelivery(s, calls, j) <= u.now
             && w !in u.workers && u.db.outbox[j].queueJobId in u.queue
    ensures var t, u := AfterCalls(s, calls, j), Exec(AfterCalls(s, calls, j), between);
            || t.db.jobs[j].status in {Published, Failed}
            || (&& |calls| < PUBLISH_MAX_ATTEMPTS == 4
                && Enabled(u, Claim(w, j, leaseMs, Some(u.db.outbox[j].queueJobId))))
  {
    var t := AfterCalls(s, calls, j);
    JobWaitsOrEnds(s, calls, j, Exec(t, between).now);
    RunKeepsDelays(t, between);
    if t.db.jobs[j].status !in {Published, Failed} { DeliveryClaimsExactly(Exec(t, between), w, j, leaseMs); }
  }

  /** Row j is as it was, and still in the outbox. */
  ghost predicate IsUntouched(t: State, u: State, j: JobId) {
    j in t.db.jobs && j in u.db.jobs && u.db.jobs[j] == t.db.jobs[j] && j in u.db.outbox
  }

  // -------------------------------------------------------------- deliveries that come to nothing

  /** A row in flight that no worker works on, handed to BullMQ under its current queue id. */
  ghost predicate Stranded(s: State, j: JobId) {
    && j in s.db.jobs && s.db.jobs[j].status in {Claimed, RemoteRequesting, RemoteConfirmed}
    && NoWorkerOf(s, j) && RowIsHandedOver(s.db, j)
  }

  /** Row j is the same, and so is its queue id, which stays handed over. */
  ghost predicate StaysStranded(s: State, t: State, j: JobId) {
    && Stranded(s, j) && Stranded(t, j) && t.db.jobs[j] == s.db.jobs[j]
    && t.db.outbox[j].queueJobId == s.db.outbox[j].queueJobId
  }

  predicate IsClaimOf(e: Event, j: JobId) {
    e.Claim? && e.jobId == j
  }

  ghost predicate NoWorkerOf(s: State, j: JobId) {
    forall w | w in s.workers :: s.workers[w].job.id != j
  }

  /** Row j, its queue id and the hand-over are the same. */
  predicate LeavesRow(s: State, t: State, j: JobId) {
    && j in s.db.jobs && j in t.db.jobs && t.db.jobs[j] == s.db.jobs[j]
    && j in s.db.outbox && j in t.db.outbox && t.db.outbox[j].queueJobId == s.db.outbox[j].queueJobId
    && (RowIsHandedOver(s.db, j) ==> RowIsHandedOver(t.db, j))
  }

  lemma OtherRowIsWritten(s: State, t: State, k: JobId, j: JobId)
    requires SameElsewhere(s, t, k) && k != j && j in s.db.jobs && j in s.db.outbox
    ensures LeavesRow(s, t, j)
  {
  }

  lemma NobodyComes(s: State, e: Event, t: State, j: JobId)
    requires IsRowStatement(e) && StatementSummed(s, e, t) && Fits(s) && NoWorkerOf(s, j) && !IsClaimOf(e, j)
    ensures NoWorkerOf(t, j)
  {
    if e.Claim? { assert RowFits(s, e.jobId); }
  }

  lemma StatementIsOnOtherRow(s: State, e: Event, t: State, j: JobId)
    requires IsRowStatement(e) && StatementSummed(s, e, t) && NoWorkerOf(s, j) && !IsClaimOf(e, j)
    ensures RowOf(s, e) != j
  {
  }

  lemma StatementLeavesRow(s: State, e: Event, j: JobId) returns (t: State)
    requires Inv(s) && Enabled(s, e) && IsRowStatement(e) && RowOf(s, e) != j
    requires j in s.db.jobs && j in s.db.outbox
    ensures t == Next(s, e) && LeavesRow(s, t, j)
  {
    t := Next(s, e);
    StatementFrame(s, e);
    OtherRowIsWritten(s, t, RowOf(s, e), j);
  }

  lemma EditedRowInFlight(db: Db, after: Db, p: PostId, command: Command, j: JobId)
    requires IsEditedJob(db, after, p, command, j) && InFlightStatus(db.jobs[j].status) && db.jobs[j].id == j
    ensures after.jobs[j] == db.jobs[j] && SameOutboxRow(db, after, j)
  {
  }

  lemma EditLeavesRow(s: State, t: State, p: PostId, command: Command, j: JobId)
    requires Shape(s.db) && EditedTo(s, t, p, command) && j in s.db.jobs && j in s.db.outbox
    requires InFlightStatus(s.db.jobs[j].status)
    ensures LeavesRow(s, t, j)
  {
    if s.db.jobs[j].postId == p {
      assert IsEditedJob(s.db, t.db, p, command, j);
      EditedRowInFlight(s.db, t.db, p, command, j);
    }
  }

  lemma DispatchStatementsKeepHandOver(db: Db, now: Time, j: JobId, k: JobId, q: nat, message: string)
    requires RowIsHandedOver(db, j)
    ensures RowIsHandedOver(MarkOutboxEnqueued(db, now, k, q), j)
    ensures RowIsHandedOver(ReleaseOutbox(db, k, q, message), j)
  {
  }

  lemma OutboxClaimKeepsHandOver(db: Db, j: JobId, k: JobId, row: OutboxRow)
    requires RowIsHandedOver(db, j) && k != j
    ensures RowIsHandedOver(PutOutbox(db, k, row), j)
  {
  }

  lemma DispatchKeepsHandOver(s: State, e: Event, j: JobId)
    requires Enabled(s, e) && IsDispatch(e) && RowIsHandedOver(s.db, j)
    ensures RowIsHandedOver(Next(s, e).db, j)
  {
    match e {
      case ClaimOutbox(_, k, leaseMs) =>
        OutboxClaimKeepsHandOver(s.db, j, k, DispatchClaimedRow(s.db.outbox[k], s.now, leaseMs));
      case MarkEnqueued(d) =>
        DispatchStatementsKeepHandOver(s.db, s.now, j, s.dispatchers[d].jobId, s.dispatchers[d].queueJobId, "");
      case Release(d, message) =>
        DispatchStatementsKeepHandOver(s.db, s.now, j, s.dispatchers[d].jobId, s.dispatchers[d].queueJobId, message);
      case _ =>
    }
  }

  lemma DispatchedLeavesRow(s: State, t: State, j: JobId)
    requires OnlyDispatch(s, t) && j in s.db.jobs && j in s.db.outbox
    requires RowIsHandedOver(s.db, j) ==> RowIsHandedOver(t.db, j)
    ensures LeavesRow(s, t, j)
  {
  }

  lemma DispatchLeavesRow(s: State, e: Event, j: JobId) returns (t: State)
    requires Inv(s) && Enabled(s, e) && IsDispatch(e) && j in s.db.jobs && RowIsHandedOver(s.db, j)
    ensures t == Next(s, e) && LeavesRow(s, t, j)
  {
    t := Next(s, e);
    DispatchIsOnly(s, e);
    DispatchKeepsHandOver(s, e, j);
    DispatchedLeavesRow(s, t, j);
  }

  lemma CreateLeavesRow(s: State, t: State, post: Post, jobs: seq<SocialPublishJob>, j: JobId)
    requires AddsDraftJobs(WithPost(s.db, post), t.db, post.id, jobs) && j in s.db.jobs && j in s.db.outbox
    ensures LeavesRow(s, t, j)
  {
  }

  lemma OtherStepLeavesRow(s: State, e: Event, j: JobId) returns (t: State)
    requires Inv(s) && Enabled(s, e) && !IsRowStatement(e) && Stranded(s, j)
    ensures t == Next(s, e) && LeavesRow(s, t, j)
  {
    t := Next(s, e);
    if e.Edit? { EditIsStep(s, e); EditLeavesRow(s, t, e.postId, e.command, j); }
    else if e.Create? { CreateAdds(s, e); CreateLeavesRow(s, t, e.post, e.jobs, j); }
    else if IsDispatch(e) { t := DispatchLeavesRow(s, e, j); }
    else if IsLocal(e) { LocalMovesWorkersOnly(s, e); }
  }

  lemma NobodyComesByCall(s: State, e: Event, t: State, j: JobId)
    requires IsCallEvent(e) && CallSummed(s, e, t) && NoWorkerOf(s, j)
    ensures NoWorkerOf(t, j)
  {
  }

  lemma NobodyComesByMove(s: State, t: State, w: WorkerId, j: JobId)
    requires DoesMove(s, t, w) && NoWorkerOf(s, j)
    ensures NoWorkerOf(t, j)
  {
  }

  lemma NobodyComesOtherwise(s: State, e: Event, t: State, j: JobId)
    requires !IsRowStatement(e) && IsSummed(s, e, t) && NoWorkerOf(s, j)
    ensures NoWorkerOf(t, j)
  {
    if IsCallEvent(e) { NobodyComesByCall(s, e, t, j); } else if IsLocal(e) { NobodyComesByMove(s, t, e.w, j); }
  }

  lemma StepLeavesStranded(s: State, e: Event, j: JobId) returns (t: State)
    requires Inv(s) && Enabled(s, e) && Stranded(s, j) && !IsClaimOf(e, j)
    ensures t == Next(s, e) && StaysStranded(s, t, j)
  {
    StepIsSummed(s, e);
    if IsRowStatement(e) {
      InvFits(s);
      StatementIsOnOtherRow(s, e, Next(s, e), j);
      t := StatementLeavesRow(s, e, j);
      NobodyComes(s, e, t, j);
    } else {
      t := OtherStepLeavesRow(s, e, j);
      NobodyComesOtherwise(s, e, t, j);
    }
  }

  ghost predicate NoClaimIn(run: seq<Event>, j: JobId) {
    forall e | e in run :: !IsClaimOf(e, j)
  }

  lemma {:induction false} RunLeavesStranded(s: State, run: seq<Event>, j: JobId)
    requires Inv(s) && IsRun(s, run) && Stranded(s, j) && NoClaimIn(run, j)
    ensures StaysStranded(s, Exec(s, run), j)
    decreases |run|
  {
    if run != [] {
      var t := StepLeavesStranded(s, run[0], j);
      StepKeepsInv(s, run[0]);
      RunLeavesStranded(t, run[1..], j);
    }
  }

  /**
   * Once stranded, a row is changed by nobody unless another delivery claims it: no command
   * applies to it and the outbox never hands it over again.
   */
  lemma StrandedStays(s: State, first: seq<Event>, run: seq<Event>, j: JobId)
    requires Init(s) && IsRun(s, first) && Stranded(Exec(s, first), j)
    requires IsRun(Exec(s, first), run) && NoClaimIn(run, j)
    ensures var t, u := Exec(s, first), Exec(Exec(s, first), run);
            && StaysStranded(t, u, j)
            && forall now :: !Dispatchable(u.db, now, j)
  {
    InitHasInv(s);
    RunKeepsInv(s, first);
    RunLeavesStranded(Exec(s, first), run, j);
  }

  lemma LeavingStrands(s: State, w: WorkerId, j: JobId)
    requires w in s.workers && s.workers[w].job.id == j && j in s.db.jobs && InFlightStatus(s.db.jobs[j].status)
    requires RowIsHandedOver(s.db, j) && forall v | v in s.workers && v != w :: s.workers[v].job.id != j
    ensures Stranded(Without(s, w), j)
  {
  }

  lemma CrashLeaves(s: State, w: WorkerId) returns (t: State)
    requires Inv(s) && DelaysAgree(s) && w in s.workers
    ensures t == Next(s, Crash(w)) && t == Without(s, w) && Inv(t) && DelaysAgree(t)
  {
    StepKeepsInv(s, Crash(w));
    StepKeepsDelays(s, Crash(w));
    t := Without(s, w);
  }

  lemma HandedOverIsQueued(s: State, j: JobId)
    requires Inv(s) && RowIsHandedOver(s.db, j)
    ensures s.db.outbox[j].queueJobId in s.queue
  {
  }

  /** A crash strands the row of its worker. */
  lemma CrashStrands(s: State, w: WorkerId, j: JobId) returns (t: State)
    requires Inv(s) && DelaysAgree(s) && w in s.workers && s.workers[w].job.id == j
    requires j in s.db.jobs && InFlightStatus(s.db.jobs[j].status) && RowIsHandedOver(s.db, j)
    requires forall v | v in s.workers && v != w :: s.workers[v].job.id != j
    ensures t == Next(s, Crash(w)) && Inv(t) && DelaysAgree(t) && Stranded(t, j) && t.db == s.db && t.now == s.now
  {
    t := CrashLeaves(s, w);
    LeavingStrands(s, w, j);
  }

  /** A delivery of a stranded row comes to nothing exactly before its wake-up time, which is the end of a lease. */
  lemma StrandedIsClaimedExactly(s: State, w: WorkerId, j: JobId, leaseMs: nat)
    requires Inv(s) && DelaysAgree(s) && Stranded(s, j) && w !in s.workers
    ensures Enabled(s, Claim(w, j, leaseMs, Some(s.db.outbox[j].queueJobId))) <==> WakeUp(s.db.jobs[j]) <= s.now
  {
    HandedOverIsQueued(s, j);
    DeliveryClaimsExactly(s, w, j, leaseMs);
  }

  // -------------------------------------------------------------- a run that ends like this

  const KEEPING_EVERY_RULE: Rules := Rules(true, true, true)

  const CLAIMED_ROW: SocialPublishJob := JOB.(scheduledAt := 1, status := Claimed, leaseExpiresAt := Some(30_001))

  lemma WorkerClaims() returns (v: View)
    ensures Leads(v, {}, KEEPING_EVERY_RULE)
    ensures v == View(1, CLAIMED_ROW, map[0 := Seen(CLAIMED_ROW, 30_001, ReadyToMark, false)], map[], 2, {}, Live)
  {
    LeadsFromTheBeginning({}, KEEPING_EVERY_RULE);
    v := And(FirstView({}), Acts(IsScheduled(1)), {}, KEEPING_EVERY_RULE);
    v := And(v, Waits(1), {}, KEEPING_EVERY_RULE);
    v := And(v, Claims(0), {}, KEEPING_EVERY_RULE);
  }

  /** No delivery claims job 0 before its lease ends at 30 001 ms. */
  ghost predicate WaitsForLease(t: State) {
    Stranded(t, 0) && t.now == 1
    && forall later, leaseMs, q | later < 30_001 :: !ClaimPublishJob(t.db, later, 0, leaseMs, q).Updated?
  }

  lemma ClaimedRowWaits(t: State)
    requires Stranded(t, 0) && t.now == 1 && t.db.jobs[0] == CLAIMED_ROW
    ensures WaitsForLease(t)
  {
  }

  lemma WorkerIsAlone(s: State, v: View)
    requires Shows(s, v) && v.now == 1 && v.stage.Live?
    requires v.row == CLAIMED_ROW && v.workers == map[0 := Seen(CLAIMED_ROW, 30_001, ReadyToMark, false)]
    ensures s.workers.Keys == {0} && s.workers[0].job.id == 0 && 0 in s.db.jobs && s.db.jobs[0] == CLAIMED_ROW
    ensures RowIsHandedOver(s.db, 0) && s.now == 1
  {
    assert SeenOf(s.workers[0]) == v.workers[0];
  }

  lemma AloneStrands(s: State)
    requires s.workers.Keys == {0} && s.workers[0].job.id == 0 && s.now == 1
    requires 0 in s.db.jobs && s.db.jobs[0] == CLAIMED_ROW && RowIsHandedOver(s.db, 0)
    ensures WaitsForLease(Without(s, 0))
  {
    LeavingStrands(s, 0, 0);
    ClaimedRowWaits(Without(s, 0));
  }

  lemma LastSceneStrands(tale: Tale, v: View) returns (told: Tale)
    requires Told(tale, v, KEEPING_EVERY_RULE) && DelaysAgree(tale.end) && v.now == 1 && v.stage.Live?
    requires v.row == CLAIMED_ROW && v.workers == map[0 := Seen(CLAIMED_ROW, 30_001, ReadyToMark, false)]
    ensures IsTale(told, KEEPING_EVERY_RULE) && told.start == tale.start && WaitsForLease(told.end)
  {
    WorkerIsAlone(tale.end, v);
    AloneStrands(tale.end);
    var t := CrashLeaves(tale.end, 0);
    OtherEventIsProper(tale.end, Crash(0), KEEPING_EVERY_RULE);
    told := TaleGoesOn(tale, Crash(0), KEEPING_EVERY_RULE);
  }

  lemma {:induction false} ProperRunKeepsDelays(s: State, run: seq<Event>, rules: Rules)
    requires Inv(s) && DelaysAgree(s) && IsProperRun(s, run, rules)
    ensures DelaysAgree(Exec(s, run))
    decreases |run|
  {
    if run != [] {
      StepKeepsDelays(s, run[0]);
      StepKeepsInv(s, run[0]);
      ProperRunKeepsDelays(Next(s, run[0]), run[1..], rules);
    }
  }

  /**
   * A worker claims in time and crashes. If BullMQ delivers the stalled job again within the
   * 30 s of the lease, `process` reports null, which ends the deliveries, and by StrandedStays
   * nothing ever happens to the job again.
   */
  lemma CrashCanStrandAJob()
    ensures exists run ::
              IsProperRun(Start({}), run, KEEPING_EVERY_RULE) && IsGenuineRun(Start({}), run)
              && WaitsForLease(Exec(Start({}), run))
  {
    var v := WorkerClaims();
    var tale := PlotIsARun(v, {}, KEEPING_EVERY_RULE);
    InitHasInv(tale.start);
    ProperRunKeepsDelays(tale.start, tale.run, KEEPING_EVERY_RULE);
    tale := LastSceneStrands(tale, v);
    assert WaitsForLease(Exec(Start({}), tale.run));
  }
}
