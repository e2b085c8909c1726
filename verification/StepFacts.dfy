/**
 * Every step of the protocol in a few words: which row, which worker and which call moved,
 * and how. The invariants that follow are proved from these words alone.
 */
module StepFacts {
  import opened Wrappers
  import opened PostEntity
  import opened RetryPolicy
  import opened Schema
  import opened PostService
  import opened EditContract
  import opened PublishOutboxRepository
  import opened PublishingService
  import opened PublishProtocol
  import opened ProtocolInvariant
  import opened WorkerSteps
  import opened EditorialSteps
  import opened CreateAndDispatch
  import opened ProtocolSafety

  // -------------------------------------------------------------- what always fits together

  ghost predicate HasKey(s: State, j: JobId) {
    j in s.db.jobs && s.db.jobs[j].remoteRequestKey.Some?
  }

  predicate RowFits(s: State, j: JobId) {
    j in s.db.jobs ==>
      var row := s.db.jobs[j];
      && row.id == j && row.remoteRequestKey in {None, Some(KeyOf(j))} && row.retryCount <= 4
      && (row.status in {Waiting, Retrying, Cancelled} ==> row.remoteRequestKey.None?)
      && (row.status in {RemoteRequesting, RemoteConfirmed, Published} ==> row.remoteRequestKey.Some?)
  }

  predicate WorkerFits(s: State, w: WorkerId) {
    w in s.workers ==>
      var worker := s.workers[w];
      && worker.job.id in s.db.jobs && s.db.jobs[worker.job.id].platform == worker.job.platform
      && (worker.phase.Reconciling? ==> worker.repeats)
      && (worker.repeats
           && (worker.phase.ReadyToMark? || worker.phase.Marked? || worker.phase.AwaitingProvider?
                || worker.phase.Failing?) ==>
            worker.job.platform in s.idempotent)
      && (worker.phase.Deferring? && !worker.phase.retryPending ==> worker.job.retryCount == 4)
      && (worker.phase.AwaitingProvider? ==>
           worker.phase.call in s.calls && s.calls[worker.phase.call].jobId == worker.job.id)
      && (worker.phase.Marked? ==> worker.job.retryCount <= 3)
  }

  predicate CallFits(s: State, c: CallId) {
    c in s.calls ==> s.calls[c].jobId in s.db.jobs && s.db.jobs[s.calls[c].jobId].platform == s.calls[c].platform
  }

  ghost predicate Fits(s: State) {
    (forall j :: RowFits(s, j)) && (forall w :: WorkerFits(s, w)) && (forall c :: CallFits(s, c))
  }

  lemma WorkerInvFits(s: State, w: WorkerId)
    requires w in s.workers && WorkerInv(s, w)
    ensures WorkerFits(s, w)
  {
  }

  lemma InvFits(s: State)
    requires Inv(s)
    ensures Fits(s)
  {
    forall j ensures RowFits(s, j) { if j in s.db.jobs { assert JobInv(s, j); } }
    forall w ensures WorkerFits(s, w) { if w in s.workers { assert WorkerInv(s, w); WorkerInvFits(s, w); } }
    forall c ensures CallFits(s, c) { if c in s.calls { assert CallInv(s, c); } }
  }

  // -------------------------------------------------------------- statements

  ghost predicate OnlyWorker(s: State, t: State, w: WorkerId) {
    forall v | v != w :: (v in t.workers <==> v in s.workers) && (v in s.workers ==> t.workers[v] == s.workers[v])
  }

  ghost predicate OnlyJob(s: State, t: State, j: JobId) {
    && t.db.jobs.Keys == s.db.jobs.Keys && j in s.db.jobs
    && forall k | k in s.db.jobs && k != j :: t.db.jobs[k] == s.db.jobs[k]
  }

  predicate SameCalls(s: State, t: State) {
    t.calls == s.calls && t.sends == s.sends && t.now == s.now && t.idempotent == s.idempotent
  }

  ghost predicate Statement(s: State, t: State, w: WorkerId, j: JobId) {
    OnlyWorker(s, t, w) && OnlyJob(s, t, j) && SameCalls(s, t)
  }

  ghost predicate DoesClaim(s: State, t: State, w: WorkerId, j: JobId, leaseMs: nat) {
    && Statement(s, t, w, j) && w !in s.workers && w in t.workers && StatusClaimable(s.db.jobs[j], s.now)
    && t.db.jobs[j] == ClaimedRow(s.db.jobs[j], s.now, leaseMs)
    && t.workers[w] == NewWorker(t.db.jobs[j], t.workers[w].post, s.now + leaseMs)
  }

  /** The worker is the same as before but for its lease, its phase and the columns of its job that are not identity. */
  predicate SameWork(a: Worker, b: Worker) {
    b.job.id == a.job.id && b.job.platform == a.job.platform && b.repeats == a.repeats
  }

  /** Nothing happened but that the worker left. */
  ghost predicate Left(s: State, t: State, w: WorkerId) {
    t.db.jobs == s.db.jobs && w !in t.workers
  }

  ghost predicate DoesMark(s: State, t: State, w: WorkerId, leaseMs: nat) {
    && IsReadyToMark(s, w)
    && var worker := s.workers[w];
       var j := worker.job.id;
       && Statement(s, t, w, j)
       && (|| (Left(s, t, w) && s.db.jobs[j].status != Claimed)
           || (&& s.db.jobs[j].status == Claimed && t.db.jobs[j] == MarkedRow(s.db.jobs[j], s.now, KeyOf(j), leaseMs)
               && w in t.workers && SameWork(worker, t.workers[w]) && t.workers[w].leaseEnd == s.now + leaseMs
               && (if worker.phase.Remarking? then t.workers[w].phase.Confirming?
                   else t.workers[w].phase.Marked? && t.workers[w].job == t.db.jobs[j])))
  }

  /** Key, retry count and platform stay. */
  predicate SameAccount(a: SocialPublishJob, b: SocialPublishJob) {
    b.remoteRequestKey == a.remoteRequestKey && b.retryCount == a.retryCount && b.platform == a.platform
  }

  ghost predicate DoesConfirm(s: State, t: State, w: WorkerId) {
    && w in s.workers && s.workers[w].phase.Confirming?
    && var worker := s.workers[w];
       var j := worker.job.id;
       && Statement(s, t, w, j)
       && (|| Left(s, t, w)
           || (&& s.db.jobs[j].status == RemoteRequesting && t.db.jobs[j].status == RemoteConfirmed
               && SameAccount(s.db.jobs[j], t.db.jobs[j])
               && w in t.workers && SameWork(worker, t.workers[w]) && t.workers[w].phase.Finishing?))
  }

  ghost predicate DoesFinish(s: State, t: State, w: WorkerId) {
    && w in s.workers && s.workers[w].phase.Finishing?
    && var j := s.workers[w].job.id;
       && Statement(s, t, w, j) && w !in t.workers
       && (|| t.db.jobs == s.db.jobs
           || (s.db.jobs[j].status == RemoteConfirmed && t.db.jobs[j].status == Published
               && SameAccount(s.db.jobs[j], t.db.jobs[j])))
  }

  ghost predicate DoesDefer(s: State, t: State, w: WorkerId) {
    && w in s.workers && s.workers[w].phase.Deferring?
    && var job, phase := s.workers[w].job, s.workers[w].phase;
       && Statement(s, t, w, job.id) && w !in t.workers
       && (|| t.db.jobs == s.db.jobs
           || (&& s.db.jobs[job.id].status in {Claimed, RemoteRequesting}
               && t.db.jobs[job.id] == AmbiguousRow(s.db.jobs[job.id], job, phase.retryPending, phase.nextRetryAt)
               && (phase.retryPending ==> s.db.jobs[job.id].remoteRequestKey.Some?)))
  }

  ghost predicate DoesFail(s: State, t: State, w: WorkerId) {
    && w in s.workers && s.workers[w].phase.Failing?
    && var job, phase := s.workers[w].job, s.workers[w].phase;
       && Statement(s, t, w, job.id) && w !in t.workers
       && (|| t.db.jobs == s.db.jobs
           || (&& s.db.jobs[job.id].status in {Claimed, RemoteRequesting}
               && t.db.jobs[job.id] == RefusedRow(s.db.jobs[job.id], job, phase.retryPending, phase.nextRetryAt)))
  }

  // -------------------------------------------------------------- steps inside a worker, and calls

  predicate IsRefused(s: State, c: CallId) {
    c in s.calls && s.calls[c].state == Refused
  }

  /** How a worker goes on without the database. */
  predicate Moves(s: State, a: Worker, b: Worker) {
    && SameWork(a, b) && b.leaseEnd == a.leaseEnd
    && (|| ((a.phase.Reconciling? || a.phase.Rechecking?)
         && (b.phase.Remarking? || b.phase.Confirming? || b.phase.Deferring?))
        || (a.phase.Reconciling? && a.job.platform in s.idempotent && b.phase.ReadyToMark?)
        || ((a.phase.Marked? || a.phase.AwaitingProvider?) && b.phase.Rechecking?)
        || ((a.phase.Marked? || (a.phase.AwaitingProvider? && IsRefused(s, a.phase.call)))
            && b.phase.Failing? && b.job.retryCount == a.job.retryCount + 1)
        || (a.phase.AwaitingProvider? && b.phase.Confirming?))
  }

  ghost predicate DoesMove(s: State, t: State, w: WorkerId) {
    && w in s.workers && OnlyWorker(s, t, w) && SameCalls(s, t) && t.db.jobs == s.db.jobs
    && (w in t.workers ==> Moves(s, s.workers[w], t.workers[w]))
  }

  ghost predicate DoesSend(s: State, t: State, w: WorkerId, c: CallId) {
    && IsMarked(s, w) && c !in s.calls && t.db.jobs == s.db.jobs && t.now == s.now && t.idempotent == s.idempotent
    && t.calls == s.calls[c := NewCall(s.workers[w], s.now)]
    && t.workers == s.workers[w := Goes(s.workers[w], s.workers[w].job, AwaitingProvider(c))]
    && t.sends == s.sends[s.workers[w].job.id := Sends(s, s.workers[w].job.id) + 1]
  }

  ghost predicate DoesAnswer(s: State, t: State, c: CallId) {
    && IsInFlight(s, c) && t.db.jobs == s.db.jobs && t.workers == s.workers && t.sends == s.sends && t.now == s.now
    && t.idempotent == s.idempotent
    && c in t.calls && t.calls == s.calls[c := s.calls[c].(state := t.calls[c].state)] && t.calls[c].state != InFlight
  }

  // -------------------------------------------------------------- everybody else

  /**
   * An editorial change of a row leaves its key alone, and the row itself unless it waits,
   * retries or has failed without a key.
   */
  predicate RowGrows(a: SocialPublishJob, b: SocialPublishJob) {
    && b.id == a.id && b.platform == a.platform && b.remoteRequestKey == a.remoteRequestKey
    && (b == a
         || (a.remoteRequestKey.None? && a.status in {Waiting, Retrying, Failed} && b.status in {Waiting, Cancelled}))
  }

  /** The retry count is reset by the command retry alone, which resets the count of calls as well. */
  predicate CountStays(s: State, t: State, j: JobId) {
    j in s.db.jobs && j in t.db.jobs && t.db.jobs[j].retryCount == s.db.jobs[j].retryCount && Sends(t, j) == Sends(s, j)
  }

  ghost predicate DoesGrow(s: State, t: State) {
    && t.workers == s.workers && t.calls == s.calls && s.now <= t.now && t.idempotent == s.idempotent
    && (forall j | j in s.db.jobs :: j in t.db.jobs && RowGrows(s.db.jobs[j], t.db.jobs[j]))
    && (forall j | j in s.db.jobs :: CountStays(s, t, j) || Sends(t, j) == 0)
    && (forall j | j in t.db.jobs && j !in s.db.jobs ::
         t.db.jobs[j].remoteRequestKey.None? && Sends(t, j) == Sends(s, j))
    && t.sends.Keys <= s.sends.Keys + s.db.jobs.Keys
  }

  // -------------------------------------------------------------- the summary

  ghost predicate StatementSummed(s: State, e: Event, t: State) {
    match e
    case Claim(w, j, leaseMs, _) => DoesClaim(s, t, w, j, leaseMs)
    case Mark(w, leaseMs) => DoesMark(s, t, w, leaseMs)
    case Confirm(w) => DoesConfirm(s, t, w)
    case Finish(w) => DoesFinish(s, t, w)
    case Defer(w) => DoesDefer(s, t, w)
    case Fail(w) => DoesFail(s, t, w)
    case _ => true
  }

  ghost predicate CallSummed(s: State, e: Event, t: State) {
    match e
    case Send(w, c) => DoesSend(s, t, w, c)
    case Accept(c, _) => DoesAnswer(s, t, c)
    case Refuse(c) => DoesAnswer(s, t, c)
    case _ => true
  }

  predicate IsCallEvent(e: Event) {
    e.Send? || e.Accept? || e.Refuse?
  }

  ghost predicate IsSummed(s: State, e: Event, t: State) {
    if IsRowStatement(e) then StatementSummed(s, e, t)
    else if IsCallEvent(e) then CallSummed(s, e, t)
    else if IsLocal(e) then DoesMove(s, t, e.w) && (e.Crash? ==> e.w !in t.workers)
    else DoesGrow(s, t)
  }

  lemma ClaimIsSummed(s: State, w: WorkerId, j: JobId, leaseMs: nat, queueJobId: Option<nat>)
    requires Claimable(s.db, s.now, j, queueJobId) && w !in s.workers && RowOk(s.db.jobs[j], s.now)
    ensures DoesClaim(s, ClaimStep(s, w, j, leaseMs, queueJobId), w, j, leaseMs)
  {
    var t := ClaimedState(s, w, j, leaseMs, queueJobId);
  }

  lemma MarkedTables(db: Db, now: Time, j: JobId, leaseMs: nat)
    requires j in db.jobs && JobChecks(db.jobs[j]) && db.jobs[j].remoteRequestKey in {None, Some(KeyOf(j))}
    ensures var outcome := MarkRemoteRequesting(db, now, j, KeyOf(j), leaseMs);
            if db.jobs[j].status == Claimed
            then outcome.Updated? && outcome.row == MarkedRow(db.jobs[j], now, KeyOf(j), leaseMs)
                && outcome.db.jobs == db.jobs[j := outcome.row]
            else outcome.NoRow?
  {
  }

  lemma MarkIsSummed(s: State, w: WorkerId, leaseMs: nat)
    requires Local(s, w) && IsReadyToMark(s, w)
    ensures DoesMark(s, MarkStep(s, w, leaseMs), w, leaseMs)
  {
    var job := s.workers[w].job;
    MarkKey(s, w);
    MarkedTables(s.db, s.now, job.id, leaseMs);
  }

  lemma MarkKey(s: State, w: WorkerId)
    requires Local(s, w) && IsReadyToMark(s, w)
    ensures var job := s.workers[w].job;
            && RequestKeyOf(job) == KeyOf(job.id) && s.db.jobs[job.id].id == job.id
            && s.db.jobs[job.id].platform == job.platform
            && JobChecks(s.db.jobs[job.id]) && s.db.jobs[job.id].remoteRequestKey in {None, Some(KeyOf(job.id))}
  {
  }

  lemma ConfirmedTables(db: Db, job: SocialPublishJob)
    requires job.id in db.jobs
    ensures var outcome := ConfirmRemotePublication(db, job);
            outcome.Updated? ==>
                db.jobs[job.id].status == RemoteRequesting && outcome.db.jobs == db.jobs[job.id := outcome.row]
                && outcome.row == SuccessfulRow(db.jobs[job.id], RemoteConfirmed, job)
  {
  }

  lemma ConfirmIsSummed(s: State, w: WorkerId)
    requires WorkerFits(s, w) && RowFits(s, JobOf(s, w)) && w in s.workers && s.workers[w].phase.Confirming?
    ensures DoesConfirm(s, ConfirmStep(s, w), w)
  {
    ConfirmedTables(s.db, s.workers[w].job);
  }

  function JobOf(s: State, w: WorkerId): JobId {
    if w in s.workers then s.workers[w].job.id else 0
  }

  lemma FinishedTables(db: Db, job: SocialPublishJob)
    requires job.id in db.jobs
    ensures var outcome := SaveSuccess(db, job);
            outcome.Updated? ==>
                db.jobs[job.id].status == RemoteConfirmed && outcome.db.jobs == db.jobs[job.id := outcome.row]
                && outcome.row == SuccessfulRow(db.jobs[job.id], Published, job)
  {
  }

  lemma FinishIsSummed(s: State, w: WorkerId)
    requires WorkerFits(s, w) && w in s.workers && s.workers[w].phase.Finishing?
    ensures DoesFinish(s, FinishStep(s, w), w)
  {
    FinishedTables(s.db, s.workers[w].job);
  }

  lemma StoredRow(db: Db, now: Time, j: JobId, row: SocialPublishJob)
    requires j in db.jobs && row.status in {Failed, Retrying, RemoteRequesting}
    ensures var outcome := FailRow(db, now, j, row);
            outcome.Updated? ==> JobChecks(row) && outcome.db.jobs == db.jobs[j := row]
  {
  }

  lemma DeferIsSummed(s: State, w: WorkerId)
    requires WorkerFits(s, w) && w in s.workers && s.workers[w].phase.Deferring?
    ensures DoesDefer(s, DeferStep(s, w), w)
  {
    var job, phase := s.workers[w].job, s.workers[w].phase;
    StoredRow(s.db, s.now, job.id, AmbiguousRow(s.db.jobs[job.id], job, phase.retryPending, phase.nextRetryAt));
  }

  lemma FailIsSummed(s: State, w: WorkerId)
    requires WorkerFits(s, w) && w in s.workers && s.workers[w].phase.Failing?
    ensures DoesFail(s, FailStep(s, w), w)
  {
    var job, phase := s.workers[w].job, s.workers[w].phase;
    StoredRow(s.db, s.now, job.id, RefusedRow(s.db.jobs[job.id], job, phase.retryPending, phase.nextRetryAt));
  }

  lemma DeferralIsSummed(s: State, w: WorkerId, job: SocialPublishJob)
    requires w in s.workers && (s.workers[w].phase.Reconciling? || s.workers[w].phase.Rechecking?)
    requires job.id == s.workers[w].job.id && job.platform == s.workers[w].job.platform
    ensures DoesMove(s, BeginDefer(s, w, job), w)
  {
  }

  lemma MissIsSummed(s: State, w: WorkerId)
    requires IsLooking(s, w)
    ensures DoesMove(s, MissStep(s, w), w)
  {
    var worker := s.workers[w];
    if worker.phase.Rechecking? { DeferralIsSummed(s, w, FailedJob(worker.job, worker.phase.failure)); }
    else if worker.job.platform !in s.idempotent { DeferralIsSummed(s, w, worker.job); }
  }

  lemma FailureIsSummed(s: State, w: WorkerId, failure: PublishFailure)
    requires IsMarked(s, w) || (IsAwaiting(s, w) && (!failure.ambiguous ==> AnswerTo(s, w) == Refused))
    ensures DoesMove(s, AfterFailure(s, w, failure), w)
  {
  }

  lemma StatementIsSummed(s: State, e: Event)
    requires Inv(s) && Enabled(s, e) && IsRowStatement(e)
    ensures StatementSummed(s, e, Next(s, e))
  {
    InvFits(s);
    match e {
      case Claim(w, j, leaseMs, queueJobId) => assert JobInv(s, j); ClaimIsSummed(s, w, j, leaseMs, queueJobId);
      case Mark(w, leaseMs) => LocalFacts(s, w); MarkIsSummed(s, w, leaseMs);
      case Confirm(w) => assert RowFits(s, JobOf(s, w)) && WorkerFits(s, w); ConfirmIsSummed(s, w);
      case Finish(w) => assert WorkerFits(s, w); FinishIsSummed(s, w);
      case Defer(w) => assert WorkerFits(s, w); DeferIsSummed(s, w);
      case Fail(w) => assert WorkerFits(s, w); FailIsSummed(s, w);
    }
  }

  lemma LocalIsSummed(s: State, e: Event)
    requires Enabled(s, e) && IsLocal(e)
    ensures DoesMove(s, Next(s, e), e.w) && (e.Crash? ==> e.w !in Next(s, e).workers)
  {
    match e {
      case MissPost(w) => MissIsSummed(s, w);
      case FailLocally(w, error) => FailureIsSummed(s, w, ClassifyPublishFailure(error));
      case ReceiveFailure(w, error) => FailureIsSummed(s, w, ClassifyPublishFailure(error));
      case _ =>
    }
  }

  lemma EditIsSummed(s: State, t: State, p: PostId, command: Command)
    requires Inv(s) && EditedTo(s, t, p, command) && TablesGrow(s, t)
    ensures DoesGrow(s, t)
  {
    forall j | j in s.db.jobs
      ensures j in t.db.jobs && RowGrows(s.db.jobs[j], t.db.jobs[j]) && (CountStays(s, t, j) || Sends(t, j) == 0)
    {
      EditedJobGrowsAsSaid(s, t, p, command, j);
    }
    if command.Retry? { assert IsEditedJob(s.db, t.db, p, command, command.jobId); }
  }

  lemma EditedJobGrowsAsSaid(s: State, t: State, p: PostId, command: Command, j: JobId)
    requires Shape(s.db) && EditedTo(s, t, p, command) && j in s.db.jobs
    ensures j in t.db.jobs && RowGrows(s.db.jobs[j], t.db.jobs[j]) && (CountStays(s, t, j) || Sends(t, j) == 0)
  {
    if s.db.jobs[j].postId == p {
      assert j in s.db.jobsOfPost[p] && IsEditedJob(s.db, t.db, p, command, j);
    } else if command.Retry? {
      assert IndexOk(s.db, p) && command.jobId != j;
    }
    EditedRowGrowsAsSaid(s, t, command, j);
  }

  lemma EditedRowGrowsAsSaid(s: State, t: State, command: Command, j: JobId)
    requires j in s.db.jobs && j in t.db.jobs && s.db.jobs[j].id == j
    requires EditedRow(command, s.db.jobs[j], t.db.jobs[j])
             || (t.db.jobs[j] == s.db.jobs[j] && !(command.Retry? && command.jobId == j))
    requires t.sends == if command.Retry? then s.sends[command.jobId := 0] else s.sends
    ensures RowGrows(s.db.jobs[j], t.db.jobs[j]) && (CountStays(s, t, j) || Sends(t, j) == 0)
  {
  }

  lemma CreateIsSummed(s: State, t: State, post: Post, jobs: seq<SocialPublishJob>)
    requires AddsDraftJobs(WithPost(s.db, post), t.db, post.id, jobs) && t == s.(db := t.db)
    requires forall i | 0 <= i < |jobs| :: IsNewJob(jobs[i], post)
    ensures DoesGrow(s, t)
  {
  }

  lemma DispatchIsSummed(s: State, t: State)
    requires OnlyDispatch(s, t)
    ensures DoesGrow(s, t)
  {
  }

  lemma EditGrows(s: State, e: Event)
    requires Inv(s) && Enabled(s, e) && e.Edit?
    ensures DoesGrow(s, Next(s, e))
  {
    EditKeepsInv(s, e);
    EditIsStep(s, e);
    EditIsSummed(s, Next(s, e), e.postId, e.command);
  }

  lemma CreateGrows(s: State, e: Event)
    requires Inv(s) && Enabled(s, e) && e.Create?
    ensures DoesGrow(s, Next(s, e))
  {
    CreateAdds(s, e);
    CreateIsSummed(s, Next(s, e), e.post, e.jobs);
  }

  lemma TickGrows(s: State, to: Time)
    requires s.now <= to
    ensures DoesGrow(s, s.(now := to))
  {
  }

  lemma GrowthIsSummed(s: State, e: Event)
    requires Inv(s) && Enabled(s, e) && (e.Edit? || e.Create? || e.Tick? || IsDispatch(e))
    ensures DoesGrow(s, Next(s, e))
  {
    if e.Edit? { EditGrows(s, e); }
    else if e.Create? { CreateGrows(s, e); }
    else if e.Tick? { TickGrows(s, e.to); }
    else { DispatchIsOnly(s, e); DispatchIsSummed(s, Next(s, e)); }
  }

  lemma CallIsSummed(s: State, e: Event)
    requires Enabled(s, e) && IsCallEvent(e)
    ensures CallSummed(s, e, Next(s, e))
  {
  }

  lemma StepFits(s: State, e: Event)
    requires Inv(s) && Enabled(s, e)
    ensures Fits(s) && Fits(Next(s, e))
  {
    InvFits(s);
    StepKeepsInv(s, e);
    InvFits(Next(s, e));
  }

  lemma StepIsSummed(s: State, e: Event)
    requires Inv(s) && Enabled(s, e)
    ensures IsSummed(s, e, Next(s, e))
  {
    if IsRowStatement(e) { StatementIsSummed(s, e); }
    else if IsLocal(e) { LocalIsSummed(s, e); }
    else if IsCallEvent(e) { CallIsSummed(s, e); }
    else { GrowthIsSummed(s, e); }
  }
}
