/**
 * Safety over whole runs of the protocol, for every interleaving and without any timing
 * assumption. Init is the empty database.
 */
module ProtocolSafety {
  import opened PostEntity
  import opened RetryPolicy
  import opened Schema
  import opened PostService
  import opened PublishingService
  import opened PublishProtocol
  import opened ProtocolInvariant
  import opened WorkerSteps
  import opened EditorialSteps
  import opened CreateAndDispatch

  // -------------------------------------------------------------- the invariant over runs

  lemma InitHasInv(s: State)
    requires Init(s)
    ensures Inv(s)
  {
  }

  predicate IsRowStatement(e: Event) {
    e.Claim? || e.Mark? || e.Confirm? || e.Finish? || e.Defer? || e.Fail?
  }

  predicate IsLocal(e: Event) {
    e.FindPost? || e.MissPost? || e.FailLocally? || e.ReceiveSuccess? || e.ReceiveFailure? || e.Crash?
  }

  lemma StatementKeepsInv(s: State, e: Event)
    requires Inv(s) && Enabled(s, e) && IsRowStatement(e)
    ensures Inv(Next(s, e))
  {
    match e {
      case Claim(w, j, leaseMs, queueJobId) => ClaimKeepsInv(s, w, j, leaseMs, queueJobId);
      case Mark(w, leaseMs) => MarkKeepsInv(s, w, leaseMs);
      case Confirm(w) => ConfirmKeepsInv(s, w);
      case Finish(w) => FinishKeepsInv(s, w);
      case Defer(w) => DeferKeepsInv(s, w);
      case Fail(w) => FailKeepsInv(s, w);
    }
  }

  lemma LocalKeepsInv(s: State, e: Event)
    requires Inv(s) && Enabled(s, e) && IsLocal(e)
    ensures Inv(Next(s, e))
  {
    match e {
      case FindPost(w, result) => FindKeepsInv(s, w, result);
      case MissPost(w) => MissKeepsInv(s, w);
      case FailLocally(w, error) => FailureKeepsInv(s, w, error);
      case ReceiveSuccess(w, url, publishedAt) => SuccessKeepsInv(s, w, url, publishedAt);
      case ReceiveFailure(w, error) => FailureKeepsInv(s, w, error);
      case Crash(w) => WithoutKeepsInv(s, w);
    }
  }

  lemma CallOrTickKeepsInv(s: State, e: Event)
    requires Inv(s) && Enabled(s, e) && (e.Tick? || e.Send? || e.Accept? || e.Refuse?)
    ensures Inv(Next(s, e))
  {
    match e {
      case Tick(to) => TickKeepsInv(s, to);
      case Send(w, call) => SendKeepsInv(s, w, call);
      case Accept(_, _) => ProviderKeepsInv(s, e);
      case Refuse(_) => ProviderKeepsInv(s, e);
    }
  }

  lemma StepKeepsInv(s: State, e: Event)
    requires Inv(s) && Enabled(s, e)
    ensures Inv(Next(s, e))
  {
    if IsRowStatement(e) { StatementKeepsInv(s, e); }
    else if IsLocal(e) { LocalKeepsInv(s, e); }
    else if IsDispatch(e) { DispatchKeepsInv(s, e); }
    else if e.Create? { CreateKeepsInv(s, e); }
    else if e.Edit? { EditKeepsInv(s, e); }
    else { CallOrTickKeepsInv(s, e); }
  }

  lemma {:induction false} RunKeepsInv(s: State, run: seq<Event>)
    requires Inv(s) && IsRun(s, run)
    ensures Inv(Exec(s, run))
    decreases |run|
  {
    if run != [] {
      StepKeepsInv(s, run[0]);
      RunKeepsInv(Next(s, run[0]), run[1..]);
    }
  }

  // -------------------------------------------------------------- what a step may change

  function RowOf(s: State, e: Event): JobId {
    if e.Claim? then e.jobId else if IsRowStatement(e) && e.w in s.workers then s.workers[e.w].job.id else 0
  }

  /** A worker statement touches one row, its alert and its social post: siblings stay as they are. */
  lemma StatementTouchesOneRow(s: State, e: Event)
    requires Inv(s) && Enabled(s, e) && IsRowStatement(e)
    ensures Next(s, e) == Without(s, e.w) || RowStep(s, Next(s, e), RowOf(s, e), e.w)
  {
    match e {
      case Claim(w, j, leaseMs, queueJobId) =>
        assert JobInv(s, j) && PostInv(s, s.db.jobs[j].postId);
        ClaimRowStep(s, w, j, leaseMs, queueJobId);
      case Mark(w, leaseMs) => LocalFacts(s, w); MarkRowStep(s, w, leaseMs);
      case Confirm(w) => LocalFacts(s, w); ConfirmRowStep(s, w);
      case Finish(w) => FinishIsReady(s, w); FinishRowStep(s, w);
      case Defer(w) => LocalFacts(s, w); DeferRowStep(s, w);
      case Fail(w) => LocalFacts(s, w); FailRowStep(s, w);
    }
  }

  /** Everything outside row j, its alert, its social post and the workers is as before, and so is its time. */
  ghost predicate SameElsewhere(s: State, t: State, j: JobId) {
    && t.calls == s.calls && t.approvals == s.approvals && t.idempotent == s.idempotent && t.now == s.now
    && t.db.posts == s.db.posts && t.db.media == s.db.media && t.db.outbox == s.db.outbox
    && t.db.jobs.Keys == s.db.jobs.Keys
    && (forall k | k in s.db.jobs && k != j :: t.db.jobs[k] == s.db.jobs[k])
    && (j in s.db.jobs ==> t.db.jobs[j].scheduledAt == s.db.jobs[j].scheduledAt)
  }

  lemma OneRowIsSameElsewhere(s: State, t: State, j: JobId, w: WorkerId)
    requires t == Without(s, w) || RowStep(s, t, j, w)
    ensures SameElsewhere(s, t, j)
  {
  }

  lemma StatementFrame(s: State, e: Event)
    requires Inv(s) && Enabled(s, e) && IsRowStatement(e)
    ensures SameElsewhere(s, Next(s, e), RowOf(s, e))
  {
    StatementTouchesOneRow(s, e);
    OneRowIsSameElsewhere(s, Next(s, e), RowOf(s, e), e.w);
  }

  ghost predicate SameIdentity(a: SocialPublishJob, b: SocialPublishJob) {
    a.id == b.id && a.postId == b.postId && a.platform == b.platform && a.accountId == b.accountId
  }

  ghost predicate JobsEvolve(s: State, t: State) {
    forall j | j in s.db.jobs ::
        j in t.db.jobs && SameIdentity(s.db.jobs[j], t.db.jobs[j]) && SuccessIsFrozen(s.db.jobs[j], t.db.jobs[j])
  }

  ghost predicate RecordsEvolve(s: State, t: State) {
    && (forall j | j in s.db.alerts :: j in t.db.alerts && t.db.alerts[j] == s.db.alerts[j])
    && (forall j | j in s.db.socialPosts :: j in t.db.socialPosts && t.db.socialPosts[j] == s.db.socialPosts[j])
    && (forall p | p in s.db.jobsOfPost :: p in t.db.jobsOfPost && t.db.jobsOfPost[p] == s.db.jobsOfPost[p])
    && (forall p | p in s.approvals :: p in t.approvals && t.approvals[p].content == s.approvals[p].content)
  }

  ghost predicate CallGrows(before: ProviderCall, after: ProviderCall) {
    after == before.(state := after.state) && (before.state != InFlight ==> after.state == before.state)
  }

  ghost predicate CallsEvolve(s: State, t: State) {
    forall c | c in s.calls :: c in t.calls && CallGrows(s.calls[c], t.calls[c])
  }

  ghost predicate OldOrFreshId(s: State, t: State, j: JobId)
    requires j in t.db.outbox
  {
    (j in s.db.outbox && t.db.outbox[j].queueJobId == s.db.outbox[j].queueJobId)
        || s.db.nextQueueId <= t.db.outbox[j].queueJobId
  }

  ghost predicate IdsEvolve(s: State, t: State) {
    s.db.nextQueueId <= t.db.nextQueueId && forall j | j in t.db.outbox :: OldOrFreshId(s, t, j)
  }

  /** What no step of anybody ever undoes. */
  ghost predicate Evolves(s: State, t: State) {
    && s.now <= t.now && t.idempotent == s.idempotent
    && JobsEvolve(s, t) && RecordsEvolve(s, t) && CallsEvolve(s, t) && IdsEvolve(s, t)
  }

  lemma EvolvesTransitively(s: State, t: State, u: State)
    requires Evolves(s, t) && Evolves(t, u)
    ensures Evolves(s, u)
  {
    assert JobsEvolve(s, u) by {
      forall j | j in s.db.jobs
        ensures j in u.db.jobs && SameIdentity(s.db.jobs[j], u.db.jobs[j])
        ensures SuccessIsFrozen(s.db.jobs[j], u.db.jobs[j])
      {
        assert SuccessIsFrozen(s.db.jobs[j], t.db.jobs[j]) && SuccessIsFrozen(t.db.jobs[j], u.db.jobs[j]);
      }
    }
    assert IdsEvolve(s, u) by {
      forall j | j in u.db.outbox ensures OldOrFreshId(s, u, j) { assert OldOrFreshId(t, u, j); }
    }
  }

  lemma RowStepEvolves(s: State, t: State, j: JobId, w: WorkerId)
    requires RowStep(s, t, j, w)
    ensures Evolves(s, t)
  {
  }

  lemma OneRowEvolves(s: State, t: State, j: JobId, w: WorkerId)
    requires t == Without(s, w) || RowStep(s, t, j, w)
    ensures Evolves(s, t)
  {
    if t != Without(s, w) { RowStepEvolves(s, t, j, w); }
  }

  lemma StatementEvolves(s: State, e: Event)
    requires Inv(s) && Enabled(s, e) && IsRowStatement(e)
    ensures Evolves(s, Next(s, e))
  {
    StatementTouchesOneRow(s, e);
    OneRowEvolves(s, Next(s, e), RowOf(s, e), e.w);
  }

  lemma FailureMovesWorkersOnly(s: State, w: WorkerId, failure: PublishFailure)
    requires w in s.workers
    ensures AfterFailure(s, w, failure) == s.(workers := AfterFailure(s, w, failure).workers)
  {
  }

  lemma MissMovesWorkersOnly(s: State, w: WorkerId)
    requires w in s.workers
    ensures MissStep(s, w) == s.(workers := MissStep(s, w).workers)
  {
    var worker := s.workers[w];
    if worker.phase.Rechecking? { DeferMovesWorkersOnly(s, w, FailedJob(worker.job, worker.phase.failure)); }
    else if worker.job.platform !in s.idempotent { DeferMovesWorkersOnly(s, w, worker.job); }
  }

  lemma DeferMovesWorkersOnly(s: State, w: WorkerId, job: SocialPublishJob)
    requires w in s.workers
    ensures BeginDefer(s, w, job) == s.(workers := BeginDefer(s, w, job).workers)
  {
  }

  lemma LocalMovesWorkersOnly(s: State, e: Event)
    requires Enabled(s, e) && IsLocal(e)
    ensures Next(s, e) == s.(workers := Next(s, e).workers)
  {
    match e {
      case MissPost(w) => MissMovesWorkersOnly(s, w);
      case FailLocally(w, error) => FailureMovesWorkersOnly(s, w, ClassifyPublishFailure(error));
      case ReceiveFailure(w, error) => FailureMovesWorkersOnly(s, w, ClassifyPublishFailure(error));
      case FindPost(_, _) =>
      case ReceiveSuccess(_, _, _) =>
      case Crash(_) =>
    }
  }

  lemma WorkersMoved(s: State, t: State)
    requires t == s.(workers := t.workers)
    ensures Evolves(s, t)
  {
  }

  lemma AnsweredEvolves(s: State, call: CallId, state: CallState)
    requires IsInFlight(s, call)
    ensures Evolves(s, SetCall(s, call, state))
  {
  }

  lemma SentEvolves(s: State, w: WorkerId, call: CallId)
    requires w in s.workers && call !in s.calls
    ensures Evolves(s, SendStep(s, w, call))
  {
  }

  lemma LaterEvolves(s: State, to: Time)
    requires s.now <= to
    ensures Evolves(s, s.(now := to))
  {
  }

  lemma EnvironmentEvolves(s: State, e: Event)
    requires Enabled(s, e) && (e.Accept? || e.Refuse? || e.Tick? || e.Send?)
    ensures Evolves(s, Next(s, e))
  {
    match e {
      case Accept(call, remotePost) => AnsweredEvolves(s, call, Accepted(remotePost));
      case Refuse(call) => AnsweredEvolves(s, call, Refused);
      case Tick(to) => LaterEvolves(s, to);
      case Send(w, call) => SentEvolves(s, w, call);
    }
  }

  lemma TablesGrowEvolve(s: State, t: State)
    requires TablesGrow(s, t) && t.db.alerts == s.db.alerts && t.db.socialPosts == s.db.socialPosts && IdsEvolve(s, t)
    requires forall p | p in s.db.jobsOfPost :: p in t.db.jobsOfPost && t.db.jobsOfPost[p] == s.db.jobsOfPost[p]
    ensures Evolves(s, t)
  {
    forall j | j in s.db.jobs
      ensures j in t.db.jobs && SameIdentity(s.db.jobs[j], t.db.jobs[j]) && SuccessIsFrozen(s.db.jobs[j], t.db.jobs[j])
    {
      assert JobGrows(s, t, j);
    }
  }

  lemma EditedId(s: State, t: State, p: PostId, command: Command, j: JobId)
    requires EditedTo(s, t, p, command) && Shape(s.db) && j in t.db.outbox && j in s.db.jobs
    ensures OldOrFreshId(s, t, j)
  {
    OutboxRowFollows(s, t, p, command, j);
    FollowingId(s, t, j);
  }

  lemma FollowingId(s: State, t: State, j: JobId)
    requires OutboxFollows(s.db, t.db, j) && j in t.db.outbox
    ensures OldOrFreshId(s, t, j)
  {
  }

  lemma EditIds(s: State, t: State, p: PostId, command: Command)
    requires EditedTo(s, t, p, command) && Shape(s.db) && JobsInv(s)
    ensures IdsEvolve(s, t) && t.db.alerts == s.db.alerts && t.db.socialPosts == s.db.socialPosts
    ensures t.db.jobsOfPost == s.db.jobsOfPost
  {
    forall j | j in t.db.outbox ensures OldOrFreshId(s, t, j) { EditedId(s, t, p, command, j); }
  }

  lemma EditEvolves(s: State, e: Event)
    requires Inv(s) && Enabled(s, e) && e.Edit?
    ensures Evolves(s, Next(s, e))
  {
    EditKeepsInv(s, e);
    EditIsStep(s, e);
    EditIds(s, Next(s, e), e.postId, e.command);
    TablesGrowEvolve(s, Next(s, e));
  }

  lemma CreatedTables(s: State, t: State, post: Post, jobs: seq<SocialPublishJob>)
    requires AddsDraftJobs(WithPost(s.db, post), t.db, post.id, jobs) && t == s.(db := t.db)
    requires post.id !in s.db.jobsOfPost
    ensures t.db.alerts == s.db.alerts && t.db.socialPosts == s.db.socialPosts && IdsEvolve(s, t)
    ensures forall p | p in s.db.jobsOfPost :: p in t.db.jobsOfPost && t.db.jobsOfPost[p] == s.db.jobsOfPost[p]
  {
  }

  lemma CreateEvolves(s: State, e: Event)
    requires Inv(s) && Enabled(s, e) && e.Create?
    ensures Evolves(s, Next(s, e))
  {
    CreateKeepsInv(s, e);
    CreateTables(s, e);
    CreatedTables(s, Next(s, e), e.post, e.jobs);
    TablesGrowEvolve(s, Next(s, e));
  }

  lemma DispatchedTables(s: State, t: State)
    requires OnlyDispatch(s, t)
    ensures TablesGrow(s, t) && IdsEvolve(s, t) && t.db.jobsOfPost == s.db.jobsOfPost
  {
  }

  lemma DispatchEvolves(s: State, e: Event)
    requires Inv(s) && Enabled(s, e) && IsDispatch(e)
    ensures Evolves(s, Next(s, e))
  {
    DispatchKeepsInv(s, e);
    DispatchedTables(s, Next(s, e));
    TablesGrowEvolve(s, Next(s, e));
  }

  lemma StepEvolves(s: State, e: Event)
    requires Inv(s) && Enabled(s, e)
    ensures Evolves(s, Next(s, e))
  {
    if IsRowStatement(e) { StatementEvolves(s, e); }
    else if IsDispatch(e) { DispatchEvolves(s, e); }
    else if e.Create? { CreateEvolves(s, e); }
    else if e.Edit? { EditEvolves(s, e); }
    else if IsLocal(e) { LocalMovesWorkersOnly(s, e); WorkersMoved(s, Next(s, e)); }
    else { EnvironmentEvolves(s, e); }
  }

  lemma EvolvesReflexively(s: State)
    ensures Evolves(s, s)
  {
  }

  lemma {:induction false} RunEvolves(s: State, run: seq<Event>)
    requires Inv(s) && IsRun(s, run)
    ensures Evolves(s, Exec(s, run))
    decreases |run|
  {
    if run == [] {
      EvolvesReflexively(s);
    } else {
      var t := Next(s, run[0]);
      StepKeepsInv(s, run[0]);
      StepEvolves(s, run[0]);
      RunEvolves(t, run[1..]);
      EvolvesTransitively(s, t, Exec(t, run[1..]));
    }
  }
}
