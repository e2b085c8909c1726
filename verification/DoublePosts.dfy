/**
 * The condition of AtMostOnce is exact: from every state with the token, a new write that
 * starts while another request of the job is pending can be followed by two posts, and one
 * that starts while none is pending cannot.
 */
module DoublePosts {
  import opened Wrappers
  import opened PostEntity
  import opened RetryPolicy
  import opened Schema
  import opened PostService
  import opened PostRepository
  import opened EditContract
  import opened PublishOutboxRepository
  import opened PublishingService
  import opened PublishProtocol
  import opened GenuineRuns
  import opened ProtocolInvariant
  import opened WorkerSteps
  import opened EditorialSteps
  import opened CreateAndDispatch
  import opened ProtocolSafety
  import opened StepFacts
  import opened AtMostOnce
  import opened PublishGuarantees
  import opened CancelSafety

  // -------------------------------------------------------------- the token at a mark

  /** The step to a new write keeps the token exactly if nothing is pending. */
  lemma MarkKeepsTokenExactly(s: State, w: WorkerId, leaseMs: nat)
    requires Inv(s) && Token(s) && Enabled(s, Mark(w, leaseMs)) && IsNewWrite(s, Mark(w, leaseMs))
    ensures Token(Next(s, Mark(w, leaseMs))) <==> !RequestPending(s, s.workers[w].job.id)
  {
    if RequestPending(s, s.workers[w].job.id) {
      MarkIsSummedUp(s, w, leaseMs);
      PendingBreaksToken(s, Next(s, Mark(w, leaseMs)), w, leaseMs);
    } else {
      StepKeepsToken(s, Mark(w, leaseMs));
    }
  }

  lemma MarkIsSummedUp(s: State, w: WorkerId, leaseMs: nat)
    requires Inv(s) && Enabled(s, Mark(w, leaseMs))
    ensures DoesMark(s, Next(s, Mark(w, leaseMs)), w, leaseMs)
  {
    StepIsSummed(s, Mark(w, leaseMs));
  }

  lemma PendingBreaksToken(s: State, t: State, w: WorkerId, leaseMs: nat)
    requires DoesMark(s, t, w, leaseMs) && IsNewWrite(s, Mark(w, leaseMs)) && RequestPending(s, s.workers[w].job.id)
    ensures !Token(t)
  {
    var j := s.workers[w].job.id;
    assert Holds(t, w) && t.workers[w].job.id == j;
    if c :| OpenCall(s, c) && s.calls[c].jobId == j {
      assert OpenCall(t, c);
    } else {
      var v :| Holds(s, v) && s.workers[v].job.id == j;
      assert v != w && Holds(t, v);
    }
  }

  // -------------------------------------------------------------- runs to two posts

  // What is asked of every new write of a run: that it finds the key NULL, or that nothing is pending.
  datatype Demand = NullKeys | NothingPending

  ghost predicate Meets(s: State, e: Event, d: Demand) {
    match d
    case NullKeys => FindsNullKey(s, e)
    case NothingPending => IsClean(s, e)
  }

  ghost predicate MeetsRun(s: State, run: seq<Event>, d: Demand) {
    match d
    case NullKeys => IsNullKeyRun(s, run)
    case NothingPending => IsCleanRun(s, run)
  }

  /** Some genuine run that meets the demand ends in two posts of one job. */
  ghost predicate CanDouble(s: State, d: Demand) {
    exists run :: MeetsRun(s, run, d) && IsGenuineRun(s, run) && !OnePostPerJob(Exec(s, run))
  }

  lemma DoubledCanDouble(s: State, r: RemoteId, q: RemoteId, j: JobId, d: Demand)
    requires IsPostOf(s, r, j) && IsPostOf(s, q, j) && r != q
    ensures CanDouble(s, d)
  {
    assert MeetsRun(s, [], d) && IsGenuineRun(s, []) && Exec(s, []) == s;
  }

  lemma OneMoreMeets(s: State, e: Event, rest: seq<Event>, d: Demand)
    requires Enabled(s, e) && Meets(s, e, d) && MeetsRun(Next(s, e), rest, d)
    ensures MeetsRun(s, [e] + rest, d)
  {
    assert ([e] + rest)[1..] == rest;
  }

  lemma AfterStepCanDouble(s: State, e: Event, d: Demand)
    requires Enabled(s, e) && Meets(s, e, d) && IsGenuine(s, e) && CanDouble(Next(s, e), d)
    ensures CanDouble(s, d)
  {
    var rest :| MeetsRun(Next(s, e), rest, d) && IsGenuineRun(Next(s, e), rest)
        && !OnePostPerJob(Exec(Next(s, e), rest));
    OneMoreMeets(s, e, rest, d);
    OneMoreIsGenuine(s, e, rest);
  }

  /** A step to state t, from where two posts are two posts from s. */
  lemma StepLeads(s: State, e: Event, d: Demand) returns (t: State)
    requires Inv(s) && Enabled(s, e) && Meets(s, e, d) && IsGenuine(s, e)
    ensures t == Next(s, e) && Inv(t) && IsSummed(s, e, t) && (CanDouble(t, d) ==> CanDouble(s, d))
  {
    t := Next(s, e);
    StepKeepsInv(s, e);
    StepIsSummed(s, e);
    if CanDouble(t, d) { AfterStepCanDouble(s, e, d); }
  }

  /** The same for events that begin no write and are no edit. */
  lemma PlainStepLeads(s: State, e: Event, d: Demand) returns (t: State)
    requires Inv(s) && Enabled(s, e) && !e.Mark? && !e.Edit?
    ensures Inv(t) && IsSummed(s, e, t) && (CanDouble(t, d) ==> CanDouble(s, d))
  {
    t := StepLeads(s, e, d);
  }

  /** Worker w is about to write job j, and nothing will deduplicate it. */
  ghost predicate IsWriter(s: State, w: WorkerId, j: JobId) {
    IsMarked(s, w) && s.workers[w].job.id == j && s.workers[w].job.platform !in s.idempotent
  }

  /** Call c of job j waits for the provider, and nothing will deduplicate it. */
  ghost predicate IsInFlightFor(s: State, c: CallId, j: JobId) {
    IsInFlight(s, c) && s.calls[c].jobId == j && s.calls[c].platform !in s.idempotent
  }

  /** The provider accepts call c: state t, from where two posts are two posts from s. */
  lemma AcceptLeads(s: State, c: CallId, j: JobId, d: Demand) returns (t: State)
    requires Inv(s) && IsInFlightFor(s, c, j)
    ensures Inv(t) && DoesAnswer(s, t, c) && IsPostOf(t, c, j) && (CanDouble(t, d) ==> CanDouble(s, d))
  {
    AcceptPosts(s, c, j);
    t := StepLeads(s, Accept(c, c), d);
  }

  lemma AnswerKeepsPost(s: State, t: State, c: CallId, r: RemoteId, j: JobId)
    requires DoesAnswer(s, t, c) && IsPostOf(s, r, j)
    ensures IsPostOf(t, r, j) && r != c
  {
  }

  lemma AnswerKeepsFlight(s: State, t: State, c: CallId, d: CallId, j: JobId)
    requires DoesAnswer(s, t, c) && IsInFlightFor(s, d, j) && c != d
    ensures IsInFlightFor(t, d, j)
  {
  }

  lemma PostAndFlightCanDouble(s: State, r: RemoteId, c: CallId, j: JobId, d: Demand)
    requires Inv(s) && IsPostOf(s, r, j) && IsInFlightFor(s, c, j)
    ensures CanDouble(s, d)
  {
    var t := AcceptLeads(s, c, j, d);
    AnswerKeepsPost(s, t, c, r, j);
    DoubledCanDouble(t, r, c, j, d);
  }

  lemma TwoFlightsCanDouble(s: State, a: CallId, b: CallId, j: JobId, d: Demand)
    requires Inv(s) && IsInFlightFor(s, a, j) && IsInFlightFor(s, b, j) && a != b
    ensures CanDouble(s, d)
  {
    var t := AcceptLeads(s, a, j, d);
    AnswerKeepsFlight(s, t, a, b, j);
    PostAndFlightCanDouble(t, a, b, j, d);
  }

  /** Worker w sends its request as a call of its own. */
  lemma SendLeads(s: State, w: WorkerId, j: JobId, d: Demand) returns (t: State, n: CallId)
    requires Inv(s) && IsWriter(s, w, j)
    ensures n !in s.calls && Inv(t) && DoesSend(s, t, w, n) && (CanDouble(t, d) ==> CanDouble(s, d))
  {
    n := UnusedCallId(s.calls.Keys);
    t := PlainStepLeads(s, Send(w, n), d);
  }

  lemma SentIsInFlight(s: State, t: State, w: WorkerId, n: CallId, j: JobId)
    requires IsWriter(s, w, j) && DoesSend(s, t, w, n)
    ensures IsInFlightFor(t, n, j) && OpenCall(t, n)
    ensures forall c | c in s.calls :: c in t.calls && t.calls[c] == s.calls[c]
    ensures forall v | v != w && IsWriter(s, v, j) :: IsWriter(t, v, j)
  {
  }

  /** A second write beside a call that was accepted or may be. */
  lemma OpenCallCanDouble(s: State, w: WorkerId, c: CallId, j: JobId, d: Demand)
    requires Inv(s) && IsWriter(s, w, j) && OpenCall(s, c) && s.calls[c].jobId == j
    ensures CanDouble(s, d)
  {
    var t, n := SendLeads(s, w, j, d);
    SentIsInFlight(s, t, w, n, j);
    if s.calls[c].state.Accepted? {
      AcceptedHasPost(s, t, c, j);
      PostAndFlightCanDouble(t, s.calls[c].state.remotePost, n, j, d);
    } else {
      FlightGoesOn(s, t, w, n, c, j);
      TwoFlightsCanDouble(t, c, n, j, d);
    }
  }

  lemma AcceptedHasPost(s: State, t: State, c: CallId, j: JobId)
    requires Inv(s) && c in s.calls && s.calls[c].state.Accepted? && s.calls[c].jobId == j
    requires forall d | d in s.calls :: d in t.calls && t.calls[d] == s.calls[d]
    ensures IsPostOf(t, s.calls[c].state.remotePost, j)
  {
    assert CallInv(s, c);
  }

  lemma FlightGoesOn(s: State, t: State, w: WorkerId, n: CallId, c: CallId, j: JobId)
    requires DoesSend(s, t, w, n) && OpenCall(s, c) && s.calls[c].jobId == j && !s.calls[c].state.Accepted?
    ensures IsInFlightFor(t, c, j) && c != n
  {
  }

  lemma TwoWritersCanDouble(s: State, w: WorkerId, v: WorkerId, j: JobId, d: Demand)
    requires Inv(s) && IsWriter(s, w, j) && IsWriter(s, v, j) && w != v
    ensures CanDouble(s, d)
  {
    var t, n := SendLeads(s, v, j, d);
    SentIsInFlight(s, t, v, n, j);
    OpenCallCanDouble(t, w, n, j, d);
  }

  // -------------------------------------------------------------- a row without a key beside a writer

  /** Worker x may begin a write of row j, which has no key. */
  ghost predicate IsFreshFor(s: State, x: WorkerId, j: JobId) {
    && x in s.workers && s.workers[x].phase.ReadyToMark? && s.workers[x].job.id == j
    && s.workers[x].job.platform !in s.idempotent
    && j in s.db.jobs && s.db.jobs[j].status == Claimed && !HasKey(s, j)
  }

  lemma MarkLeads(s: State, x: WorkerId, j: JobId) returns (t: State)
    requires Inv(s) && IsFreshFor(s, x, j)
    ensures Inv(t) && DoesMark(s, t, x, 0) && (CanDouble(t, NullKeys) ==> CanDouble(s, NullKeys))
  {
    t := StepLeads(s, Mark(x, 0), NullKeys);
  }

  lemma MarkedAreWriters(s: State, t: State, w: WorkerId, x: WorkerId, j: JobId)
    requires DoesMark(s, t, x, 0) && IsWriter(s, w, j) && IsFreshFor(s, x, j)
    ensures IsWriter(t, w, j) && IsWriter(t, x, j) && w != x
  {
  }

  lemma FreshMarkCanDouble(s: State, w: WorkerId, x: WorkerId, j: JobId)
    requires Inv(s) && IsWriter(s, w, j) && IsFreshFor(s, x, j)
    ensures CanDouble(s, NullKeys)
  {
    var t := MarkLeads(s, x, j);
    MarkedAreWriters(s, t, w, x, j);
    TwoWritersCanDouble(t, w, x, j, NullKeys);
  }

  /** The row waits for its time, and its current queue id can be delivered. */
  ghost predicate IsClaimableNow(s: State, j: JobId) {
    && j in s.db.jobs && s.db.jobs[j].status in {Waiting, Retrying} && j in s.db.outbox
    && s.db.outbox[j].queueJobId in s.queue
    && ClaimPublishJob(s.db, s.now, j, 0, Some(s.db.outbox[j].queueJobId)).Updated?
  }

  lemma ClaimLeads(s: State, j: JobId) returns (t: State, x: WorkerId)
    requires Inv(s) && IsClaimableNow(s, j)
    ensures Inv(t) && Fits(t) && Fits(s) && DoesClaim(s, t, x, j, 0)
    ensures CanDouble(t, NullKeys) ==> CanDouble(s, NullKeys)
  {
    x := UnusedCallId(s.workers.Keys);
    t := PlainStepLeads(s, Claim(x, j, 0, Some(s.db.outbox[j].queueJobId)), NullKeys);
    InvFits(s);
    InvFits(t);
  }

  lemma ClaimedIsFresh(s: State, t: State, x: WorkerId, j: JobId, w: WorkerId)
    requires Fits(s) && Fits(t) && DoesClaim(s, t, x, j, 0) && s.db.jobs[j].status in {Waiting, Retrying}
    requires IsWriter(s, w, j)
    ensures IsWriter(t, w, j) && IsFreshFor(t, x, j)
  {
    assert RowFits(s, j) && WorkerFits(t, w) && WorkerFits(t, x);
  }

  lemma ClaimCanDouble(s: State, w: WorkerId, j: JobId)
    requires Inv(s) && IsWriter(s, w, j) && IsClaimableNow(s, j)
    ensures CanDouble(s, NullKeys)
  {
    var t, x := ClaimLeads(s, j);
    ClaimedIsFresh(s, t, x, j, w);
    FreshMarkCanDouble(t, w, x, j);
  }

  // -------------------------------------------------------------- the delivery of a queue id

  /** Only time and the dispatch columns of the outbox moved. */
  ghost predicate IsBeside(s: State, t: State) {
    t.workers == s.workers && t.idempotent == s.idempotent && t.db.jobs == s.db.jobs && s.now <= t.now
  }

  /** A row that waits or is to be retried, in the outbox, beside a writer. */
  ghost predicate IsWaitingRow(s: State, j: JobId) {
    j in s.db.jobs && s.db.jobs[j].status in {Waiting, Retrying} && j in s.db.outbox
  }

  lemma BesideKeeps(s: State, t: State, w: WorkerId, j: JobId)
    requires IsBeside(s, t) && IsWriter(s, w, j) && IsWaitingRow(s, j) && j in t.db.outbox
    ensures IsWriter(t, w, j) && IsWaitingRow(t, j)
  {
  }

  lemma DispatchIsBeside(s: State, e: Event, j: JobId) returns (t: State)
    requires Inv(s) && Enabled(s, e) && IsDispatch(e) && j in s.db.outbox
    ensures t == Next(s, e) && IsBeside(s, t) && t.now == s.now
    ensures j in t.db.outbox && t.db.outbox[j].queueJobId == s.db.outbox[j].queueJobId
  {
    DispatchIsOnly(s, e);
    t := Next(s, e);
  }

  lemma DispatchLeads(s: State, e: Event, j: JobId) returns (t: State)
    requires Inv(s) && Enabled(s, e) && (e.ClaimOutbox? || e.Enqueue?) && j in s.db.outbox
    ensures t == Next(s, e) && Inv(t) && IsBeside(s, t) && t.now == s.now
    ensures CanDouble(t, NullKeys) ==> CanDouble(s, NullKeys)
    ensures j in t.db.outbox && t.db.outbox[j].queueJobId == s.db.outbox[j].queueJobId
  {
    t := DispatchIsBeside(s, e, j);
    t := StepLeads(s, e, NullKeys);
  }

  lemma ClaimOutboxLeads(s: State, j: JobId) returns (t: State, d: DispatcherId)
    requires Inv(s) && Dispatchable(s.db, s.now, j)
    ensures Inv(t) && IsBeside(s, t) && t.now == s.now && (CanDouble(t, NullKeys) ==> CanDouble(s, NullKeys))
    ensures j in t.db.outbox && d in t.dispatchers && t.dispatchers[d].queueJobId == t.db.outbox[j].queueJobId
  {
    d := UnusedCallId(s.dispatchers.Keys);
    t := DispatchLeads(s, ClaimOutbox(d, j, 0), j);
    assert t == ClaimOutboxStep(s, d, j, 0);
  }

  lemma EnqueueLeads(s: State, d: DispatcherId, j: JobId) returns (t: State)
    requires Inv(s) && d in s.dispatchers && j in s.db.outbox
    requires s.dispatchers[d].queueJobId == s.db.outbox[j].queueJobId
    ensures Inv(t) && IsBeside(s, t) && t.now == s.now && (CanDouble(t, NullKeys) ==> CanDouble(s, NullKeys))
    ensures j in t.db.outbox && t.db.outbox[j].queueJobId in t.queue
  {
    t := DispatchLeads(s, Enqueue(d), j);
    assert t == EnqueueStep(s, d, s.dispatchers[d]);
  }

  lemma DeliveredCanDouble(s: State, w: WorkerId, j: JobId)
    requires Inv(s) && IsWriter(s, w, j) && IsWaitingRow(s, j)
    requires WakeUp(s.db.jobs[j]) <= s.now && s.db.outbox[j].queueJobId in s.queue
    ensures CanDouble(s, NullKeys)
  {
    DueIsClaimable(s, j);
    ClaimCanDouble(s, w, j);
  }

  lemma DueIsClaimable(s: State, j: JobId)
    requires Inv(s) && IsWaitingRow(s, j) && WakeUp(s.db.jobs[j]) <= s.now && s.db.outbox[j].queueJobId in s.queue
    ensures IsClaimableNow(s, j)
  {
    WaitingIsPublished(s, j);
    ClaimableFromWakeUp(s, j);
  }

  lemma WaitingIsPublished(s: State, j: JobId)
    requires Inv(s) && IsWaitingRow(s, j)
    ensures s.db.jobs[j].postId in s.db.posts && s.db.posts[s.db.jobs[j].postId].status != DraftPost
  {
    assert JobInv(s, j);
  }

  /** The dispatcher hands the id over, and the row can be claimed. */
  lemma UndeliveredCanDouble(s: State, w: WorkerId, j: JobId)
    requires Inv(s) && IsWriter(s, w, j) && IsWaitingRow(s, j) && WakeUp(s.db.jobs[j]) <= s.now
    requires Dispatchable(s.db, s.now, j)
    ensures CanDouble(s, NullKeys)
  {
    var t, d := ClaimOutboxLeads(s, j);
    BesideKeeps(s, t, w, j);
    var u := EnqueueLeads(t, d, j);
    BesideKeeps(t, u, w, j);
    DeliveredCanDouble(u, w, j);
  }

  lemma TickLeads(s: State, to: Time) returns (t: State)
    requires Inv(s) && s.now <= to
    ensures t == s.(now := to) && Inv(t) && (CanDouble(t, NullKeys) ==> CanDouble(s, NullKeys))
  {
    t := StepLeads(s, Tick(to), NullKeys);
  }

  /** The row's time has come, and its outbox row is handed over or due for dispatch. */
  ghost predicate IsReady(s: State, j: JobId) {
    && IsWaitingRow(s, j) && WakeUp(s.db.jobs[j]) <= s.now
    && (s.db.outbox[j].queueJobId in s.queue || Dispatchable(s.db, s.now, j))
  }

  lemma LateRowIsReady(s: State, j: JobId)
    requires Inv(s) && IsWaitingRow(s, j) && WakeUp(s.db.jobs[j]) <= s.now
    requires s.db.outbox[j].dispatchLeaseExpiresAt.GetOr(0) <= s.now
    ensures IsReady(s, j)
  {
    HandOffFacts(s, j, j);
  }

  lemma WaitLeads(s: State, j: JobId) returns (t: State)
    requires Inv(s) && IsWaitingRow(s, j)
    ensures Inv(t) && IsBeside(s, t) && IsReady(t, j) && (CanDouble(t, NullKeys) ==> CanDouble(s, NullKeys))
  {
    t := TickLeads(s, Later(s.now, Later(WakeUp(s.db.jobs[j]), s.db.outbox[j].dispatchLeaseExpiresAt.GetOr(0))));
    LateRowIsReady(t, j);
  }

  /** Time passes, the queue id is delivered, and the row is claimed. */
  lemma WaitingCanDouble(s: State, w: WorkerId, j: JobId)
    requires Inv(s) && IsWriter(s, w, j) && IsWaitingRow(s, j)
    ensures CanDouble(s, NullKeys)
  {
    var t := WaitLeads(s, j);
    BesideKeeps(s, t, w, j);
    if t.db.outbox[j].queueJobId in t.queue { DeliveredCanDouble(t, w, j); } else { UndeliveredCanDouble(t, w, j); }
  }

  // -------------------------------------------------------------- a failure beside a writer

  lemma OneJobOfTheId(s: State, p: PostId, j: JobId, job: SocialPublishJob)
    requires Inv(s) && Readable(s.db, p) && job in ReadRecord(s.db, p).jobs && job.id == j
    ensures j in s.db.jobs && job == s.db.jobs[j]
  {
    var i :| 0 <= i < |s.db.jobsOfPost[p]| && ReadRecord(s.db, p).jobs[i] == job;
    assert JobInv(s, s.db.jobsOfPost[p][i]);
  }

  lemma ListedInRecord(db: Db, p: PostId, j: JobId)
    requires Readable(db, p) && j in db.jobsOfPost[p]
    ensures db.jobs[j] in ReadRecord(db, p).jobs
  {
    var i :| 0 <= i < |db.jobsOfPost[p]| && db.jobsOfPost[p][i] == j;
    assert ReadRecord(db, p).jobs[i] == db.jobs[j];
  }

  lemma RetryApplies(r: PostRecord, job: SocialPublishJob, retriedAt: Time)
    requires job in r.jobs && job.status == Failed && job.remoteRequestKey.None? && job.remotePostId.None?
    requires forall other | other in r.jobs && other.id == job.id :: other == job
    ensures Apply(Retry(job.id, r.post.revision, retriedAt), r).Success?
  {
  }

  lemma FailedHasFacts(s: State, j: JobId)
    requires Inv(s) && j in s.db.jobs && s.db.jobs[j].status == Failed
    ensures s.db.jobs[j].id == j && s.db.jobs[j].remotePostId.None? && Readable(s.db, s.db.jobs[j].postId)
    ensures j in s.db.jobsOfPost[s.db.jobs[j].postId]
  {
    assert JobInv(s, j);
    ShapeIsReadable(s.db, s.db.jobs[j].postId);
  }

  /** The user may retry a job that has failed for certain. */
  lemma RetryIsPossible(s: State, j: JobId)
    requires Inv(s) && j in s.db.jobs && s.db.jobs[j].status == Failed && !HasKey(s, j)
    ensures var p := s.db.jobs[j].postId;
            p in s.db.posts && IsAccepted(s.db, p, s.db.posts[p].ownerId, Retry(j, s.db.posts[p].revision, s.now))
  {
    var p := s.db.jobs[j].postId;
    FailedHasFacts(s, j);
    ListedInRecord(s.db, p, j);
    forall job | job in ReadRecord(s.db, p).jobs && job.id == j
      ensures job == s.db.jobs[j]
    {
      OneJobOfTheId(s, p, j, job);
    }
    RetryApplies(ReadRecord(s.db, p), s.db.jobs[j], s.now);
  }

  lemma RetriedWaits(s: State, t: State, p: PostId, command: Command, j: JobId)
    requires Inv(s) && Inv(t) && EditedTo(s, t, p, command) && command.Retry? && command.jobId == j
    ensures IsWaitingRow(t, j)
  {
    assert IsEditedJob(s.db, t.db, p, command, j);
    assert JobInv(s, j) && JobInv(t, j);
  }

  lemma RetryLeads(s: State, j: JobId) returns (t: State)
    requires Inv(s) && j in s.db.jobs && s.db.jobs[j].status == Failed && !HasKey(s, j)
    ensures Inv(t) && IsWaitingRow(t, j) && t.workers == s.workers && t.idempotent == s.idempotent
    ensures CanDouble(t, NullKeys) ==> CanDouble(s, NullKeys)
  {
    var p := s.db.jobs[j].postId;
    RetryIsPossible(s, j);
    var command := Retry(j, s.db.posts[p].revision, s.now);
    var e := Transaction(s, p, s.db.posts[p].ownerId, command);
    TransactionIsEnabled(s, p, s.db.posts[p].ownerId, command);
    t := StepLeads(s, e, NullKeys);
    RetriedWaits(s, t, p, command, j);
  }

  lemma FailedCanDouble(s: State, w: WorkerId, j: JobId)
    requires Inv(s) && IsWriter(s, w, j) && j in s.db.jobs && s.db.jobs[j].status == Failed && !HasKey(s, j)
    ensures CanDouble(s, NullKeys)
  {
    var t := RetryLeads(s, j);
    WaitingCanDouble(t, w, j);
  }

  /** Worker v is about to save a definite failure of job j. */
  ghost predicate IsFailer(s: State, v: WorkerId, j: JobId) {
    && v in s.workers && s.workers[v].phase.Failing? && s.workers[v].job.id == j
    && j in s.db.jobs && s.db.jobs[j].status == RemoteRequesting
  }

  lemma FailureIsStored(s: State, v: WorkerId, j: JobId)
    requires Local(s, v) && IsFailer(s, v, j)
    ensures var t := FailStep(s, v);
            && j in t.db.jobs && t.db.jobs[j].status in {Retrying, Failed} && t.db.jobs[j].remoteRequestKey.None?
  {
    FailureIsAccepted(s, v);
  }

  lemma FailingCanBeSaved(s: State, v: WorkerId, j: JobId)
    requires Inv(s) && IsFailer(s, v, j)
    ensures Enabled(s, Fail(v))
    ensures var t := Next(s, Fail(v));
            j in t.db.jobs && t.db.jobs[j].status in {Retrying, Failed} && !HasKey(t, j)
  {
    LocalFacts(s, v);
    FailureIsStored(s, v, j);
  }

  lemma FailLeads(s: State, v: WorkerId, j: JobId) returns (t: State)
    requires Inv(s) && IsFailer(s, v, j)
    ensures Inv(t) && DoesFail(s, t, v) && (CanDouble(t, NullKeys) ==> CanDouble(s, NullKeys))
    ensures j in t.db.jobs && t.db.jobs[j].status in {Retrying, Failed} && !HasKey(t, j)
  {
    FailingCanBeSaved(s, v, j);
    t := StepLeads(s, Fail(v), NullKeys);
  }

  lemma FailKeepsWriter(s: State, t: State, v: WorkerId, w: WorkerId, j: JobId)
    requires DoesFail(s, t, v) && IsWriter(s, w, j) && v != w
    ensures IsWriter(t, w, j)
  {
  }

  lemma RetryingIsQueued(s: State, j: JobId)
    requires Inv(s) && j in s.db.jobs && s.db.jobs[j].status == Retrying
    ensures IsWaitingRow(s, j)
  {
    assert JobInv(s, j);
  }

  lemma FailerCanDouble(s: State, w: WorkerId, v: WorkerId, j: JobId)
    requires Inv(s) && IsWriter(s, w, j) && IsFailer(s, v, j) && v != w
    ensures CanDouble(s, NullKeys)
  {
    var t := FailLeads(s, v, j);
    FailKeepsWriter(s, t, v, w, j);
    if t.db.jobs[j].status == Retrying {
      RetryingIsQueued(t, j);
      WaitingCanDouble(t, w, j);
    } else {
      FailedCanDouble(t, w, j);
    }
  }

  /** Worker v waits for a call that the provider has refused for good. */
  ghost predicate IsRefusedHolder(s: State, v: WorkerId, j: JobId) {
    && IsAwaiting(s, v) && AnswerTo(s, v) == Refused && s.workers[v].job.id == j
    && j in s.db.jobs && s.db.jobs[j].status == RemoteRequesting
  }

  lemma RefusalIsFinal(s: State, v: WorkerId)
    requires v in s.workers
    ensures var failure := ClassifyPublishFailure(HttpStatus(400, ""));
            AfterFailure(s, v, failure)
                == PutWorker(s, v, Goes(s.workers[v], FailedJob(s.workers[v].job, failure), Failing(false, None)))
  {
  }

  lemma RefusedIsFailer(s: State, t: State, v: WorkerId, failed: SocialPublishJob, j: JobId)
    requires v in s.workers && t == PutWorker(s, v, Goes(s.workers[v], failed, Failing(false, None))) && failed.id == j
    requires j in s.db.jobs && s.db.jobs[j].status == RemoteRequesting
    ensures OnlyWorker(s, t, v) && t.idempotent == s.idempotent && IsFailer(t, v, j)
  {
  }

  lemma RefusalIsFailer(s: State, v: WorkerId, j: JobId)
    requires IsRefusedHolder(s, v, j)
    ensures Enabled(s, ReceiveFailure(v, HttpStatus(400, "")))
    ensures var t := Next(s, ReceiveFailure(v, HttpStatus(400, "")));
            OnlyWorker(s, t, v) && t.idempotent == s.idempotent && IsFailer(t, v, j)
  {
    RefusalIsFinal(s, v);
    RefusedIsFailer(s, Next(s, ReceiveFailure(v, HttpStatus(400, ""))), v,
        FailedJob(s.workers[v].job, ClassifyPublishFailure(HttpStatus(400, ""))), j);
  }

  lemma RefusalLeads(s: State, v: WorkerId, j: JobId) returns (t: State)
    requires Inv(s) && IsRefusedHolder(s, v, j)
    ensures Inv(t) && OnlyWorker(s, t, v) && t.idempotent == s.idempotent && IsFailer(t, v, j)
    ensures CanDouble(t, NullKeys) ==> CanDouble(s, NullKeys)
  {
    RefusalIsFailer(s, v, j);
    t := StepLeads(s, ReceiveFailure(v, HttpStatus(400, "")), NullKeys);
  }

  lemma RefusedHolderCanDouble(s: State, w: WorkerId, v: WorkerId, j: JobId)
    requires Inv(s) && IsWriter(s, w, j) && IsRefusedHolder(s, v, j) && v != w
    ensures CanDouble(s, NullKeys)
  {
    var t := RefusalLeads(s, v, j);
    FailerCanDouble(t, w, v, j);
  }

  // -------------------------------------------------------------- every case of a pending request

  lemma HolderCanDouble(s: State, w: WorkerId, v: WorkerId, j: JobId)
    requires Inv(s) && IsWriter(s, w, j) && Holds(s, v) && s.workers[v].job.id == j && v != w
    requires j in s.db.jobs && s.db.jobs[j].status == RemoteRequesting
    ensures CanDouble(s, NullKeys)
  {
    InitFitsHolder(s, v);
    match s.workers[v].phase {
      case Marked => TwoWritersCanDouble(s, w, v, j, NullKeys);
      case AwaitingProvider(c) =>
        if s.calls[c].state == Refused {
          RefusedHolderCanDouble(s, w, v, j);
        } else {
          OpenCallCanDouble(s, w, c, j, NullKeys);
        }
      case Failing(_, _) => FailerCanDouble(s, w, v, j);
    }
  }

  /** A call somebody waits for is a call of that worker's job. */
  lemma InitFitsHolder(s: State, v: WorkerId)
    requires Inv(s) && Holds(s, v)
    ensures s.workers[v].phase.AwaitingProvider? ==>
              var c := s.workers[v].phase.call;
              IsAwaiting(s, v) && s.calls[c].jobId == s.workers[v].job.id && s.calls[c].platform !in s.idempotent
  {
    InvFits(s);
    assert WorkerFits(s, v);
    if s.workers[v].phase.AwaitingProvider? { assert CallFits(s, s.workers[v].phase.call); }
  }

  lemma MarkedIsWriter(s: State, t: State, w: WorkerId, leaseMs: nat, j: JobId)
    requires DoesMark(s, t, w, leaseMs) && IsNewWrite(s, Mark(w, leaseMs)) && s.workers[w].job.id == j
    ensures IsWriter(t, w, j) && j in t.db.jobs && t.db.jobs[j].status == RemoteRequesting && !Holds(s, w)
    ensures forall c :: OpenCall(s, c) ==> OpenCall(t, c) && t.calls[c].jobId == s.calls[c].jobId
    ensures forall v | v != w && Holds(s, v) :: Holds(t, v) && t.workers[v].job.id == s.workers[v].job.id
  {
  }

  lemma PendingCanDouble(s: State, t: State, w: WorkerId, leaseMs: nat)
    requires Inv(t) && DoesMark(s, t, w, leaseMs) && IsNewWrite(s, Mark(w, leaseMs))
    requires RequestPending(s, s.workers[w].job.id)
    ensures CanDouble(t, NullKeys)
  {
    var j := s.workers[w].job.id;
    MarkedIsWriter(s, t, w, leaseMs, j);
    if c :| OpenCall(s, c) && s.calls[c].jobId == j {
      OpenCallCanDouble(t, w, c, j, NullKeys);
    } else {
      var v :| Holds(s, v) && s.workers[v].job.id == j;
      HolderCanDouble(t, w, v, j);
    }
  }

  lemma CleanStateCannotDouble(t: State)
    requires Inv(t) && Token(t)
    ensures !CanDouble(t, NullKeys)
  {
    forall run | IsNullKeyRun(t, run) ensures OnePostPerJob(Exec(t, run)) {
      NullKeyRunIsClean(t, run);
      CleanRunKeepsToken(t, run);
      TokenMeansOnePost(Exec(t, run));
    }
  }

  /**
   * The exact condition, from every state with the token: a new write can be followed by two
   * posts of one job, although every later new write finds its key NULL, if and only if another
   * request of the job was accepted, may be accepted, is about to be sent or failed unsaved.
   */
  lemma NewWriteCanDoubleExactly(s: State, w: WorkerId, leaseMs: nat)
    requires Inv(s) && Token(s) && Enabled(s, Mark(w, leaseMs)) && IsNewWrite(s, Mark(w, leaseMs))
    ensures CanDouble(Next(s, Mark(w, leaseMs)), NullKeys) <==> RequestPending(s, s.workers[w].job.id)
  {
    var t := Next(s, Mark(w, leaseMs));
    StepKeepsInv(s, Mark(w, leaseMs));
    MarkIsSummedUp(s, w, leaseMs);
    if RequestPending(s, s.workers[w].job.id) {
      PendingCanDouble(s, t, w, leaseMs);
    } else {
      StepKeepsToken(s, Mark(w, leaseMs));
      CleanStateCannotDouble(t);
    }
  }

  // -------------------------------------------------------------- the same for the stricter demand

  /** A request of job j was accepted, may be accepted, or is about to be sent. */
  ghost predicate WriteStarted(s: State, j: JobId) {
    (exists c :: OpenCall(s, c) && s.calls[c].jobId == j) || (exists v :: IsWriter(s, v, j))
  }

  /** At most one such request a job; an unsaved failure may stand beside it. */
  ghost predicate OneWrite(s: State) {
    && (forall v, w, j | IsWriter(s, v, j) && IsWriter(s, w, j) :: v == w)
    && OneOpenCall(s)
    && (forall w, c, j | IsWriter(s, w, j) && OpenCall(s, c) :: s.calls[c].jobId != j)
  }

  /** Nobody begins a write and no call appears. */
  ghost predicate StartsNothing(s: State, t: State) {
    && (forall w, j | IsWriter(t, w, j) :: IsWriter(s, w, j))
    && (forall c | OpenCall(t, c) :: OpenCall(s, c) && t.calls[c].jobId == s.calls[c].jobId)
  }

  lemma StartingNothingKeepsOneWrite(s: State, t: State)
    requires OneWrite(s) && StartsNothing(s, t)
    ensures OneWrite(t)
  {
  }

  lemma StatementStartsNothing(s: State, t: State, w: WorkerId, j: JobId)
    requires Statement(s, t, w, j)
    requires w in t.workers ==> !t.workers[w].phase.Marked? || t.workers[w].job.platform in t.idempotent
    ensures StartsNothing(s, t)
  {
  }

  lemma MarkKeepsOneWrite(s: State, t: State, w: WorkerId, leaseMs: nat)
    requires OneWrite(s) && DoesMark(s, t, w, leaseMs)
    requires IsNewWrite(s, Mark(w, leaseMs)) ==> !WriteStarted(s, s.workers[w].job.id)
    ensures OneWrite(t)
  {
    if IsNewWrite(s, Mark(w, leaseMs)) {
      forall v, j | IsWriter(t, v, j) && v != w
        ensures IsWriter(s, v, j) && j != s.workers[w].job.id
      {
        assert IsWriter(s, v, j);
      }
      forall c | OpenCall(t, c) ensures OpenCall(s, c) && t.calls[c].jobId != s.workers[w].job.id {}
    } else {
      StatementStartsNothing(s, t, w, s.workers[w].job.id);
      StartingNothingKeepsOneWrite(s, t);
    }
  }

  lemma SendKeepsOneWrite(s: State, t: State, w: WorkerId, c: CallId)
    requires OneWrite(s) && DoesSend(s, t, w, c)
    ensures OneWrite(t)
  {
    var j := s.workers[w].job.id;
    forall v, k | IsWriter(t, v, k)
      ensures v != w && IsWriter(s, v, k) && (IsWriter(s, w, j) ==> k != j)
    {
      assert IsWriter(s, v, k);
    }
    forall b | OpenCall(t, b) && b != c ensures OpenCall(s, b) && (IsWriter(s, w, j) ==> t.calls[b].jobId != j) {}
  }

  lemma RowStatementKeepsOneWrite(s: State, e: Event, t: State)
    requires OneWrite(s) && IsRowStatement(e) && !e.Mark? && StatementSummed(s, e, t)
    ensures OneWrite(t)
  {
    match e {
      case Claim(w, j, _, _) => StatementStartsNothing(s, t, w, j);
      case Confirm(w) => StatementStartsNothing(s, t, w, JobOf(s, w));
      case Finish(w) => StatementStartsNothing(s, t, w, JobOf(s, w));
      case Defer(w) => StatementStartsNothing(s, t, w, JobOf(s, w));
      case Fail(w) => StatementStartsNothing(s, t, w, JobOf(s, w));
    }
    StartingNothingKeepsOneWrite(s, t);
  }

  lemma OtherStepStartsNothing(s: State, e: Event, t: State)
    requires IsSummed(s, e, t) && !IsRowStatement(e) && !e.Send?
    ensures StartsNothing(s, t)
  {
  }

  lemma CleanIsNotStarted(s: State, e: Event)
    requires IsClean(s, e) && IsNewWrite(s, e)
    ensures !WriteStarted(s, s.workers[e.w].job.id)
  {
    assert forall v, j :: IsWriter(s, v, j) ==> Holds(s, v);
  }

  lemma SummedKeepsOneWrite(s: State, e: Event, t: State)
    requires OneWrite(s) && IsSummed(s, e, t) && IsClean(s, e)
    ensures OneWrite(t)
  {
    if e.Mark? {
      if IsNewWrite(s, e) { CleanIsNotStarted(s, e); }
      MarkKeepsOneWrite(s, t, e.w, e.leaseMs);
    } else if IsRowStatement(e) {
      RowStatementKeepsOneWrite(s, e, t);
    } else if e.Send? {
      SendKeepsOneWrite(s, t, e.w, e.call);
    } else {
      OtherStepStartsNothing(s, e, t);
      StartingNothingKeepsOneWrite(s, t);
    }
  }

  lemma {:induction false} CleanRunKeepsOneWrite(s: State, run: seq<Event>)
    requires Inv(s) && OneWrite(s) && IsCleanRun(s, run)
    ensures Inv(Exec(s, run)) && OneWrite(Exec(s, run))
    decreases |run|
  {
    if run != [] {
      StepKeepsInv(s, run[0]);
      StepIsSummed(s, run[0]);
      SummedKeepsOneWrite(s, run[0], Next(s, run[0]));
      CleanRunKeepsOneWrite(Next(s, run[0]), run[1..]);
    }
  }

  lemma OneWriteMeansOnePost(s: State)
    requires Inv(s) && OneWrite(s)
    ensures OnePostPerJob(s)
  {
    forall r, q, j | IsPostOf(s, r, j) && IsPostOf(s, q, j) ensures r == q {
      assert CallInv(s, r) && CallInv(s, q);
      if s.calls[r].platform !in s.idempotent { assert OpenCall(s, r) && OpenCall(s, q); }
    }
  }

  lemma TokenIsOneWrite(s: State)
    requires Token(s)
    ensures OneWrite(s)
  {
    forall v, w, j | IsWriter(s, v, j) && IsWriter(s, w, j) ensures v == w { assert Holds(s, v) && Holds(s, w); }
    forall w, c, j | IsWriter(s, w, j) && OpenCall(s, c) ensures s.calls[c].jobId != j { assert Holds(s, w); }
  }

  lemma OneWriteCannotDouble(t: State)
    requires Inv(t) && OneWrite(t)
    ensures !CanDouble(t, NothingPending)
  {
    forall run | IsCleanRun(t, run) ensures OnePostPerJob(Exec(t, run)) {
      CleanRunKeepsOneWrite(t, run);
      OneWriteMeansOnePost(Exec(t, run));
    }
  }

  lemma StartedCanDouble(s: State, t: State, w: WorkerId, leaseMs: nat)
    requires Inv(t) && DoesMark(s, t, w, leaseMs) && IsNewWrite(s, Mark(w, leaseMs))
    requires WriteStarted(s, s.workers[w].job.id)
    ensures CanDouble(t, NothingPending)
  {
    var j := s.workers[w].job.id;
    MarkedIsWriter(s, t, w, leaseMs, j);
    if c :| OpenCall(s, c) && s.calls[c].jobId == j {
      OpenCallCanDouble(t, w, c, j, NothingPending);
    } else {
      var v :| IsWriter(s, v, j);
      OtherWriterStays(s, t, w, v, j, leaseMs);
      TwoWritersCanDouble(t, w, v, j, NothingPending);
    }
  }

  lemma OtherWriterStays(s: State, t: State, w: WorkerId, v: WorkerId, j: JobId, leaseMs: nat)
    requires DoesMark(s, t, w, leaseMs) && IsWriter(s, v, j)
    ensures v != w && IsWriter(t, v, j)
  {
  }

  /**
   * The same where every later new write starts only while nothing is pending: then an unsaved
   * failure beside the new write does no harm, and what counts are started requests alone.
   */
  lemma NewWriteCanDoubleAmongCleanOnes(s: State, w: WorkerId, leaseMs: nat)
    requires Inv(s) && Token(s) && Enabled(s, Mark(w, leaseMs)) && IsNewWrite(s, Mark(w, leaseMs))
    ensures CanDouble(Next(s, Mark(w, leaseMs)), NothingPending) <==> WriteStarted(s, s.workers[w].job.id)
  {
    var t := Next(s, Mark(w, leaseMs));
    StepKeepsInv(s, Mark(w, leaseMs));
    MarkIsSummedUp(s, w, leaseMs);
    if WriteStarted(s, s.workers[w].job.id) {
      StartedCanDouble(s, t, w, leaseMs);
    } else {
      TokenIsOneWrite(s);
      MarkKeepsOneWrite(s, t, w, leaseMs);
      OneWriteCannotDouble(t);
    }
  }
}
