/**
 * Each of the three conditions of LeaseTiming is needed: complete runs from the empty
 * database, with the default lease of 30 s, that keep the other two and still post a job
 * twice, post a cancelled job, or send a job before its time.
 */
module BrokenRules {
  import opened Wrappers
  import opened PostEntity
  import opened RetryPolicy
  import opened PublishOutboxRepository
  import opened PublishingService
  import opened PublishProtocol
  import opened GenuineRuns
  import opened AtMostOnce
  import opened Scenes
  import opened Stories

  const NO_LATE_FAILURE: Rules := Rules(false, true, true)
  const NO_LATE_MARK: Rules := Rules(true, false, true)
  const NOTHING_LATE: Rules := Rules(true, true, false)

  const NOWHERE: set<SocialPlatform> := {}
  const ON_THREADS: set<SocialPlatform> := {Threads}

  // The job, scheduled for the time 1.
  const WAITING_ROW: SocialPublishJob := JOB.(scheduledAt := 1)

  function ClaimedUntil(leaseEnd: Time): SocialPublishJob {
    WAITING_ROW.(status := Claimed, leaseExpiresAt := Some(leaseEnd))
  }

  function Requesting(since: Time, leaseEnd: Time): SocialPublishJob {
    WAITING_ROW.(status := RemoteRequesting, leaseExpiresAt := Some(leaseEnd),
                 remoteRequestKey := Some(KeyOf(0)), remoteRequestStartedAt := Some(since))
  }

  // -------------------------------------------------------------- two posts

  lemma TwoAcceptedAreTwoPosts(s: State, v: View)
    requires Shows(s, v) && 0 in v.calls && 1 in v.calls && v.calls[0] == Accepted(0) && v.calls[1] == Accepted(1)
    ensures !OnePostPerJob(s)
  {
    assert IsPostOf(s, 0, 0) && IsPostOf(s, 1, 0);
  }

  /** A plot that ends with two accepted calls is a run that posts twice. */
  lemma PlotPostsTwice(v: View, rules: Rules) returns (run: seq<Event>)
    requires Leads(v, NOWHERE, rules)
    requires 0 in v.calls && 1 in v.calls && v.calls[0] == Accepted(0) && v.calls[1] == Accepted(1)
    ensures IsProperRun(Start(NOWHERE), run, rules) && IsGenuineRun(Start(NOWHERE), run)
    ensures !OnePostPerJob(Exec(Start(NOWHERE), run))
  {
    var tale := PlotIsARun(v, NOWHERE, rules);
    TwoAcceptedAreTwoPosts(tale.end, v);
    run := tale.run;
  }

  // -------------------------------------------------------------- a late mark

  /** Worker 0 has claimed and stalls; worker 1 claims after it and marks. */
  lemma WorkerOneMarks() returns (v: View)
    ensures Leads(v, NOWHERE, NO_LATE_FAILURE)
    ensures v == View(30_001, Requesting(30_001, 60_001),
                      map[0 := Seen(ClaimedUntil(30_001), 30_001, ReadyToMark, false),
                          1 := Seen(Requesting(30_001, 60_001), 60_001, Marked, false)],
                      map[], 2, NOWHERE, Live)
  {
    LeadsFromTheBeginning(NOWHERE, NO_LATE_FAILURE);
    v := And(FirstView(NOWHERE), Acts(IsScheduled(1)), NOWHERE, NO_LATE_FAILURE);
    v := And(v, Waits(1), NOWHERE, NO_LATE_FAILURE);
    v := And(v, Claims(0), NOWHERE, NO_LATE_FAILURE);
    v := And(v, Waits(30_001), NOWHERE, NO_LATE_FAILURE);
    v := And(v, Claims(1), NOWHERE, NO_LATE_FAILURE);
    v := And(v, Marks(1), NOWHERE, NO_LATE_FAILURE);
  }

  lemma WorkerOnePosts() returns (v: View)
    ensures Leads(v, NOWHERE, NO_LATE_FAILURE)
    ensures v == View(30_001, Requesting(30_001, 60_001),
                      map[0 := Seen(ClaimedUntil(30_001), 30_001, ReadyToMark, false),
                          1 := Seen(Requesting(30_001, 60_001), 60_001, AwaitingProvider(0), false)],
                      map[0 := Accepted(0)], 2, NOWHERE, Live)
  {
    v := WorkerOneMarks();
    v := And(v, Sends(1, 0), NOWHERE, NO_LATE_FAILURE);
    v := And(v, ProviderAccepts(0), NOWHERE, NO_LATE_FAILURE);
  }

  /** Worker 2 has claimed the row after the lease, and worker 0 marks at last. */
  lemma WorkerZeroMarksLate() returns (v: View)
    ensures Leads(v, NOWHERE, NO_LATE_FAILURE)
    ensures v.now == 60_001 && v.calls == map[0 := Accepted(0)] && v.idempotent == NOWHERE
    ensures 0 in v.workers && v.workers[0] == Seen(Requesting(30_001, 90_001), 90_001, Marked, false)
  {
    v := WorkerOnePosts();
    v := And(v, Waits(60_001), NOWHERE, NO_LATE_FAILURE);
    v := And(v, Claims(2), NOWHERE, NO_LATE_FAILURE);
    v := And(v, Marks(0), NOWHERE, NO_LATE_FAILURE);
  }

  /**
   * Definite failures are all saved in time, but worker 0 stalls between its claim and its
   * mark: the key that worker 1 left is equal to its own, so the guard lets it write again.
   */
  lemma LateMarkPostsTwice()
    ensures exists run ::
              IsProperRun(Start(NOWHERE), run, NO_LATE_FAILURE) && IsGenuineRun(Start(NOWHERE), run)
              && !OnePostPerJob(Exec(Start(NOWHERE), run))
  {
    var v := WorkerZeroMarksLate();
    v := And(v, Sends(0, 1), NOWHERE, NO_LATE_FAILURE);
    v := And(v, ProviderAccepts(1), NOWHERE, NO_LATE_FAILURE);
    var run := PlotPostsTwice(v, NO_LATE_FAILURE);
  }

  // -------------------------------------------------------------- lookups in vain

  /** A keyed row another worker may look up. */
  predicate IsStranded(v: View, at: Time) {
    && v.now <= at && v.stage.Live? && v.row.id == 0 && v.row.platform == Threads && v.row.remoteRequestKey.Some?
    && v.row.retryCount <= 3 && v.row.scheduledAt <= at
    && v.row.status in {Claimed, RemoteRequesting} && StatusClaimable(v.row, at)
  }

  function LookupView(v: View, w: WorkerId, at: Time): View {
    var row := ClaimedRow(v.row, at, LEASE);
    PutSeen(v.(now := at, row := row), w, Seen(DeferredJob(row), at + LEASE, DeferralPlan(DeferredJob(row), at), true))
  }

  lemma LookupIsSeen(v: View, w: WorkerId, at: Time)
    requires IsStranded(v, at) && v.idempotent == NOWHERE
    ensures var u := ClaimView(v.(now := at), w);
            w in u.workers && Looks(u, w) && MissView(u, w) == LookupView(v, w, at)
  {
    var row := ClaimedRow(v.row, at, LEASE);
    var first := Seen(row, at + LEASE, Reconciling, true);
    var second := Seen(DeferredJob(row), at + LEASE, DeferralPlan(DeferredJob(row), at), true);
    assert v.workers[w := first][w := second] == v.workers[w := second];
  }

  /** Worker w claims a keyed row and finds nothing; it is about to defer. */
  lemma Lookup(u: View, w: WorkerId, at: Time) returns (v: View)
    requires Leads(u, NOWHERE, NO_LATE_MARK) && w !in u.workers && IsStranded(u, at) && u.idempotent == NOWHERE
    ensures Leads(v, NOWHERE, NO_LATE_MARK) && v == LookupView(u, w, at)
  {
    LookupIsSeen(u, w, at);
    v := And(u, Waits(at), NOWHERE, NO_LATE_MARK);
    v := And(v, Claims(w), NOWHERE, NO_LATE_MARK);
    v := And(v, LooksInVain(w), NOWHERE, NO_LATE_MARK);
  }

  function LookedUp(row: SocialPublishJob, nextRetryAt: Time): SocialPublishJob {
    row.(status := RemoteRequesting, errorCode := Some(AmbiguousRemoteOutcome),
        errorMessage := Some(ReconciliationRequired),
         retryCount := row.retryCount + 1, nextRetryAt := Some(nextRetryAt), leaseExpiresAt := None)
  }

  lemma DeferredIsLookedUp(u: View, w: WorkerId, at: Time)
    requires IsStranded(u, at) && IsThreadsRow(u.row) && u.row.retryCount <= 2
    ensures var v := LookupView(u, w, at);
            MayDefer(v, w) && DeferredRow(v, w) == LookedUp(u.row, at + DelayAfter(u.row.retryCount + 1))
  {
  }

  /** Worker 2 claims, finds nothing, and defers. */
  lemma FruitlessLookup(u: View, at: Time) returns (v: View)
    requires Leads(u, NOWHERE, NO_LATE_MARK) && 2 !in u.workers && IsStranded(u, at) && IsThreadsRow(u.row)
    requires u.row.retryCount <= 2 && u.idempotent == NOWHERE
    ensures Leads(v, NOWHERE, NO_LATE_MARK)
    ensures v == u.(now := at, row := LookedUp(u.row, at + DelayAfter(u.row.retryCount + 1)))
  {
    v := Lookup(u, 2, at);
    DeferredIsLookedUp(u, 2, at);
    v := And(v, Defers(2), NOWHERE, NO_LATE_MARK);
    assert v.workers == u.workers;
  }

  // -------------------------------------------------------------- a late failure

  predicate IsPending(v: View, w: WorkerId) {
    w in v.workers && v.workers[w].job.id == 0 && v.workers[w].job.retryCount == 1
        && v.workers[w].phase == Deferring(true, Some(60_001))
  }

  predicate IsFinal(v: View, w: WorkerId) {
    w in v.workers && v.workers[w].job.id == 0 && v.workers[w].job.retryCount == 4
        && v.workers[w].phase == Deferring(false, None)
  }

  predicate IsFresh(v: View, w: WorkerId) {
    && w in v.workers && v.workers[w].phase.ReadyToMark? && v.workers[w].leaseEnd == 870_001 && !v.workers[w].repeats
    && v.workers[w].job.id == 0 && v.workers[w].job.remoteRequestKey.None? && v.workers[w].job.platform == Threads
  }

  /** The place is Threads without idempotent publish, at this time, with these workers. */
  predicate Where(v: View, now: Time, workers: set<WorkerId>) {
    v.idempotent == NOWHERE && v.stage.Live? && v.now == now && v.workers.Keys == workers && IsThreadsRow(v.row)
        && v.row.remotePostId.None?
  }

  /** Worker 1 looks a request up that worker 0 marked and has lost sight of. */
  lemma WorkerOneDefers() returns (v: View)
    ensures Leads(v, NOWHERE, NO_LATE_MARK)
    ensures var marked := Requesting(1, 30_001);
            v == LookupView(View(1, marked, map[0 := Seen(marked, 30_001, Marked, false)], map[], 2, NOWHERE, Live), 1,
                30_001)
  {
    LeadsFromTheBeginning(NOWHERE, NO_LATE_MARK);
    v := And(FirstView(NOWHERE), Acts(IsScheduled(1)), NOWHERE, NO_LATE_MARK);
    v := And(v, Waits(1), NOWHERE, NO_LATE_MARK);
    v := And(v, Claims(0), NOWHERE, NO_LATE_MARK);
    v := And(v, Marks(0), NOWHERE, NO_LATE_MARK);
    assert v
        == View(1, Requesting(1, 30_001), map[0 := Seen(Requesting(1, 30_001), 30_001, Marked, false)], map[], 2,
            NOWHERE, Live);
    v := Lookup(v, 1, 30_001);
  }

  /** Worker 0 may still send, worker 1 may still defer, and the row has seen three failures. */
  predicate ThreeFailures(v: View) {
    && Where(v, 210_001, {0, 1}) && v.calls == map[]
    && v.workers[0] == Seen(Requesting(1, 30_001), 30_001, Marked, false) && IsPending(v, 1)
    && v.row.status == RemoteRequesting && v.row.remoteRequestKey == Some(KeyOf(0)) && v.row.retryCount == 3
    && v.row.nextRetryAt == Some(810_001) && v.row.scheduledAt == 1
  }

  lemma RowFailsThreeTimes() returns (v: View)
    ensures Leads(v, NOWHERE, NO_LATE_MARK) && ThreeFailures(v)
  {
    v := WorkerOneDefers();
    v := FruitlessLookup(v, 60_001);
    v := FruitlessLookup(v, 90_001);
    v := FruitlessLookup(v, 210_001);
  }

  /** Worker 3 holds the row for its fourth, final failure; worker 0 still has its old snapshot. */
  predicate FourthLookup(v: View) {
    && Where(v, 810_001, {0, 1, 3}) && v.calls == map[]
    && v.workers[0] == Seen(Requesting(1, 30_001), 30_001, Marked, false)
    && IsPending(v, 1) && IsFinal(v, 3) && v.row.status == Claimed && v.row.scheduledAt == 1
  }

  lemma WorkerThreeGivesUp() returns (v: View)
    ensures Leads(v, NOWHERE, NO_LATE_MARK) && FourthLookup(v)
  {
    v := RowFailsThreeTimes();
    v := Lookup(v, 3, 810_001);
    assert v.workers.Keys == {0, 1, 3};
  }

  /** Worker 0 has saved a definite failure late, and cleared the key. */
  predicate KeyCleared(v: View) {
    && Where(v, 810_001, {1, 3}) && v.calls == map[] && IsPending(v, 1) && IsFinal(v, 3)
    && v.row.status == Retrying && v.row.remoteRequestKey.None? && v.row.nextRetryAt == Some(840_001)
    && v.row.scheduledAt == 1
  }

  lemma WorkerZeroSavesLate() returns (v: View)
    ensures Leads(v, NOWHERE, NO_LATE_MARK) && KeyCleared(v)
  {
    v := WorkerThreeGivesUp();
    v := And(v, FailsToSend(0), NOWHERE, NO_LATE_MARK);
    v := And(v, SavesFailure(0), NOWHERE, NO_LATE_MARK);
    assert v.workers.Keys == {1, 3};
  }

  /** Worker 4 has claimed the row that lost its key. */
  predicate FirstFreshClaim(v: View) {
    && Where(v, 840_001, {1, 3, 4}) && v.calls == map[] && IsPending(v, 1) && IsFinal(v, 3) && IsFresh(v, 4)
    && v.row.status == Claimed && v.row.remoteRequestKey.None?
  }

  lemma WorkerFourClaims() returns (v: View)
    ensures Leads(v, NOWHERE, NO_LATE_MARK) && FirstFreshClaim(v)
  {
    v := WorkerZeroSavesLate();
    v := And(v, Waits(840_001), NOWHERE, NO_LATE_MARK);
    v := And(v, Claims(4), NOWHERE, NO_LATE_MARK);
    assert v.workers.Keys == {1, 3, 4};
  }

  /** Worker 3 has recorded the final failure over the claim of worker 4. */
  predicate FinallyFailed(v: View) {
    && Where(v, 840_001, {1, 4}) && v.calls == map[] && IsPending(v, 1) && IsFresh(v, 4)
    && v.row.status == Failed && v.row.remoteRequestKey.None? && v.row.leaseExpiresAt.None?
  }

  lemma DeferralIsFinal() returns (v: View)
    ensures Leads(v, NOWHERE, NO_LATE_MARK) && FinallyFailed(v)
  {
    v := WorkerFourClaims();
    v := And(v, Defers(3), NOWHERE, NO_LATE_MARK);
    assert v.workers.Keys == {1, 4};
  }

  /** Workers 4 and 5 both hold an unexpired claim of a row without a key. */
  predicate TwoFreshClaims(v: View) {
    && Where(v, 840_001, {1, 4, 5}) && v.calls == map[] && IsPending(v, 1) && IsFresh(v, 4) && IsFresh(v, 5)
    && v.row.status == Claimed && v.row.remoteRequestKey.None? && v.row.retryCount == 0 && v.row.scheduledAt == 840_001
  }

  lemma JobIsRetried() returns (v: View)
    ensures Leads(v, NOWHERE, NO_LATE_MARK) && TwoFreshClaims(v)
  {
    v := DeferralIsFinal();
    v := And(v, Acts(IsRetried), NOWHERE, NO_LATE_MARK);
    v := And(v, Claims(5), NOWHERE, NO_LATE_MARK);
    assert v.workers.Keys == {1, 4, 5};
  }

  /** Worker 5 has posted; the deferral of worker 1 is still to come. */
  predicate PostedOnce(v: View) {
    && Where(v, 840_001, {1, 4, 5}) && v.calls == map[0 := Accepted(0)] && IsPending(v, 1) && IsFresh(v, 4)
    && v.row.status == RemoteRequesting && v.row.remoteRequestKey == Some(KeyOf(0)) && v.row.scheduledAt == 840_001
    && v.row.retryCount == 0
  }

  lemma WorkerFivePosts() returns (v: View)
    ensures Leads(v, NOWHERE, NO_LATE_MARK) && PostedOnce(v)
  {
    v := JobIsRetried();
    v := And(v, Marks(5), NOWHERE, NO_LATE_MARK);
    v := And(v, Sends(5, 0), NOWHERE, NO_LATE_MARK);
    v := And(v, ProviderAccepts(0), NOWHERE, NO_LATE_MARK);
    assert v.workers.Keys == {1, 4, 5} && v.calls == map[0 := Accepted(0)];
  }

  /** The stale deferral of worker 1 has released the row. */
  predicate Released(v: View) {
    && Where(v, 840_001, {4, 5}) && v.calls == map[0 := Accepted(0)] && IsFresh(v, 4)
    && v.row.status == RemoteRequesting && v.row.remoteRequestKey == Some(KeyOf(0)) && v.row.retryCount == 1
    && v.row.nextRetryAt == Some(60_001) && v.row.scheduledAt == 840_001
  }

  lemma StaleDeferralReleases() returns (v: View)
    ensures Leads(v, NOWHERE, NO_LATE_MARK) && Released(v)
  {
    v := WorkerFivePosts();
    v := And(v, Defers(1), NOWHERE, NO_LATE_MARK);
    assert v.workers.Keys == {4, 5};
  }

  /** Worker 6 has claimed the released row, and worker 4 may mark it. */
  predicate ClaimedAgain(v: View) {
    && Where(v, 840_001, {4, 5, 6}) && v.calls == map[0 := Accepted(0)] && IsFresh(v, 4)
    && v.row.status == Claimed && v.row.remoteRequestKey == Some(KeyOf(0)) && v.row.retryCount == 1
  }

  lemma WorkerSixClaims() returns (v: View)
    ensures Leads(v, NOWHERE, NO_LATE_MARK) && ClaimedAgain(v)
  {
    v := StaleDeferralReleases();
    v := And(v, Claims(6), NOWHERE, NO_LATE_MARK);
    assert v.workers.Keys == {4, 5, 6};
  }

  /**
   * Every new write starts well before its lease expires, but worker 0 saves a definite
   * failure late. So starting writes in time is not enough: the failure clears the key under
   * a deferral that ends in `failed`, the user retries, and two claims are good for a write.
   * The run needs seven deliveries of queue ids that are still current.
   */
  lemma LateFailurePostsTwice()
    ensures exists run ::
              IsProperRun(Start(NOWHERE), run, NO_LATE_MARK) && IsGenuineRun(Start(NOWHERE), run)
              && !OnePostPerJob(Exec(Start(NOWHERE), run))
  {
    var v := WorkerSixClaims();
    v := And(v, Marks(4), NOWHERE, NO_LATE_MARK);
    v := And(v, Sends(4, 1), NOWHERE, NO_LATE_MARK);
    v := And(v, ProviderAccepts(1), NOWHERE, NO_LATE_MARK);
    var run := PlotPostsTwice(v, NO_LATE_MARK);
  }

  // -------------------------------------------------------------- a failure that answers a repeated request

  /** Worker 0 has marked; with a first call, it waits for the provider, or has not called it yet. */
  lemma WorkerZeroMarks() returns (v: View)
    ensures Leads(v, ON_THREADS, NOTHING_LATE)
    ensures v
             == View(1, Requesting(1, 30_001), map[0 := Seen(Requesting(1, 30_001), 30_001, Marked, false)], map[], 2,
                 ON_THREADS, Live)
  {
    LeadsFromTheBeginning(ON_THREADS, NOTHING_LATE);
    v := And(FirstView(ON_THREADS), Acts(IsScheduled(1)), ON_THREADS, NOTHING_LATE);
    v := And(v, Waits(1), ON_THREADS, NOTHING_LATE);
    v := And(v, Claims(0), ON_THREADS, NOTHING_LATE);
    v := And(v, Marks(0), ON_THREADS, NOTHING_LATE);
  }

  /** A worker that may repeat the request of a row whose lease or delay is over. */
  predicate IsRepeatable(v: View, w: WorkerId, call: CallId, at: Time) {
    && v.idempotent == ON_THREADS && v.stage.Live? && v.now <= at && w !in v.workers && call !in v.calls
    && IsThreadsRow(v.row) && v.row.remoteRequestKey == Some(KeyOf(0)) && v.row.retryCount <= 2
    && v.row.scheduledAt <= at
    && v.row.remotePostId.None? && v.row.status == RemoteRequesting && StatusClaimable(v.row, at)
  }

  /** The failure has cleared the key of a row whose first request is still open. */
  predicate IsUnkeyed(u: View, v: View, call: CallId, at: Time) {
    && v.now == at && v.row.status == Failed && v.row.remoteRequestKey.None? && v.row.remotePostId.None?
    && IsThreadsRow(v.row)
    && v.row.scheduledAt == u.row.scheduledAt
    && v.workers == u.workers && v.calls == u.calls[call := Refused]
    && v.revision == u.revision && v.idempotent == u.idempotent && v.stage == u.stage
  }

  function RepeatedRow(row: SocialPublishJob, at: Time): SocialPublishJob {
    row.(status := RemoteRequesting, leaseExpiresAt := Some(at + LEASE), nextRetryAt := None,
         remoteRequestStartedAt := Some(row.remoteRequestStartedAt.GetOr(at)))
  }

  lemma LookupIsRepeated(u: View, w: WorkerId, call: CallId, at: Time) returns (v: View)
    requires Leads(u, ON_THREADS, NOTHING_LATE) && IsRepeatable(u, w, call, at)
    ensures Leads(v, ON_THREADS, NOTHING_LATE)
    ensures var row := ClaimedRow(u.row, at, LEASE);
            v == PutSeen(u.(now := at, row := row), w, Seen(row, at + LEASE, ReadyToMark, true))
  {
    v := And(u, Waits(at), ON_THREADS, NOTHING_LATE);
    v := And(v, Claims(w), ON_THREADS, NOTHING_LATE);
    v := And(v, LooksInVain(w), ON_THREADS, NOTHING_LATE);
  }

  lemma RequestIsMarkedAgain(u: View, w: WorkerId, call: CallId, at: Time) returns (v: View)
    requires Leads(u, ON_THREADS, NOTHING_LATE) && IsRepeatable(u, w, call, at)
    ensures Leads(v, ON_THREADS, NOTHING_LATE)
    ensures var row := RepeatedRow(u.row, at);
            v == PutSeen(u.(now := at, row := row), w, Seen(row, at + LEASE, Marked, true))
  {
    v := LookupIsRepeated(u, w, call, at);
    v := And(v, Marks(w), ON_THREADS, NOTHING_LATE);
  }

  lemma RequestIsRepeated(u: View, w: WorkerId, call: CallId, at: Time) returns (v: View)
    requires Leads(u, ON_THREADS, NOTHING_LATE) && IsRepeatable(u, w, call, at)
    ensures Leads(v, ON_THREADS, NOTHING_LATE)
    ensures var row := RepeatedRow(u.row, at);
            v == PutSeen(u.(now := at, row := row), w,
                Seen(row, at + LEASE, AwaitingProvider(call), true)).(calls := u.calls[call := InFlight])
  {
    v := RequestIsMarkedAgain(u, w, call, at);
    v := And(v, Sends(w, call), ON_THREADS, NOTHING_LATE);
  }

  lemma RefusalIsHeard(u: View, w: WorkerId, call: CallId, at: Time) returns (v: View)
    requires Leads(u, ON_THREADS, NOTHING_LATE) && IsRepeatable(u, w, call, at)
    ensures Leads(v, ON_THREADS, NOTHING_LATE)
    ensures var row := RepeatedRow(u.row, at);
            v == PutSeen(u.(now := at, row := row), w,
                         Seen(FailedJob(row, ClassifyPublishFailure(BAD_REQUEST)), at + LEASE, Failing(false, None),
                             true))
                   .(calls := u.calls[call := Refused])
  {
    v := RequestIsRepeated(u, w, call, at);
    v := And(v, ProviderRefuses(call), ON_THREADS, NOTHING_LATE);
    v := And(v, HearsRefusal(w), ON_THREADS, NOTHING_LATE);
  }

  /** Worker w repeats the request of a marked row as call; it is refused, and the failure is saved at once. */
  lemma RepeatIsRefused(u: View, w: WorkerId, call: CallId, at: Time) returns (v: View)
    requires Leads(u, ON_THREADS, NOTHING_LATE) && IsRepeatable(u, w, call, at)
    ensures Leads(v, ON_THREADS, NOTHING_LATE) && IsUnkeyed(u, v, call, at)
  {
    v := RefusalIsHeard(u, w, call, at);
    v := And(v, SavesFailure(w), ON_THREADS, NOTHING_LATE);
    assert v.workers == u.workers;
  }

  // -------------------------------------------------------------- a cancelled job that is posted

  /** No answer reaches worker 0; it looks the post up in vain and defers. The call stays open. */
  predicate FirstCallIsOpen(v: View) {
    && v.now == 1 && v.workers == map[] && v.calls == map[0 := InFlight] && v.revision == 2
    && v.idempotent == ON_THREADS && v.stage == Live
    && IsThreadsRow(v.row) && v.row.status == RemoteRequesting && v.row.remoteRequestKey == Some(KeyOf(0))
    && v.row.retryCount == 1
    && v.row.nextRetryAt == Some(30_001) && v.row.scheduledAt == 1 && v.row.remotePostId.None?
  }

  lemma WorkerZeroSends() returns (v: View)
    ensures Leads(v, ON_THREADS, NOTHING_LATE)
    ensures v == View(1, Requesting(1, 30_001),
                      map[0 :=
                          Seen(Requesting(1, 30_001), 30_001, Rechecking(ClassifyPublishFailure(NO_ANSWER)), false)],
                      map[0 := InFlight], 2, ON_THREADS, Live)
  {
    v := WorkerZeroMarks();
    v := And(v, Sends(0, 0), ON_THREADS, NOTHING_LATE);
    v := And(v, HearsNothing(0), ON_THREADS, NOTHING_LATE);
  }

  lemma WorkerZeroHearsNothing() returns (v: View)
    ensures Leads(v, ON_THREADS, NOTHING_LATE) && FirstCallIsOpen(v)
  {
    v := WorkerZeroSends();
    v := And(v, LooksInVain(0), ON_THREADS, NOTHING_LATE);
    v := And(v, Defers(0), ON_THREADS, NOTHING_LATE);
    assert v.workers == map[];
  }

  predicate CancelledIsPosted(v: View) {
    v.row.status == Cancelled && 0 in v.calls && v.calls[0] == Accepted(0)
  }

  lemma CancelledPlot() returns (v: View)
    ensures Leads(v, ON_THREADS, NOTHING_LATE) && CancelledIsPosted(v)
  {
    v := WorkerZeroHearsNothing();
    v := RepeatIsRefused(v, 1, 1, 30_001);
    v := And(v, Acts(IsCancelled), ON_THREADS, NOTHING_LATE);
    v := And(v, ProviderAccepts(0), ON_THREADS, NOTHING_LATE);
  }

  /**
   * With idempotent publish, and although nothing is late: the first call gets no answer, its
   * repetition is refused, saving that clears the key, the user cancels, and the provider
   * accepts the first call after all.
   */
  lemma CancelledJobIsPosted()
    ensures exists run ::
              IsProperRun(Start(ON_THREADS), run, NOTHING_LATE) && IsGenuineRun(Start(ON_THREADS), run)
              && var t := Exec(Start(ON_THREADS), run);
                 0 in t.db.jobs && t.db.jobs[0].status == Cancelled && IsPostOf(t, 0, 0)
  {
    var v := CancelledPlot();
    var tale := PlotIsARun(v, ON_THREADS, NOTHING_LATE);
    assert IsPostOf(tale.end, 0, 0);
    assert IsProperRun(Start(ON_THREADS), tale.run, NOTHING_LATE);
  }

  // -------------------------------------------------------------- a job that is sent before its time

  predicate SentTooEarly(v: View) {
    && v.now == 30_001 && v.row.scheduledAt == 1_000_000 && v.row.status == Waiting
    && 0 in v.workers && v.workers[0].phase.Marked? && v.workers[0].job.id == 0 && 1 !in v.calls
  }

  lemma EarlyPlot() returns (v: View)
    ensures Leads(v, ON_THREADS, NOTHING_LATE) && SentTooEarly(v)
  {
    v := WorkerZeroMarks();
    v := RepeatIsRefused(v, 1, 0, 30_001);
    v := And(v, Acts(IsRetried), ON_THREADS, NOTHING_LATE);
    v := And(v, Acts(IsScheduled(1_000_000)), ON_THREADS, NOTHING_LATE);
  }

  /**
   * With idempotent publish, and although nothing is late: worker 0 marks and stalls, worker 1
   * repeats the request and is refused, the user retries the job and schedules it anew, and
   * worker 0 sends it long before the time that now stands in the row.
   */
  lemma JobIsSentBeforeItsTime()
    ensures exists run ::
              IsProperRun(Start(ON_THREADS), run, NOTHING_LATE) && IsGenuineRun(Start(ON_THREADS), run)
              && SendsBeforeItsTime(Exec(Start(ON_THREADS), run), 0, 1)
  {
    var v := EarlyPlot();
    var tale := PlotIsARun(v, ON_THREADS, NOTHING_LATE);
    EarlySend(tale.end, v);
    assert IsProperRun(Start(ON_THREADS), tale.run, NOTHING_LATE);
  }

  ghost predicate SendsBeforeItsTime(s: State, w: WorkerId, call: CallId) {
    && w in s.workers && Enabled(s, Send(w, call))
    && s.workers[w].job.id in s.db.jobs && s.now < s.db.jobs[s.workers[w].job.id].scheduledAt
  }

  lemma EarlySend(s: State, v: View)
    requires Shows(s, v) && SentTooEarly(v)
    ensures SendsBeforeItsTime(s, 0, 1)
  {
  }
}
