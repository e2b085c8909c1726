/**
 * Publishing and the delivery of its alerts at the same time, over one table of alerts: every
 * interleaved run keeps the protocol's invariant, and is a run of the delivery as well, so what
 * FailureAlerts proves holds of the whole system.
 */
module AlertDelivery {
  import opened Wrappers
  import opened PostEntity
  import opened Schema
  import opened PostService
  import opened PublishOutboxRepository
  import opened PublishProtocol
  import opened ProtocolInvariant
  import opened WorkerSteps
  import opened EditorialSteps
  import opened CreateAndDispatch
  import opened ProtocolSafety
  import FailureAlerts

  datatype System = System(publishing: State, dispatchers: map<nat, FailureAlerts.AlertDispatcher>,
      acknowledged: set<JobId>)

  datatype SystemEvent = Publishing(e: Event) | Delivering(f: FailureAlerts.AlertEvent)

  /** What the delivery sees of the system. */
  function AlertsOf(x: System): FailureAlerts.AlertState {
    FailureAlerts.AlertState(x.publishing.now, x.publishing.db.alerts, x.dispatchers, x.acknowledged)
  }

  function WithAlerts(s: State, alerts: map<JobId, AlertRow>): State {
    s.(db := s.db.(alerts := alerts))
  }

  /** Time passes and alerts appear by events of the protocol alone. */
  ghost predicate Possible(x: System, v: SystemEvent) {
    match v
    case Publishing(e) => Enabled(x.publishing, e)
    case Delivering(f) => !f.Advance? && !f.Raise? && FailureAlerts.Allowed(AlertsOf(x), f)
  }

  ghost function Then(x: System, v: SystemEvent): System
    requires Possible(x, v)
  {
    match v
    case Publishing(e) => x.(publishing := Next(x.publishing, e))
    case Delivering(f) =>
      var a := FailureAlerts.Proceed(AlertsOf(x), f);
      System(WithAlerts(x.publishing, a.alerts), a.dispatchers, a.acknowledged)
  }

  ghost predicate IsSystemRun(x: System, run: seq<SystemEvent>)
    decreases |run|
  {
    run == [] || (Possible(x, run[0]) && IsSystemRun(Then(x, run[0]), run[1..]))
  }

  ghost function Final(x: System, run: seq<SystemEvent>): System
    requires IsSystemRun(x, run)
    decreases |run|
  {
    if run == [] then x else Final(Then(x, run[0]), run[1..])
  }

  ghost predicate Begins(x: System) {
    Init(x.publishing) && x.dispatchers == map[] && x.acknowledged == {}
  }

  // -------------------------------------------------------------- the delivery leaves the protocol alone

  /** The same alerts; of each, what the delivery does not write is as before. */
  ghost predicate SameAlerts(before: map<JobId, AlertRow>, after: map<JobId, AlertRow>) {
    after.Keys == before.Keys && forall j | j in before :: after[j].retryCount == before[j].retryCount
  }

  lemma DeliveredJob(s: State, alerts: map<JobId, AlertRow>, j: JobId)
    requires j in s.db.jobs && JobInv(s, j) && SameAlerts(s.db.alerts, alerts)
    ensures JobInv(WithAlerts(s, alerts), j)
  {
  }

  lemma DeliveredPosts(s: State, alerts: map<JobId, AlertRow>)
    requires Shape(s.db) && PostsInv(s) && SameAlerts(s.db.alerts, alerts)
    ensures Shape(WithAlerts(s, alerts).db) && PostsInv(WithAlerts(s, alerts))
  {
    var t := WithAlerts(s, alerts);
    assert Shape(t.db) by {
      forall p | p in t.db.posts ensures t.db.posts[p].id == p && IndexOk(t.db, p) { assert IndexOk(s.db, p); }
    }
    forall p | p in t.db.posts ensures PostInv(t, p) { assert PostInv(s, p); }
  }

  lemma DeliveredWorkers(s: State, alerts: map<JobId, AlertRow>)
    requires WorkersInv(s) && CallsInv(s) && ProviderInv(s) && HandOffInv(s)
    ensures var t := WithAlerts(s, alerts); WorkersInv(t) && CallsInv(t) && ProviderInv(t) && HandOffInv(t)
  {
    var t := WithAlerts(s, alerts);
    forall w | w in t.workers ensures WorkerInv(t, w) { assert WorkerInv(s, w); }
    forall c | c in t.calls ensures CallInv(t, c) { assert CallInv(s, c); }
  }

  lemma DeliveryKeepsInv(s: State, alerts: map<JobId, AlertRow>)
    requires Inv(s) && SameAlerts(s.db.alerts, alerts)
    ensures Inv(WithAlerts(s, alerts))
  {
    var t := WithAlerts(s, alerts);
    DeliveredPosts(s, alerts);
    DeliveredWorkers(s, alerts);
    assert JobsInv(t) by {
      forall j | j in t.db.jobs ensures JobInv(t, j) { assert JobInv(s, j); DeliveredJob(s, alerts, j); }
    }
  }

  lemma DeliveryKeepsAlerts(a: FailureAlerts.AlertState, f: FailureAlerts.AlertEvent)
    requires FailureAlerts.Allowed(a, f) && !f.Raise?
    ensures SameAlerts(a.alerts, FailureAlerts.Proceed(a, f).alerts)
  {
  }

  // -------------------------------------------------------------- what publishing does to the alerts

  /** At most one alert appears, as the delivery expects a new one. */
  ghost predicate Raises(s: State, t: State, j: JobId) {
    || t.db.alerts == s.db.alerts
    || (j in t.db.alerts && j !in s.db.alerts && t.db.alerts == s.db.alerts[j := t.db.alerts[j]]
        && FailureAlerts.IsNewAlert(t.db.alerts[j], s.now))
  }

  lemma UpdateRaisesNothing(db: Db, j: JobId, row: SocialPublishJob)
    requires j in db.jobs
    ensures UpdateJob(db, j, row).alerts == db.alerts
  {
    TriggerTouchesOutboxOnly(db.(jobs := db.jobs[j := row]), j, Some(db.jobs[j]), row);
  }

  lemma FailureRaises(db: Db, now: Time, j: JobId, row: SocialPublishJob)
    requires j in db.jobs && row.id == j && FailRow(db, now, j, row).Updated?
    ensures var after := FailRow(db, now, j, row).db;
            || after.alerts == db.alerts
            || (j in after.alerts && j !in db.alerts && after.alerts == db.alerts[j := after.alerts[j]]
                && FailureAlerts.IsNewAlert(after.alerts[j], now))
  {
    UpdateRaisesNothing(db, j, row);
  }

  lemma ClaimRaisesNothing(s: State, w: WorkerId, j: JobId, leaseMs: nat, queueJobId: Option<nat>)
    ensures ClaimStep(s, w, j, leaseMs, queueJobId).db.alerts == s.db.alerts
  {
    if j in s.db.jobs { UpdateRaisesNothing(s.db, j, ClaimedRow(s.db.jobs[j], s.now, leaseMs)); }
  }

  lemma MarkRaisesNothing(s: State, w: WorkerId, leaseMs: nat)
    requires w in s.workers
    ensures MarkStep(s, w, leaseMs).db.alerts == s.db.alerts
  {
    var j, key := s.workers[w].job.id, RequestKeyOf(s.workers[w].job);
    if j in s.db.jobs { UpdateRaisesNothing(s.db, j, MarkedRow(s.db.jobs[j], s.now, key, leaseMs)); }
  }

  lemma ConfirmRaisesNothing(s: State, w: WorkerId)
    requires w in s.workers
    ensures ConfirmStep(s, w).db.alerts == s.db.alerts
  {
    var job := s.workers[w].job;
    if job.id in s.db.jobs {
      UpdateRaisesNothing(s.db, job.id, SuccessfulRow(s.db.jobs[job.id], RemoteConfirmed, job));
    }
  }

  lemma FinishRaisesNothing(s: State, w: WorkerId)
    requires w in s.workers
    ensures FinishStep(s, w).db.alerts == s.db.alerts
  {
    var job := s.workers[w].job;
    if job.id in s.db.jobs {
      UpdateRaisesNothing(s.db, job.id, SuccessfulRow(s.db.jobs[job.id], Published, job));
    }
  }

  lemma DeferRaises(s: State, w: WorkerId)
    requires Local(s, w) && s.workers[w].phase.Deferring?
    ensures Raises(s, DeferStep(s, w), s.workers[w].job.id)
  {
    var job, phase := s.workers[w].job, s.workers[w].phase;
    var row := AmbiguousRow(s.db.jobs[job.id], job, phase.retryPending, phase.nextRetryAt);
    if FailRow(s.db, s.now, job.id, row).Updated? { FailureRaises(s.db, s.now, job.id, row); }
  }

  lemma FailRaises(s: State, w: WorkerId)
    requires Local(s, w) && s.workers[w].phase.Failing?
    ensures Raises(s, FailStep(s, w), s.workers[w].job.id)
  {
    var job, phase := s.workers[w].job, s.workers[w].phase;
    var row := RefusedRow(s.db.jobs[job.id], job, phase.retryPending, phase.nextRetryAt);
    if FailRow(s.db, s.now, job.id, row).Updated? { FailureRaises(s.db, s.now, job.id, row); }
  }

  lemma StatementRaises(s: State, e: Event)
    requires Inv(s) && Enabled(s, e) && IsRowStatement(e)
    ensures Raises(s, Next(s, e), RowOf(s, e))
  {
    match e {
      case Claim(w, j, leaseMs, queueJobId) => ClaimRaisesNothing(s, w, j, leaseMs, queueJobId);
      case Mark(w, leaseMs) => MarkRaisesNothing(s, w, leaseMs);
      case Confirm(w) => ConfirmRaisesNothing(s, w);
      case Finish(w) => FinishRaisesNothing(s, w);
      case Defer(w) => LocalFacts(s, w); DeferRaises(s, w);
      case Fail(w) => LocalFacts(s, w); FailRaises(s, w);
    }
  }

  predicate SameAlertsAndClock(s: State, t: State) {
    t.db.alerts == s.db.alerts && t.now == s.now
  }

  lemma EditRaisesNothing(s: State, t: State, p: PostId, command: Command)
    requires EditedTo(s, t, p, command)
    ensures SameAlertsAndClock(s, t)
  {
  }

  lemma CreateRaisesNothing(s: State, t: State, post: Post, jobs: seq<SocialPublishJob>)
    requires AddsDraftJobs(WithPost(s.db, post), t.db, post.id, jobs) && t == s.(db := t.db)
    ensures SameAlertsAndClock(s, t)
  {
  }

  lemma DispatchRaisesNothing(s: State, t: State)
    requires OnlyDispatch(s, t)
    ensures SameAlertsAndClock(s, t)
  {
  }

  lemma CallRaisesNothing(s: State, e: Event)
    requires Enabled(s, e) && (e.Send? || e.Accept? || e.Refuse?)
    ensures SameAlertsAndClock(s, Next(s, e))
  {
  }

  lemma OtherStepRaisesNothing(s: State, e: Event)
    requires Inv(s) && Enabled(s, e) && !IsRowStatement(e) && !e.Tick?
    ensures SameAlertsAndClock(s, Next(s, e))
  {
    if e.Edit? { EditIsStep(s, e); EditRaisesNothing(s, Next(s, e), e.postId, e.command); }
    else if e.Create? { CreateAdds(s, e); CreateRaisesNothing(s, Next(s, e), e.post, e.jobs); }
    else if IsDispatch(e) { DispatchIsOnly(s, e); DispatchRaisesNothing(s, Next(s, e)); }
    else if IsLocal(e) { LocalMovesWorkersOnly(s, e); }
    else { CallRaisesNothing(s, e); }
  }

  lemma ClockOfStep(s: State, e: Event)
    requires Inv(s) && Enabled(s, e) && IsRowStatement(e)
    ensures Next(s, e).now == s.now
  {
    StatementFrame(s, e);
  }

  // -------------------------------------------------------------- every run of the system is a run of the delivery

  /** The delivery goes from a to b by the events p. */
  ghost predicate Reaches(a: FailureAlerts.AlertState, p: seq<FailureAlerts.AlertEvent>, b: FailureAlerts.AlertState) {
    FailureAlerts.IsAlertRun(a, p) && FailureAlerts.AfterRun(a, p) == b
  }

  lemma OneEventReaches(a: FailureAlerts.AlertState, f: FailureAlerts.AlertEvent)
    requires FailureAlerts.Allowed(a, f)
    ensures Reaches(a, [f], FailureAlerts.Proceed(a, f))
  {
    assert FailureAlerts.IsAlertRun(FailureAlerts.Proceed(a, f), [f][1..]);
  }

  lemma {:induction false} RunsGoOn(a: FailureAlerts.AlertState, p: seq<FailureAlerts.AlertEvent>,
      b: FailureAlerts.AlertState, q: seq<FailureAlerts.AlertEvent>, c: FailureAlerts.AlertState)
    requires Reaches(a, p, b) && Reaches(b, q, c)
    ensures Reaches(a, p + q, c)
    decreases |p|
  {
    if p == [] {
      assert p + q == q;
    } else {
      RunsGoOn(FailureAlerts.Proceed(a, p[0]), p[1..], b, q, c);
      assert (p + q)[0] == p[0] && (p + q)[1..] == p[1..] + q;
    }
  }

  lemma AlertAppears(x: System, t: State, j: JobId) returns (p: seq<FailureAlerts.AlertEvent>)
    requires Raises(x.publishing, t, j) && t.now == x.publishing.now
    ensures Reaches(AlertsOf(x), p, AlertsOf(x.(publishing := t)))
  {
    if t.db.alerts == x.publishing.db.alerts {
      p := [];
    } else {
      p := [FailureAlerts.Raise(j, t.db.alerts[j])];
      OneEventReaches(AlertsOf(x), p[0]);
    }
  }

  lemma TickReaches(x: System, to: Time) returns (p: seq<FailureAlerts.AlertEvent>)
    requires x.publishing.now <= to
    ensures Reaches(AlertsOf(x), p, AlertsOf(x.(publishing := x.publishing.(now := to))))
  {
    p := [FailureAlerts.Advance(to)];
    OneEventReaches(AlertsOf(x), p[0]);
  }

  lemma PublishingReaches(x: System, e: Event) returns (p: seq<FailureAlerts.AlertEvent>)
    requires Inv(x.publishing) && Enabled(x.publishing, e)
    ensures Reaches(AlertsOf(x), p, AlertsOf(x.(publishing := Next(x.publishing, e))))
  {
    var t := Next(x.publishing, e);
    if IsRowStatement(e) {
      StatementRaises(x.publishing, e);
      ClockOfStep(x.publishing, e);
      p := AlertAppears(x, t, RowOf(x.publishing, e));
    } else if e.Tick? {
      p := TickReaches(x, e.to);
    } else {
      OtherStepRaisesNothing(x.publishing, e);
      p := [];
    }
  }

  lemma SystemStep(x: System, v: SystemEvent) returns (p: seq<FailureAlerts.AlertEvent>)
    requires Inv(x.publishing) && Possible(x, v)
    ensures Inv(Then(x, v).publishing) && Reaches(AlertsOf(x), p, AlertsOf(Then(x, v)))
  {
    match v {
      case Publishing(e) =>
        StepKeepsInv(x.publishing, e);
        p := PublishingReaches(x, e);
      case Delivering(f) =>
        DeliveryKeepsAlerts(AlertsOf(x), f);
        DeliveryKeepsInv(x.publishing, FailureAlerts.Proceed(AlertsOf(x), f).alerts);
        p := [f];
        OneEventReaches(AlertsOf(x), f);
    }
  }

  /** Every interleaved run keeps the protocol's invariant and is, for the alerts, a run of the delivery. */
  lemma {:induction false} SystemRunIsAlertRun(x: System, run: seq<SystemEvent>)
      returns (p: seq<FailureAlerts.AlertEvent>)
    requires Inv(x.publishing) && IsSystemRun(x, run)
    ensures Inv(Final(x, run).publishing) && Reaches(AlertsOf(x), p, AlertsOf(Final(x, run)))
    decreases |run|
  {
    if run == [] {
      p := [];
    } else {
      var first := SystemStep(x, run[0]);
      var rest := SystemRunIsAlertRun(Then(x, run[0]), run[1..]);
      p := first + rest;
      RunsGoOn(AlertsOf(x), first, AlertsOf(Then(x, run[0])), rest, AlertsOf(Final(x, run)));
    }
  }

  // -------------------------------------------------------------- guarantees of the whole system

  /**
   * Whatever publishing and any number of dispatchers do: a failed job has an alert and keeps it
   * through retries and later failures; only its delivery columns change, and none once it is
   * delivered.
   */
  lemma AlertsStay(x: System, run: seq<SystemEvent>, j: JobId)
    requires Inv(x.publishing) && IsSystemRun(x, run) && j in x.publishing.db.jobs
    requires x.publishing.db.jobs[j].status == Failed || j in x.publishing.db.alerts
    ensures j in x.publishing.db.alerts && j in Final(x, run).publishing.db.alerts
    ensures FailureAlerts.AlertEvolves(x.publishing.db.alerts[j], Final(x, run).publishing.db.alerts[j])
  {
    assert JobInv(x.publishing, j);
    var p := SystemRunIsAlertRun(x, run);
    FailureAlerts.DeliveredIsFinal(AlertsOf(x), p, j);
  }

  /**
   * From the empty database: every failed job has an alert that is due from its wake-up time on
   * exactly unless it is delivered, and a delivered one was acknowledged by the webhook.
   */
  lemma FailuresAreReported(x: System, run: seq<SystemEvent>, j: JobId)
    requires Begins(x) && IsSystemRun(x, run)
    requires var t := Final(x, run).publishing.db; j in t.jobs && t.jobs[j].status == Failed
    ensures var t := Final(x, run);
            && j in t.publishing.db.alerts
            && var row := t.publishing.db.alerts[j];
               if row.status == DeliveredAlert
               then j in t.acknowledged && forall now: Time :: !FailureAlerts.AlertDue(row, now)
               else forall now: Time :: FailureAlerts.AlertDue(row, now) <==> FailureAlerts.AlertWakeUp(row) <= now
  {
    InitHasInv(x.publishing);
    var p := SystemRunIsAlertRun(x, run);
    assert JobInv(Final(x, run).publishing, j);
    FailureAlerts.AlertsAreDelivered(AlertsOf(x), p, j);
  }
}
