/**
 * backend/src/publishing/failure-alert.service.ts: delivery of final-failure alerts by any
 * number of overlapping dispatchers, each holding a lease that may run out.
 */
module FailureAlerts {
  import opened Wrappers
  import opened PostEntity
  import opened Schema
  import opened SqlOrder

  const ALERT_LEASE_MS: nat := 30_000
  const ALERT_RETRY_MS: nat := 300_000
  const ALERT_ERROR_LIMIT: nat := 300

  // -------------------------------------------------------------- statements on one row

  predicate AlertDue(row: AlertRow, now: Time) {
    || (row.status in {PendingAlert, FailedAlert} && row.nextDeliveryAt <= now)
    || (row.status == ProcessingAlert && row.leaseExpiresAt.Some? && row.leaseExpiresAt.value < now)
  }

  function ClaimedAlert(row: AlertRow, now: Time): AlertRow {
    row.(status := ProcessingAlert, deliveryAttempts := row.deliveryAttempts + 1,
         leaseExpiresAt := Some(now + ALERT_LEASE_MS), lastDeliveryError := None)
  }

  /** markDelivered: any dispatcher may settle a row that is being processed, whoever claimed it last. */
  function SettledAlert(row: AlertRow, now: Time): AlertRow {
    if row.status == ProcessingAlert
        then row.(status := DeliveredAlert, deliveredAt := Some(now), leaseExpiresAt := None) else row
  }

  function SafeError(message: string): (short: string)
    ensures short == if |message| > 300 then message[..300] else message
  {
    if |message| <= ALERT_ERROR_LIMIT then message else message[..ALERT_ERROR_LIMIT]
  }

  /** markFailed. */
  function PostponedAlert(row: AlertRow, now: Time, error: string): AlertRow {
    if row.status == ProcessingAlert
    then row.(status := FailedAlert, nextDeliveryAt := now + ALERT_RETRY_MS, leaseExpiresAt := None,
        lastDeliveryError := Some(SafeError(error)))
    else row
  }

  function BoundedLimit(limit: int): nat {
    if limit < 1 then 1 else if limit > 100 then 100 else limit
  }

  function DueAlerts(alerts: map<JobId, AlertRow>, now: Time): set<JobId> {
    set j | j in alerts && AlertDue(alerts[j], now)
  }

  function AlertKey(alerts: map<JobId, AlertRow>, j: JobId): (Time, Time) {
    if j in alerts then (alerts[j].nextDeliveryAt, alerts[j].createdAt) else (0, 0)
  }

  /** ORDER BY next_delivery_at, created_at, id; a job has one alert, so its id stands for the alert's. */
  function AlertOrder(alerts: map<JobId, AlertRow>): Order<JobId> {
    (a: nat, b: nat) =>
      var (nextA, createdA) := AlertKey(alerts, a);
      var (nextB, createdB) := AlertKey(alerts, b);
      nextA < nextB || (nextA == nextB && (createdA < createdB || (createdA == createdB && a < b)))
  }

  lemma AlertOrderIsOrder(alerts: map<JobId, AlertRow>, now: Time)
    ensures IsOrder(AlertOrder(alerts), DueAlerts(alerts, now))
  {
  }

  /** The claim of one dispatcher. */
  ghost predicate IsBatch(alerts: map<JobId, AlertRow>, now: Time, limit: int, batch: seq<JobId>) {
    IsPage(AlertOrder(alerts), DueAlerts(alerts, now), BoundedLimit(limit), batch)
  }

  function ClaimAll(alerts: map<JobId, AlertRow>, now: Time, batch: seq<JobId>): map<JobId, AlertRow> {
    map j | j in alerts :: if j in batch then ClaimedAlert(alerts[j], now) else alerts[j]
  }

  // -------------------------------------------------------------- overlapping dispatchers

  // What a dispatcher knows about the first alert of its batch.
  datatype AlertPhase = Sending | Answered | GaveUp(error: string)

  datatype AlertDispatcher = AlertDispatcher(batch: seq<JobId>, phase: AlertPhase)

  // acknowledged: alerts the webhook has answered with a success at least once.
  datatype AlertState = AlertState(
    now: Time,
    alerts: map<JobId, AlertRow>,
    dispatchers: map<nat, AlertDispatcher>,
    acknowledged: set<JobId>)

  datatype AlertEvent =
    | Advance(to: Time)
    | Raise(jobId: JobId, row: AlertRow)           // insertFinalFailureAudit, ON CONFLICT DO NOTHING
    | ClaimBatch(d: nat, limit: int, batch: seq<JobId>)
    | Acknowledge(d: nat)
    | Reject(d: nat, error: string)                // the request failed, or markDelivered did
    | MarkDelivered(d: nat)
    | MarkFailed(d: nat)
    | Stop(d: nat)

  ghost predicate Initial(s: AlertState) {
    s.alerts == map[] && s.dispatchers == map[] && s.acknowledged == {}
  }

  predicate IsNewAlert(row: AlertRow, now: Time) {
    row == row.(status := PendingAlert, deliveryAttempts := 0, nextDeliveryAt := now, leaseExpiresAt := None,
                lastDeliveryError := None, deliveredAt := None, createdAt := now)
  }

  ghost predicate Allowed(s: AlertState, e: AlertEvent) {
    match e
    case Advance(to) => s.now <= to
    case Raise(_, row) => IsNewAlert(row, s.now)
    case ClaimBatch(d, limit, batch) => d !in s.dispatchers && batch != [] && IsBatch(s.alerts, s.now, limit, batch)
    case Acknowledge(d) => d in s.dispatchers && s.dispatchers[d].batch != [] && s.dispatchers[d].phase.Sending?
    case Reject(d, _) => d in s.dispatchers && s.dispatchers[d].batch != [] && !s.dispatchers[d].phase.GaveUp?
    case MarkDelivered(d) => d in s.dispatchers && s.dispatchers[d].batch != [] && s.dispatchers[d].phase.Answered?
    case MarkFailed(d) => d in s.dispatchers && s.dispatchers[d].batch != [] && s.dispatchers[d].phase.GaveUp?
    case Stop(d) => d in s.dispatchers
  }

  ghost function Proceed(s: AlertState, e: AlertEvent): AlertState
    requires Allowed(s, e)
  {
    match e
    case Advance(to) => s.(now := to)
    case Raise(j, row) => if j in s.alerts then s else s.(alerts := s.alerts[j := row])
    case ClaimBatch(d, _, batch) =>
      s.(alerts := ClaimAll(s.alerts, s.now, batch), dispatchers := s.dispatchers[d := AlertDispatcher(batch, Sending)])
    case Acknowledge(d) =>
      s.(acknowledged := s.acknowledged + {s.dispatchers[d].batch[0]},
          dispatchers := s.dispatchers[d := s.dispatchers[d].(phase := Answered)])
    case Reject(d, error) => s.(dispatchers := s.dispatchers[d := s.dispatchers[d].(phase := GaveUp(error))])
    case MarkDelivered(d) =>
      var j := s.dispatchers[d].batch[0];
      s.(alerts := if j in s.alerts then s.alerts[j := SettledAlert(s.alerts[j], s.now)] else s.alerts,
         dispatchers := s.dispatchers[d := AlertDispatcher(s.dispatchers[d].batch[1..], Sending)])
    case MarkFailed(d) =>
      var j := s.dispatchers[d].batch[0];
      s.(alerts := if j in s.alerts
          then s.alerts[j := PostponedAlert(s.alerts[j], s.now, s.dispatchers[d].phase.error)] else s.alerts,
         dispatchers := s.dispatchers[d := AlertDispatcher(s.dispatchers[d].batch[1..], Sending)])
    case Stop(d) => s.(dispatchers := s.dispatchers - {d})
  }

  ghost predicate IsAlertRun(s: AlertState, run: seq<AlertEvent>)
    decreases |run|
  {
    run == [] || (Allowed(s, run[0]) && IsAlertRun(Proceed(s, run[0]), run[1..]))
  }

  ghost function AfterRun(s: AlertState, run: seq<AlertEvent>): AlertState
    requires IsAlertRun(s, run)
    decreases |run|
  {
    if run == [] then s else AfterRun(Proceed(s, run[0]), run[1..])
  }

  // -------------------------------------------------------------- invariant

  /** From when the alert may be claimed, as long as nobody touches it. */
  function AlertWakeUp(row: AlertRow): Time {
    if row.status == ProcessingAlert then row.leaseExpiresAt.GetOr(0) + 1 else row.nextDeliveryAt
  }

  ghost predicate AlertOk(s: AlertState, j: JobId)
    requires j in s.alerts
  {
    var row := s.alerts[j];
    && (row.status == DeliveredAlert ==> j in s.acknowledged && row.deliveredAt.Some?)
    && (row.status == ProcessingAlert ==> row.leaseExpiresAt.Some?)
    && row.createdAt + row.deliveryAttempts * ALERT_LEASE_MS <= s.now + ALERT_LEASE_MS
    && (row.status != DeliveredAlert ==> row.createdAt + row.deliveryAttempts * ALERT_LEASE_MS <= AlertWakeUp(row))
  }

  ghost predicate AlertsOk(s: AlertState) {
    && (forall j | j in s.alerts :: AlertOk(s, j))
    && (forall d | d in s.dispatchers && s.dispatchers[d].phase.Answered? ::
         s.dispatchers[d].batch != [] && s.dispatchers[d].batch[0] in s.acknowledged)
  }

  lemma ClaimIsOk(s: AlertState, e: AlertEvent)
    requires AlertsOk(s) && e.ClaimBatch? && Allowed(s, e)
    ensures AlertsOk(Proceed(s, e))
  {
    var t := Proceed(s, e);
    forall j | j in t.alerts ensures AlertOk(t, j) {
      assert AlertOk(s, j);
      if j in e.batch {
        var i :| 0 <= i < |e.batch| && e.batch[i] == j;
        assert e.batch[i] in DueAlerts(s.alerts, s.now);
      }
    }
  }

  lemma AlertStepIsOk(s: AlertState, e: AlertEvent)
    requires AlertsOk(s) && Allowed(s, e)
    ensures AlertsOk(Proceed(s, e))
  {
    if e.ClaimBatch? { ClaimIsOk(s, e); }
    else {
      var t := Proceed(s, e);
      forall j | j in t.alerts ensures AlertOk(t, j) { if j in s.alerts { assert AlertOk(s, j); } }
    }
  }

  lemma {:induction false} AlertRunIsOk(s: AlertState, run: seq<AlertEvent>)
    requires AlertsOk(s) && IsAlertRun(s, run)
    ensures AlertsOk(AfterRun(s, run))
    decreases |run|
  {
    if run != [] {
      AlertStepIsOk(s, run[0]);
      AlertRunIsOk(Proceed(s, run[0]), run[1..]);
    }
  }

  // -------------------------------------------------------------- guarantees

  /**
   * In every reachable state an alert is due from its wake-up time on exactly if it is not
   * delivered, a delivered one was acknowledged by the webhook, and elapsed time bounds the
   * number of attempts, however many dispatchers there are.
   */
  lemma AlertsAreDelivered(s: AlertState, run: seq<AlertEvent>, j: JobId)
    requires Initial(s) && IsAlertRun(s, run) && j in AfterRun(s, run).alerts
    ensures var t := AfterRun(s, run);
            var row := t.alerts[j];
            && (if row.status == DeliveredAlert then j in t.acknowledged && forall now: Time :: !AlertDue(row, now)
                else forall now: Time :: AlertDue(row, now) <==> AlertWakeUp(row) <= now)
            && (row.deliveryAttempts >= 1 ==> row.createdAt + (row.deliveryAttempts - 1) * 30_000 <= t.now)
  {
    AlertRunIsOk(s, run);
    assert AlertOk(AfterRun(s, run), j);
  }

  /** Delivered, or not due until after `until`. */
  ghost predicate IsHeld(s: AlertState, j: JobId, until: Time) {
    && j in s.alerts && (s.alerts[j].status == ProcessingAlert ==> s.alerts[j].leaseExpiresAt.Some?)
    && (s.alerts[j].status == DeliveredAlert || until < AlertWakeUp(s.alerts[j]))
  }

  lemma HeldIsNotDue(s: AlertState, j: JobId, until: Time)
    requires IsHeld(s, j, until) && AlertDue(s.alerts[j], s.now)
    ensures until < s.now
  {
  }

  /** A claim, and a postponement at or after it, hold the alert for a lease at least. */
  lemma StepKeepsHeld(s: AlertState, e: AlertEvent, j: JobId, since: Time)
    requires Allowed(s, e) && IsHeld(s, j, since + ALERT_LEASE_MS) && since <= s.now
    ensures IsHeld(Proceed(s, e), j, since + ALERT_LEASE_MS) && since <= Proceed(s, e).now
  {
    if e.ClaimBatch? && j in e.batch {
      var i :| 0 <= i < |e.batch| && e.batch[i] == j;
      assert e.batch[i] in DueAlerts(s.alerts, s.now);
    }
  }

  lemma {:induction false} RunKeepsHeld(s: AlertState, run: seq<AlertEvent>, j: JobId, since: Time)
    requires IsAlertRun(s, run) && IsHeld(s, j, since + ALERT_LEASE_MS) && since <= s.now
    ensures IsHeld(AfterRun(s, run), j, since + ALERT_LEASE_MS)
    decreases |run|
  {
    if run != [] {
      StepKeepsHeld(s, run[0], j, since);
      RunKeepsHeld(Proceed(s, run[0]), run[1..], j, since);
    }
  }

  /**
   * Any two claims of one alert, by whichever dispatchers and whatever happens in between, are
   * more than a lease apart.
   */
  lemma ClaimsAreALeaseApart(s: AlertState, first: AlertEvent, run: seq<AlertEvent>, second: AlertEvent, j: JobId)
    requires first.ClaimBatch? && Allowed(s, first) && j in first.batch && j in s.alerts
    requires IsAlertRun(Proceed(s, first), run)
    requires second.ClaimBatch? && Allowed(AfterRun(Proceed(s, first), run), second) && j in second.batch
    ensures s.now + 30_000 < AfterRun(Proceed(s, first), run).now
  {
    var t, u := Proceed(s, first), AfterRun(Proceed(s, first), run);
    RunKeepsHeld(t, run, j, s.now);
    var i :| 0 <= i < |second.batch| && second.batch[i] == j;
    assert second.batch[i] in DueAlerts(u.alerts, u.now);
    HeldIsNotDue(u, j, s.now + ALERT_LEASE_MS);
  }

  ghost predicate AlertEvolves(before: AlertRow, after: AlertRow) {
    && after == before.(
         status := after.status, deliveryAttempts := after.deliveryAttempts, nextDeliveryAt := after.nextDeliveryAt,
         leaseExpiresAt := after.leaseExpiresAt, lastDeliveryError := after.lastDeliveryError,
         deliveredAt := after.deliveredAt)
    && before.deliveryAttempts <= after.deliveryAttempts
    && (before.status == DeliveredAlert ==> after == before)
  }

  lemma AlertStepEvolves(s: AlertState, e: AlertEvent, j: JobId)
    requires Allowed(s, e) && j in s.alerts
    ensures j in Proceed(s, e).alerts && AlertEvolves(s.alerts[j], Proceed(s, e).alerts[j])
  {
    if e.ClaimBatch? && j in e.batch {
      var i :| 0 <= i < |e.batch| && e.batch[i] == j;
      assert e.batch[i] in DueAlerts(s.alerts, s.now);
    }
  }

  /** No alert is ever lost or rewritten: a delivered row stays exactly as it is. */
  lemma {:induction false} DeliveredIsFinal(s: AlertState, run: seq<AlertEvent>, j: JobId)
    requires IsAlertRun(s, run) && j in s.alerts
    ensures j in AfterRun(s, run).alerts && AlertEvolves(s.alerts[j], AfterRun(s, run).alerts[j])
    decreases |run|
  {
    if run != [] {
      AlertStepEvolves(s, run[0], j);
      DeliveredIsFinal(Proceed(s, run[0]), run[1..], j);
    }
  }

  // -------------------------------------------------------------- the service

  // FAILURE_ALERT_WEBHOOK_URL.
  datatype Endpoint = NotSet | Malformed | NotHttps | Https

  // What becomes of one alert: a success that is stored, a failed request, a success that could not be stored.
  datatype Reply = Stored | RequestFails(message: string) | StoreFails(message: string)

  datatype Summary = Summary(delivered: nat, failed: nat, disabled: bool)

  function HandledAlert(row: AlertRow, now: Time, reply: Reply): AlertRow {
    match reply
    case Stored => SettledAlert(row, now)
    case RequestFails(message) => PostponedAlert(row, now, message)
    case StoreFails(message) => PostponedAlert(row, now, message)
  }

  ghost predicate AlertsHandled(before: map<JobId, AlertRow>, after: map<JobId, AlertRow>, batch: seq<JobId>,
      now: Time, replies: JobId -> Reply) {
    after.Keys == before.Keys
    && forall j | j in before :: after[j] == if j in batch then HandledAlert(before[j], now, replies(j)) else before[j]
  }

  function StoredCount(batch: seq<JobId>, replies: JobId -> Reply): nat
    decreases |batch|
  {
    if batch == [] then 0
    else
      var last := replies(batch[|batch| - 1]);
      StoredCount(batch[..|batch| - 1], replies) + (if last.Stored? then 1 else 0)
  }

  lemma HandledOneMore(before: map<JobId, AlertRow>, middle: map<JobId, AlertRow>, after: map<JobId, AlertRow>,
                       batch: seq<JobId>, j: JobId, now: Time, replies: JobId -> Reply)
    requires j in before && j !in batch && AlertsHandled(before, middle, batch, now, replies)
    requires after == middle[j := HandledAlert(middle[j], now, replies(j))]
    ensures AlertsHandled(before, after, batch + [j], now, replies)
  {
  }

  // -------------------------------------------------------------- the batch and its rows, column by column

  /** Pending, or to be tried again, or left in the middle by a dispatcher whose lease ran out. */
  predicate IsToBeSent(row: AlertRow, now: Time) {
    if row.status in {PendingAlert, FailedAlert} then row.nextDeliveryAt <= now
    else row.status == ProcessingAlert && row.leaseExpiresAt.Some? && row.leaseExpiresAt.value < now
  }

  /** By the time of the next delivery, then by creation, then by job. */
  predicate ComesFirst(alerts: map<JobId, AlertRow>, a: JobId, b: JobId)
    requires a in alerts && b in alerts
  {
    if alerts[a].nextDeliveryAt != alerts[b].nextDeliveryAt
    then alerts[a].nextDeliveryAt < alerts[b].nextDeliveryAt
    else if alerts[a].createdAt != alerts[b].createdAt then alerts[a].createdAt < alerts[b].createdAt
    else a < b
  }

  /** The alerts to be sent that come first, at least one and at most 100 of them. */
  ghost predicate IsFirstBatch(alerts: map<JobId, AlertRow>, now: Time, limit: int, batch: seq<JobId>) {
    && (forall i | 0 <= i < |batch| :: batch[i] in alerts && IsToBeSent(alerts[batch[i]], now))
    && (forall i, k | 0 <= i < k < |batch| :: ComesFirst(alerts, batch[i], batch[k]))
    && |batch| <= 100 && (|batch| <= limit || (limit < 1 && |batch| <= 1))
    && (forall j | j in alerts && IsToBeSent(alerts[j], now) && j !in batch ::
          && |batch| == (if limit < 1 then 1 else if limit > 100 then 100 else limit)
          && forall i | 0 <= i < |batch| :: ComesFirst(alerts, batch[i], j))
  }

  lemma BatchIsFirst(alerts: map<JobId, AlertRow>, now: Time, limit: int, batch: seq<JobId>)
    requires IsBatch(alerts, now, limit, batch)
    ensures IsFirstBatch(alerts, now, limit, batch)
  {
    AlertOrderIsOrder(alerts, now);
    forall i | 0 <= i < |batch| ensures batch[i] in alerts && IsToBeSent(alerts[batch[i]], now) {
      assert batch[i] in DueAlerts(alerts, now);
    }
    forall i, k | 0 <= i < k < |batch| ensures ComesFirst(alerts, batch[i], batch[k]) {
      assert AlertOrder(alerts)(batch[i], batch[k]);
    }
    forall j | j in alerts && IsToBeSent(alerts[j], now) && j !in batch
      ensures |batch| == BoundedLimit(limit) && forall i | 0 <= i < |batch| :: ComesFirst(alerts, batch[i], j)
    {
      LeftOutComesLater(alerts, now, limit, batch, j);
    }
  }

  lemma LeftOutComesLater(alerts: map<JobId, AlertRow>, now: Time, limit: int, batch: seq<JobId>, j: JobId)
    requires IsBatch(alerts, now, limit, batch) && j in alerts && IsToBeSent(alerts[j], now) && j !in batch
    requires forall i | 0 <= i < |batch| :: batch[i] in alerts
    ensures |batch| == BoundedLimit(limit) && forall i | 0 <= i < |batch| :: ComesFirst(alerts, batch[i], j)
  {
    AlertOrderIsOrder(alerts, now);
    assert j in DueAlerts(alerts, now);
    forall i | 0 <= i < |batch| ensures ComesFirst(alerts, batch[i], j) { assert AlertOrder(alerts)(batch[i], j); }
    if |batch| < BoundedLimit(limit) {
      FullPageHasAll(AlertOrder(alerts), DueAlerts(alerts, now), BoundedLimit(limit), batch, j);
    }
  }

  /** One attempt for one alert: delivered for good, or due again in five minutes. */
  ghost predicate IsTried(before: AlertRow, after: AlertRow, now: Time, reply: Reply) {
    if reply.Stored? then
      after == before.(status := DeliveredAlert, deliveryAttempts := before.deliveryAttempts + 1,
                       deliveredAt := Some(now), leaseExpiresAt := None, lastDeliveryError := None)
    else
      && after == before.(status := FailedAlert, deliveryAttempts := before.deliveryAttempts + 1,
                          nextDeliveryAt := now + 300_000, leaseExpiresAt := None,
                          lastDeliveryError := after.lastDeliveryError)
      && after.lastDeliveryError
           == Some(if |reply.message| > 300 then reply.message[..300] else reply.message)
  }

  lemma HandledIsTried(row: AlertRow, now: Time, reply: Reply)
    ensures IsTried(row, HandledAlert(ClaimedAlert(row, now), now, reply), now, reply)
  {
  }

  /** A failed delivery is due again five minutes later, and not before. */
  lemma FailedIsDueAgain(before: AlertRow, after: AlertRow, now: Time, reply: Reply, later: Time)
    requires IsTried(before, after, now, reply) && !reply.Stored?
    ensures AlertDue(after, later) <==> now + 300_000 <= later
  {
  }

  class FailureAlertService {
    const database: Database

    constructor (database: Database)
      ensures this.database == database
    {
      this.database := database;
    }

    method Claim(limit: int, now: Time) returns (batch: seq<JobId>)
      modifies database
      ensures IsBatch(old(database.alerts), now, limit, batch) && IsFirstBatch(old(database.alerts), now, limit, batch)
      ensures database.Contents() == old(database.Contents()).(alerts := ClaimAll(old(database.alerts), now, batch))
      ensures forall j | j in database.alerts ::
                var row := old(database.alerts)[j];
                database.alerts[j] ==
                  if j in batch
                  then row.(status := ProcessingAlert, deliveryAttempts := row.deliveryAttempts + 1,
                            leaseExpiresAt := Some(now + 30_000), lastDeliveryError := None)
                  else row
    {
      AlertOrderIsOrder(database.alerts, now);
      FirstOfIsPage(AlertOrder(database.alerts), DueAlerts(database.alerts, now), BoundedLimit(limit));
      batch := FirstOf(AlertOrder(database.alerts), DueAlerts(database.alerts, now), BoundedLimit(limit));
      BatchIsFirst(database.alerts, now, limit, batch);
      database.alerts := ClaimAll(database.alerts, now, batch);
    }

    method Settle(j: JobId, now: Time, reply: Reply)
      requires j in database.alerts
      modifies database
      ensures database.Contents() == old(database.Contents()).(
                alerts := old(database.alerts)[j := HandledAlert(old(database.alerts)[j], now, reply)])
    {
      var row := database.alerts[j];
      if row.status == ProcessingAlert {
        match reply {
          case Stored =>
            row := row.(status := DeliveredAlert, deliveredAt := Some(now), leaseExpiresAt := None);
          case _ =>
            row := row.(status := FailedAlert, nextDeliveryAt := now + ALERT_RETRY_MS, leaseExpiresAt := None,
                        lastDeliveryError := Some(SafeError(reply.message)));
        }
      }
      database.alerts := database.alerts[j := row];
    }

    method SettleAll(batch: seq<JobId>, now: Time, replies: JobId -> Reply) returns (delivered: nat, failed: nat)
      requires forall i | 0 <= i < |batch| :: batch[i] in database.alerts
      requires forall i, k | 0 <= i < k < |batch| :: batch[i] != batch[k]
      modifies database
      ensures delivered + failed == |batch| && delivered == StoredCount(batch, replies)
      ensures database.Contents() == old(database.Contents()).(alerts := database.alerts)
      ensures AlertsHandled(old(database.alerts), database.alerts, batch, now, replies)
    {
      delivered, failed := 0, 0;
      for k := 0 to |batch|
        invariant delivered + failed == k && delivered == StoredCount(batch[..k], replies)
        invariant database.Contents() == old(database.Contents()).(alerts := database.alerts)
        invariant AlertsHandled(old(database.alerts), database.alerts, batch[..k], now, replies)
      {
        ghost var middle := database.alerts;
        Settle(batch[k], now, replies(batch[k]));
        if replies(batch[k]).Stored? { delivered := delivered + 1; } else { failed := failed + 1; }
        HandledOneMore(old(database.alerts), middle, database.alerts, batch[..k], batch[k], now, replies);
        assert batch[..k + 1] == batch[..k] + [batch[k]];
      }
      assert batch[..|batch|] == batch;
    }

    /** Without a usable endpoint nothing is claimed; otherwise every claimed alert is counted and settled once. */
    method DispatchPending(endpoint: Endpoint, limit: int, now: Time, replies: JobId -> Reply)
      returns (r: Result<Summary, string>, ghost batch: seq<JobId>)
      modifies database
      ensures !endpoint.Https? ==> database.Contents() == old(database.Contents())
      ensures endpoint.NotSet? ==> r == Success(Summary(0, 0, true))
      ensures r.Failure? <==> endpoint.Malformed? || endpoint.NotHttps?
      ensures endpoint.Https? ==>
                && IsBatch(old(database.alerts), now, limit, batch) && |batch| <= 100
                && r.Success? && !r.value.disabled && r.value.delivered + r.value.failed == |batch|
                && r.value.delivered == StoredCount(batch, replies)
                && database.Contents() == old(database.Contents()).(alerts := database.alerts)
                && AlertsHandled(ClaimAll(old(database.alerts), now, batch), database.alerts, batch, now, replies)
      ensures endpoint.Https? ==>
                && IsFirstBatch(old(database.alerts), now, limit, batch)
                && database.alerts.Keys == old(database.alerts).Keys
                && forall j | j in database.alerts ::
                     if j in batch then IsTried(old(database.alerts)[j], database.alerts[j], now, replies(j))
                     else database.alerts[j] == old(database.alerts)[j]
    {
      batch := [];
      match endpoint {
        case NotSet => r := Success(Summary(0, 0, true));
        case Malformed => r := Failure("FAILURE_ALERT_WEBHOOK_URL must be a valid URL.");
        case NotHttps => r := Failure("FAILURE_ALERT_WEBHOOK_URL must use HTTPS.");
        case Https =>
          var claimed := Claim(limit, now);
          BatchIsUsable(old(database.alerts), now, limit, claimed);
          var delivered, failed := SettleAll(claimed, now, replies);
          forall j | j in claimed
            ensures IsTried(old(database.alerts)[j], database.alerts[j], now, replies(j))
          {
            HandledIsTried(old(database.alerts)[j], now, replies(j));
          }
          batch := claimed;
          r := Success(Summary(delivered, failed, false));
      }
    }
  }

  lemma BatchIsUsable(alerts: map<JobId, AlertRow>, now: Time, limit: int, batch: seq<JobId>)
    requires IsBatch(alerts, now, limit, batch)
    ensures |batch| <= 100 && forall i | 0 <= i < |batch| :: batch[i] in alerts && AlertDue(alerts[batch[i]], now)
    ensures forall i, k | 0 <= i < k < |batch| :: batch[i] != batch[k]
  {
    AlertOrderIsOrder(alerts, now);
    assert forall i | 0 <= i < |batch| :: batch[i] in DueAlerts(alerts, now);
    forall i, k | 0 <= i < k < |batch| ensures batch[i] != batch[k] {
      assert AlertOrder(alerts)(batch[i], batch[k]);
    }
  }
}
