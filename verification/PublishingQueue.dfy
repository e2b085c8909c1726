/** backend/src/publishing/publishing.queue.ts: due outbox rows are handed to BullMQ. */
module PublishingQueue {
  import opened Wrappers
  import opened PostEntity
  import opened Schema
  import opened PublishOutboxRepository

  // What happens to one record: added and marked, not added, or added but the UPDATE failed.
  datatype Verdict = Delivered | QueueFails(message: string) | MarkFails(message: string)

  /** BullMQ keeps one job an id: adding a known id adds nothing. */
  class BullMqQueue {
    var jobIds: set<nat>

    constructor ()
      ensures jobIds == {}
    {
      jobIds := {};
    }

    method Enqueue(record: QueueRecord)
      modifies this
      ensures jobIds == old(jobIds) + {record.queueJobId}
    {
      jobIds := jobIds + {record.queueJobId};
    }
  }

  /** The outbox row of one claimed record, when the loop is through with it. */
  function HandledRow(row: OutboxRow, now: Time, verdict: Verdict): OutboxRow {
    match verdict
    case Delivered => row.(enqueuedAt := Some(now), dispatchLeaseExpiresAt := None, lastDispatchError := None)
    case QueueFails(message) => row.(dispatchLeaseExpiresAt := None, lastDispatchError := Some(Shortened(message)))
    case MarkFails(message) => row.(dispatchLeaseExpiresAt := None, lastDispatchError := Some(Shortened(message)))
  }

  /** Records that reached the queue. */
  function Added(records: seq<QueueRecord>, verdict: JobId -> Verdict): set<nat> {
    set i | 0 <= i < |records| && !verdict(records[i].jobId).QueueFails? :: records[i].queueJobId
  }

  lemma AddedOneMore(records: seq<QueueRecord>, verdict: JobId -> Verdict, k: nat)
    requires k < |records|
    ensures Added(records[..k + 1], verdict)
              == Added(records[..k], verdict)
                  + (if verdict(records[k].jobId).QueueFails? then {} else {records[k].queueJobId})
  {
    var more, fewer := records[..k + 1], records[..k];
    forall q | q in Added(more, verdict)
      ensures q in Added(fewer, verdict)
               + (if verdict(records[k].jobId).QueueFails? then {} else {records[k].queueJobId})
    {
      var i :| 0 <= i < |more| && !verdict(more[i].jobId).QueueFails? && more[i].queueJobId == q;
      if i < k { assert fewer[i] == more[i]; }
    }
    forall q | q in Added(fewer, verdict) ensures q in Added(more, verdict) {
      var i :| 0 <= i < |fewer| && !verdict(fewer[i].jobId).QueueFails? && fewer[i].queueJobId == q;
      assert more[i] == fewer[i];
    }
    assert more[k] == records[k];
  }

  ghost predicate Distinct(records: seq<QueueRecord>) {
    forall i, k | 0 <= i < k < |records| :: records[i].jobId != records[k].jobId
  }

  /** The outbox once the first k records are handled; the rest still carries its dispatch lease. */
  ghost predicate HandledUpTo(before: map<JobId, OutboxRow>, after: map<JobId, OutboxRow>, records: seq<QueueRecord>,
      k: nat, now: Time, verdict: JobId -> Verdict)
    requires k <= |records|
  {
    && after.Keys == before.Keys
    && (forall i | 0 <= i < k && records[i].jobId in before ::
          after[records[i].jobId] == HandledRow(before[records[i].jobId], now, verdict(records[i].jobId)))
    && (forall j | j in before && (forall i | 0 <= i < k :: records[i].jobId != j) :: after[j] == before[j])
  }

  lemma HandledOneMore(before: map<JobId, OutboxRow>, middle: map<JobId, OutboxRow>, after: map<JobId, OutboxRow>,
                       records: seq<QueueRecord>, k: nat, now: Time, verdict: JobId -> Verdict)
    requires k < |records| && Distinct(records) && HandledUpTo(before, middle, records, k, now, verdict)
    requires records[k].jobId in before
    requires after == middle[records[k].jobId := HandledRow(middle[records[k].jobId], now, verdict(records[k].jobId))]
    ensures HandledUpTo(before, after, records, k + 1, now, verdict)
  {
    assert middle[records[k].jobId] == before[records[k].jobId];
  }

  class PublishingQueue {
    const outbox: PgPublishOutboxRepository
    const queue: BullMqQueue

    constructor (outbox: PgPublishOutboxRepository, queue: BullMqQueue)
      ensures this.outbox == outbox && this.queue == queue
    {
      this.outbox, this.queue := outbox, queue;
    }

    /** The body of the loop for one record whose queue id is still the row's own. */
    method Handle(record: QueueRecord, now: Time, verdict: Verdict) returns (enqueued: bool)
      requires HoldsQueueId(outbox.database.Contents(), record.jobId, record.queueJobId)
      modifies outbox.database, queue
      ensures enqueued == verdict.Delivered?
      ensures var start := old(outbox.database.Contents());
              outbox.database.Contents()
                == start.(outbox := start.outbox[record.jobId := HandledRow(start.outbox[record.jobId], now, verdict)])
      ensures queue.jobIds == old(queue.jobIds) + (if verdict.QueueFails? then {} else {record.queueJobId})
    {
      match verdict {
        case Delivered =>
          queue.Enqueue(record);
          outbox.MarkEnqueued(now, record);
          enqueued := true;
        case QueueFails(message) =>
          outbox.Release(record, message);
          enqueued := false;
        case MarkFails(message) =>
          queue.Enqueue(record);
          outbox.Release(record, message);
          enqueued := false;
      }
    }

    /** The loop over the claimed records. */
    method HandleAll(claimed: seq<QueueRecord>, now: Time, verdict: JobId -> Verdict)
        returns (enqueued: nat, failed: nat)
      requires Distinct(claimed) && forall i | 0 <= i < |claimed| ::
               HoldsQueueId(outbox.database.Contents(), claimed[i].jobId, claimed[i].queueJobId)
      modifies outbox.database, queue
      ensures enqueued + failed == |claimed| && enqueued == DeliveredCount(claimed, verdict)
      ensures outbox.database.Contents() == old(outbox.database.Contents()).(outbox := outbox.database.outbox)
      ensures HandledUpTo(old(outbox.database.outbox), outbox.database.outbox, claimed, |claimed|, now, verdict)
      ensures queue.jobIds == old(queue.jobIds) + Added(claimed, verdict)
    {
      enqueued, failed := 0, 0;
      for k := 0 to |claimed|
        invariant enqueued + failed == k && enqueued == DeliveredCount(claimed[..k], verdict)
        invariant outbox.database.Contents() == old(outbox.database.Contents()).(outbox := outbox.database.outbox)
        invariant HandledUpTo(old(outbox.database.outbox), outbox.database.outbox, claimed, k, now, verdict)
        invariant queue.jobIds == old(queue.jobIds) + Added(claimed[..k], verdict)
      {
        ghost var middle := outbox.database.outbox;
        AddedOneMore(claimed, verdict, k);
        DeliveredOneMore(claimed, verdict, k);
        assert HoldsQueueId(outbox.database.Contents(), claimed[k].jobId, claimed[k].queueJobId);
        var ok := Handle(claimed[k], now, verdict(claimed[k].jobId));
        if ok { enqueued := enqueued + 1; } else { failed := failed + 1; }
        HandledOneMore(old(outbox.database.outbox), middle, outbox.database.outbox, claimed, k, now, verdict);
      }
      assert claimed[..|claimed|] == claimed;
    }

    /**
     * Every claimed record is counted once; a row is marked as enqueued exactly if the queue
     * has its id and the UPDATE went through, and can be claimed again at once otherwise.
     */
    method DispatchPending(limit: nat, leaseMs: nat, now: Time, verdict: JobId -> Verdict)
      returns (enqueued: nat, failed: nat, ghost records: seq<QueueRecord>)
      modifies outbox.database, queue
      ensures IsClaimOf(old(outbox.database.Contents()), now, limit, records)
      ensures IsEarliestDue(old(outbox.database.outbox), now, limit, records)
      ensures enqueued + failed == |records| && enqueued == DeliveredCount(records, verdict)
      ensures outbox.database.Contents() == old(outbox.database.Contents()).(outbox := outbox.database.outbox)
      ensures outbox.database.outbox.Keys == old(outbox.database.outbox).Keys
      ensures IsDispatched(old(outbox.database.outbox), outbox.database.outbox, records, now, verdict)
      ensures queue.jobIds == old(queue.jobIds) + Added(records, verdict)
      ensures IsHandedOver(old(outbox.database.outbox), old(queue.jobIds)) ==>
               IsHandedOver(outbox.database.outbox, queue.jobIds)
    {
      var claimed := outbox.ClaimOutbox(now, limit, leaseMs);
      records := claimed;
      ClaimIsDistinct(old(outbox.database.Contents()), now, limit, claimed);
      ghost var leased := outbox.database.outbox;
      RecordsAreHeld(old(outbox.database.outbox), leased, records, now, limit, leaseMs);
      enqueued, failed := HandleAll(claimed, now, verdict);
      DispatchedAfterLease(old(outbox.database.outbox), leased, outbox.database.outbox, records, now, leaseMs, verdict);
      HandOffStays(old(outbox.database.outbox), outbox.database.outbox, records, now, limit, verdict,
        old(queue.jobIds), queue.jobIds);
    }
  }

  /**
   * Each record's row carries one attempt more and no lease; what reached the queue and was marked
   * is enqueued now, and the others keep what went wrong. All other rows are as before.
   */
  ghost predicate IsDispatched(before: map<JobId, OutboxRow>, after: map<JobId, OutboxRow>, records: seq<QueueRecord>,
      now: Time, verdict: JobId -> Verdict) {
    && after.Keys == before.Keys
    && (forall i | 0 <= i < |records| && records[i].jobId in before ::
          IsDispatchedRow(before[records[i].jobId], after[records[i].jobId], now, verdict(records[i].jobId)))
    && (forall j | j in before && (forall i | 0 <= i < |records| :: records[i].jobId != j) :: after[j] == before[j])
  }

  predicate IsDispatchedRow(before: OutboxRow, after: OutboxRow, now: Time, verdict: Verdict) {
    var tried := before.(dispatchAttemptCount := before.dispatchAttemptCount + 1, dispatchLeaseExpiresAt := None);
    match verdict
    case Delivered => after == tried.(enqueuedAt := Some(now), lastDispatchError := None)
    case QueueFails(message) => after == tried.(lastDispatchError := Some(Shortened(message)))
    case MarkFails(message) => after == tried.(lastDispatchError := Some(Shortened(message)))
  }

  lemma RecordsAreHeld(before: map<JobId, OutboxRow>, leased: map<JobId, OutboxRow>, records: seq<QueueRecord>,
      now: Time, limit: nat, leaseMs: nat)
    requires IsEarliestDue(before, now, limit, records) && IsLeased(before, leased, records, now + leaseMs)
    ensures Distinct(records)
    ensures forall i | 0 <= i < |records| ::
              records[i].jobId in leased && leased[records[i].jobId].queueJobId == records[i].queueJobId
  {
  }

  lemma DispatchedAfterLease(before: map<JobId, OutboxRow>, leased: map<JobId, OutboxRow>,
      after: map<JobId, OutboxRow>, records: seq<QueueRecord>, now: Time, leaseMs: nat, verdict: JobId -> Verdict)
    requires IsLeased(before, leased, records, now + leaseMs)
    requires HandledUpTo(leased, after, records, |records|, now, verdict)
    ensures IsDispatched(before, after, records, now, verdict)
  {
  }

  lemma HandOffStays(before: map<JobId, OutboxRow>, after: map<JobId, OutboxRow>, records: seq<QueueRecord>, now: Time,
      limit: nat, verdict: JobId -> Verdict, queued: set<nat>, queuedNow: set<nat>)
    requires IsEarliestDue(before, now, limit, records) && IsDispatched(before, after, records, now, verdict)
    requires queuedNow == queued + Added(records, verdict)
    ensures IsHandedOver(before, queued) ==> IsHandedOver(after, queuedNow)
  {
    if IsHandedOver(before, queued) {
      forall j | j in after && after[j].enqueuedAt.Some? ensures after[j].queueJobId in queuedNow {
        if i :| 0 <= i < |records| && records[i].jobId == j {
          assert records[i].queueJobId in Added(records, verdict);
        }
      }
    }
  }

  /** Rows marked as enqueued are in the queue. */
  ghost predicate IsHandedOver(rows: map<JobId, OutboxRow>, queued: set<nat>) {
    forall j | j in rows && rows[j].enqueuedAt.Some? :: rows[j].queueJobId in queued
  }

  lemma DeliveredOneMore(records: seq<QueueRecord>, verdict: JobId -> Verdict, k: nat)
    requires k < |records|
    ensures DeliveredCount(records[..k + 1], verdict) == DeliveredCount(records[..k], verdict)
             + (if verdict(records[k].jobId).Delivered? then 1 else 0)
  {
    assert records[..k + 1][..k] == records[..k];
  }

  function DeliveredCount(records: seq<QueueRecord>, verdict: JobId -> Verdict): nat
    decreases |records|
  {
    if records == [] then 0
    else
      var last := verdict(records[|records| - 1].jobId);
      DeliveredCount(records[..|records| - 1], verdict) + (if last.Delivered? then 1 else 0)
  }
}
