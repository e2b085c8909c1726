/**
 * Between two manual retries a job on a platform without idempotent publish makes at most
 * four provider calls, over every run whose new writes find the request key NULL.
 */
module SendBudget {
  import opened PostEntity
  import opened PublishProtocol
  import opened ProtocolInvariant
  import opened ProtocolSafety
  import opened StepFacts
  import opened AtMostOnce

  // -------------------------------------------------------------- the count behind the budget

  ghost predicate RowBudget(s: State, j: JobId) {
    j in s.db.jobs && s.db.jobs[j].platform !in s.idempotent ==>
      && Sends(s, j) <= 4
      && (s.db.jobs[j].remoteRequestKey.None? ==> Sends(s, j) <= s.db.jobs[j].retryCount)
  }

  /** Failures the worker knows of, plus the call it is waiting for. */
  function Attempts(worker: Worker): nat {
    worker.job.retryCount + (if worker.phase.AwaitingProvider? then 1 else 0)
  }

  ghost predicate WorkerBudget(s: State, w: WorkerId) {
    Holds(s, w) ==> Sends(s, s.workers[w].job.id) <= Attempts(s.workers[w])
  }

  ghost predicate Budget(s: State) {
    && s.sends.Keys <= s.db.jobs.Keys
    && (forall j | j in s.db.jobs :: RowBudget(s, j))
    && (forall w | w in s.workers :: WorkerBudget(s, w))
  }

  // -------------------------------------------------------------- steps

  lemma StatementKeepsBudget(s: State, t: State, w: WorkerId, j: JobId)
    requires Budget(s) && Statement(s, t, w, j) && RowBudget(t, j) && WorkerBudget(t, w)
    ensures Budget(t)
  {
    forall k | k in t.db.jobs ensures RowBudget(t, k) { assert RowBudget(s, k); }
    forall v | v in t.workers ensures WorkerBudget(t, v) { if v != w { assert WorkerBudget(s, v); } }
  }

  /** The key is set where it was NULL; the worker starts from the count of the row. */
  lemma MarkKeepsBudget(s: State, t: State, w: WorkerId, leaseMs: nat)
    requires Budget(s) && DoesMark(s, t, w, leaseMs) && FindsNullKey(s, Mark(w, leaseMs))
    ensures Budget(t)
  {
    assert RowBudget(s, JobOf(s, w));
    StatementKeepsBudget(s, t, w, JobOf(s, w));
  }

  /** Over a row without a key only a final deferral, with its four failures, is stored. */
  lemma DeferKeepsBudget(s: State, t: State, w: WorkerId)
    requires Budget(s) && WorkerFits(s, w) && DoesDefer(s, t, w)
    ensures Budget(t)
  {
    assert RowBudget(s, JobOf(s, w));
    StatementKeepsBudget(s, t, w, JobOf(s, w));
  }

  lemma FailKeepsBudget(s: State, t: State, w: WorkerId)
    requires Budget(s) && WorkerFits(s, w) && DoesFail(s, t, w)
    ensures Budget(t)
  {
    assert RowBudget(s, JobOf(s, w)) && WorkerBudget(s, w);
    StatementKeepsBudget(s, t, w, JobOf(s, w));
  }

  lemma ClaimKeepsBudget(s: State, t: State, w: WorkerId, j: JobId, leaseMs: nat)
    requires Budget(s) && DoesClaim(s, t, w, j, leaseMs)
    ensures Budget(t)
  {
    assert RowBudget(s, j);
    StatementKeepsBudget(s, t, w, j);
  }

  lemma SuccessKeepsBudget(s: State, t: State, w: WorkerId)
    requires Budget(s) && (DoesConfirm(s, t, w) || DoesFinish(s, t, w))
    ensures Budget(t)
  {
    assert RowBudget(s, JobOf(s, w));
    StatementKeepsBudget(s, t, w, JobOf(s, w));
  }

  lemma RowStatementKeepsBudget(s: State, e: Event, t: State)
    requires Budget(s) && Fits(s) && IsRowStatement(e) && StatementSummed(s, e, t) && FindsNullKey(s, e)
    ensures Budget(t)
  {
    match e {
      case Claim(w, j, leaseMs, _) => ClaimKeepsBudget(s, t, w, j, leaseMs);
      case Mark(w, leaseMs) => MarkKeepsBudget(s, t, w, leaseMs);
      case Confirm(w) => SuccessKeepsBudget(s, t, w);
      case Finish(w) => SuccessKeepsBudget(s, t, w);
      case Defer(w) => assert WorkerFits(s, w); DeferKeepsBudget(s, t, w);
      case Fail(w) => assert WorkerFits(s, w); FailKeepsBudget(s, t, w);
    }
  }

  /** The one holder of the job has at most three failures behind it. */
  lemma SendKeepsBudget(s: State, t: State, w: WorkerId, c: CallId)
    requires Budget(s) && Token(s) && Fits(s) && DoesSend(s, t, w, c)
    ensures Budget(t)
  {
    var j := JobOf(s, w);
    assert WorkerFits(s, w) && WorkerBudget(s, w);
    forall v | v in t.workers ensures WorkerBudget(t, v) {
      assert WorkerFits(s, v) && WorkerBudget(s, v);
      if Holds(t, v) && v != w { assert Holds(s, v); }
    }
    forall k | k in t.db.jobs ensures RowBudget(t, k) {
      assert RowBudget(s, k);
      if k == j && s.db.jobs[j].platform !in s.idempotent { assert Holds(s, w); }
    }
  }

  lemma MoveKeepsBudget(s: State, t: State, w: WorkerId)
    requires Budget(s) && DoesMove(s, t, w)
    ensures Budget(t)
  {
    forall k | k in t.db.jobs ensures RowBudget(t, k) { assert RowBudget(s, k); }
    forall v | v in t.workers ensures WorkerBudget(t, v) { assert WorkerBudget(s, v); }
  }

  lemma AnswerKeepsBudget(s: State, t: State, c: CallId)
    requires Budget(s) && DoesAnswer(s, t, c)
    ensures Budget(t)
  {
    forall k | k in t.db.jobs ensures RowBudget(t, k) { assert RowBudget(s, k); }
    forall v | v in t.workers ensures WorkerBudget(t, v) { assert WorkerBudget(s, v); }
  }

  lemma GrowthKeepsBudget(s: State, t: State)
    requires Budget(s) && Fits(s) && DoesGrow(s, t)
    ensures Budget(t)
  {
    forall k | k in t.db.jobs ensures RowBudget(t, k) {
      assert RowBudget(s, k);
      if k in s.db.jobs { assert RowGrows(s.db.jobs[k], t.db.jobs[k]) && (CountStays(s, t, k) || Sends(t, k) == 0); }
    }
    forall v | v in t.workers ensures WorkerBudget(t, v) {
      assert WorkerBudget(s, v) && WorkerFits(s, v);
      assert CountStays(s, t, JobOf(s, v)) || Sends(t, JobOf(s, v)) == 0;
    }
  }

  lemma SummedKeepsBudget(s: State, e: Event, t: State)
    requires Budget(s) && Token(s) && Fits(s) && IsSummed(s, e, t) && FindsNullKey(s, e)
    ensures Budget(t)
  {
    if IsRowStatement(e) { RowStatementKeepsBudget(s, e, t); }
    else if e.Send? { SendKeepsBudget(s, t, e.w, e.call); }
    else if IsCallEvent(e) { AnswerKeepsBudget(s, t, e.call); }
    else if IsLocal(e) { MoveKeepsBudget(s, t, e.w); }
    else { GrowthKeepsBudget(s, t); }
  }

  lemma StepKeepsBudget(s: State, e: Event)
    requires Inv(s) && Token(s) && Budget(s) && Enabled(s, e) && FindsNullKey(s, e)
    ensures Budget(Next(s, e))
  {
    InvFits(s);
    StepIsSummed(s, e);
    SummedKeepsBudget(s, e, Next(s, e));
  }

  // -------------------------------------------------------------- whole runs

  lemma {:induction false} NullKeyRunKeepsBudget(s: State, run: seq<Event>)
    requires Inv(s) && Token(s) && Budget(s) && IsNullKeyRun(s, run)
    ensures IsRun(s, run) && Budget(Exec(s, run))
    decreases |run|
  {
    if run != [] {
      StepKeepsInv(s, run[0]);
      NullKeyIsClean(s, run[0]);
      StepKeepsToken(s, run[0]);
      StepKeepsBudget(s, run[0]);
      NullKeyRunKeepsBudget(Next(s, run[0]), run[1..]);
    }
  }

  /** The first attempt and three retries: never a fifth provider call without a manual retry. */
  lemma AtMostFourCallsBetweenRetries(s: State, run: seq<Event>, j: JobId)
    requires Init(s) && IsNullKeyRun(s, run)
    ensures IsRun(s, run)
    ensures var t := Exec(s, run);
            j in t.db.jobs && t.db.jobs[j].platform !in t.idempotent ==>
              && Sends(t, j) <= 4
              && (t.db.jobs[j].remoteRequestKey.None? ==> Sends(t, j) <= t.db.jobs[j].retryCount)
  {
    InitHasInv(s);
    NullKeyRunKeepsBudget(s, run);
    assert RowBudget(Exec(s, run), j);
  }
}
