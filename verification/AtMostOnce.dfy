/**
 * At most one remote post a job. For adapters without idempotent publish this rests on one
 * condition on markRemoteRequesting; for idempotent adapters it needs nothing.
 */
module AtMostOnce {
  import opened Wrappers
  import opened PostEntity
  import opened PublishOutboxRepository
  import opened PublishProtocol
  import opened ProtocolInvariant
  import opened ProtocolSafety
  import opened StepFacts

  // -------------------------------------------------------------- the single token

  /** Worker w has marked and has not yet learned, or not yet saved, what became of its request. */
  ghost predicate Holds(s: State, w: WorkerId) {
    && w in s.workers && s.workers[w].job.platform !in s.idempotent
    && (s.workers[w].phase.Marked? || s.workers[w].phase.AwaitingProvider? || s.workers[w].phase.Failing?)
  }

  /** Call c was accepted or may still be. */
  ghost predicate OpenCall(s: State, c: CallId) {
    c in s.calls && s.calls[c].platform !in s.idempotent && s.calls[c].state != Refused
  }

  ghost predicate OneHolder(s: State) {
    forall v, w | Holds(s, v) && Holds(s, w) && s.workers[v].job.id == s.workers[w].job.id :: v == w
  }

  ghost predicate OneOpenCall(s: State) {
    forall c, d | OpenCall(s, c) && OpenCall(s, d) && s.calls[c].jobId == s.calls[d].jobId :: c == d
  }

  ghost predicate HolderOwnsCall(s: State) {
    forall w, c | Holds(s, w) && OpenCall(s, c) && s.calls[c].jobId == s.workers[w].job.id ::
        s.workers[w].phase == AwaitingProvider(c)
  }

  ghost predicate TokensAreKeyed(s: State) {
    && (forall w | Holds(s, w) :: HasKey(s, s.workers[w].job.id))
    && (forall c | OpenCall(s, c) :: HasKey(s, s.calls[c].jobId))
  }

  /**
   * A request key that is NULL means: nothing accepted, nothing in flight, no request about
   * to be sent and no definite failure unsaved. Otherwise there is at most one of these.
   */
  ghost predicate Token(s: State) {
    OneHolder(s) && OneOpenCall(s) && HolderOwnsCall(s) && TokensAreKeyed(s)
  }

  /** Another write of job j was accepted, may be accepted, is about to start or failed unsaved. */
  ghost predicate RequestPending(s: State, j: JobId) {
    (exists c :: OpenCall(s, c) && s.calls[c].jobId == j) || (exists v :: Holds(s, v) && s.workers[v].job.id == j)
  }

  /** e is a markRemoteRequesting that matches its row and starts a new provider write. */
  ghost predicate IsNewWrite(s: State, e: Event) {
    && e.Mark? && e.w in s.workers && s.workers[e.w].phase.ReadyToMark? && s.workers[e.w].job.platform !in s.idempotent
    && s.workers[e.w].job.id in s.db.jobs && s.db.jobs[s.workers[e.w].job.id].status == Claimed
  }

  /** The condition: a new write starts only while no other write of the job is pending. */
  ghost predicate IsClean(s: State, e: Event) {
    IsNewWrite(s, e) ==> !RequestPending(s, s.workers[e.w].job.id)
  }

  /**
   * The sign of it that markRemoteRequesting can see: the request key is still NULL. Its guard
   * also lets an equal key pass, and the key is the same for every attempt of a job.
   */
  ghost predicate FindsNullKey(s: State, e: Event) {
    IsNewWrite(s, e) ==> !HasKey(s, s.workers[e.w].job.id)
  }

  lemma NullKeyMeansNothingPending(s: State, j: JobId)
    requires Token(s) && !HasKey(s, j)
    ensures !RequestPending(s, j)
  {
  }

  // -------------------------------------------------------------- steps

  /** No token appears, and none loses its key. */
  ghost predicate Shrinks(s: State, t: State) {
    && t.idempotent == s.idempotent
    && (forall w | Holds(t, w) ::
          && Holds(s, w) && t.workers[w].job.id == s.workers[w].job.id
          && (t.workers[w].phase == s.workers[w].phase || forall c | OpenCall(t, c) ::
               t.calls[c].jobId != t.workers[w].job.id)
          && (HasKey(s, t.workers[w].job.id) ==> HasKey(t, t.workers[w].job.id)))
    && (forall c | OpenCall(t, c) ::
          && OpenCall(s, c) && t.calls[c].jobId == s.calls[c].jobId
          && (HasKey(s, t.calls[c].jobId) ==> HasKey(t, t.calls[c].jobId)))
  }

  lemma ShrinkKeepsToken(s: State, t: State)
    requires Token(s) && Shrinks(s, t)
    ensures Token(t)
  {
  }

  /** One row and worker w moved; the key stays, and w holds nothing afterwards. */
  lemma StatementShrinks(s: State, t: State, w: WorkerId, j: JobId)
    requires Statement(s, t, w, j) && (HasKey(s, j) ==> HasKey(t, j)) && !Holds(t, w)
    ensures Shrinks(s, t)
  {
  }

  /** A definite failure is received only for a refused call, so no call of the job stays open. */
  lemma MoveShrinks(s: State, t: State, w: WorkerId)
    requires Token(s) && DoesMove(s, t, w)
    ensures Shrinks(s, t)
  {
    if Holds(t, w) {
      forall c | OpenCall(t, c)
        ensures t.calls[c].jobId != t.workers[w].job.id
      {
        assert OpenCall(s, c) && Holds(s, w);
      }
    }
  }

  lemma AnswerShrinks(s: State, t: State, c: CallId)
    requires DoesAnswer(s, t, c)
    ensures Shrinks(s, t)
  {
  }

  lemma GrowthShrinks(s: State, t: State)
    requires DoesGrow(s, t)
    ensures Shrinks(s, t)
  {
    forall j | HasKey(s, j) ensures HasKey(t, j) { assert RowGrows(s.db.jobs[j], t.db.jobs[j]); }
  }

  lemma NewWriteKeepsToken(s: State, t: State, w: WorkerId, leaseMs: nat)
    requires Token(s) && DoesMark(s, t, w, leaseMs) && IsNewWrite(s, Mark(w, leaseMs))
    requires !RequestPending(s, s.workers[w].job.id)
    ensures Token(t)
  {
    var j := s.workers[w].job.id;
    forall v | Holds(t, v) && v != w ensures Holds(s, v) && t.workers[v].job.id != j {}
    forall c | OpenCall(t, c) ensures OpenCall(s, c) && t.calls[c].jobId != j {}
  }

  lemma MarkKeepsToken(s: State, t: State, w: WorkerId, leaseMs: nat)
    requires Token(s) && DoesMark(s, t, w, leaseMs) && IsClean(s, Mark(w, leaseMs))
    ensures Token(t)
  {
    if IsNewWrite(s, Mark(w, leaseMs)) {
      NewWriteKeepsToken(s, t, w, leaseMs);
    } else {
      StatementShrinks(s, t, w, s.workers[w].job.id);
      ShrinkKeepsToken(s, t);
    }
  }

  lemma SendKeepsToken(s: State, t: State, w: WorkerId, c: CallId)
    requires Token(s) && Fits(s) && DoesSend(s, t, w, c)
    ensures Token(t)
  {
    var j := s.workers[w].job.id;
    assert WorkerFits(s, w);
    forall d | OpenCall(t, d) && d != c ensures OpenCall(s, d) && (Holds(s, w) ==> t.calls[d].jobId != j) {}
    forall v | Holds(t, v) && v != w ensures Holds(s, v) && (Holds(s, w) ==> t.workers[v].job.id != j) {}
  }

  /** The one step that clears a key: nothing else of the job was pending. */
  lemma FailKeepsToken(s: State, t: State, w: WorkerId)
    requires Token(s) && Fits(s) && DoesFail(s, t, w)
    ensures Token(t)
  {
    var j := s.workers[w].job.id;
    assert WorkerFits(s, w);
    forall v | Holds(t, v) ensures Holds(s, v) && t.workers[v].job.id != j {
      assert WorkerFits(s, v);
      if s.workers[w].job.platform !in s.idempotent { assert Holds(s, w); }
    }
    forall c | OpenCall(t, c) ensures OpenCall(s, c) && t.calls[c].jobId != j {
      assert CallFits(s, c);
      if s.workers[w].job.platform !in s.idempotent { assert Holds(s, w); }
    }
  }

  lemma StatementKeepsToken(s: State, e: Event, t: State)
    requires Token(s) && Fits(s) && IsRowStatement(e) && StatementSummed(s, e, t) && IsClean(s, e)
    ensures Token(t)
  {
    match e {
      case Mark(w, leaseMs) => MarkKeepsToken(s, t, w, leaseMs);
      case Fail(w) => FailKeepsToken(s, t, w);
      case Claim(w, j, _, _) => StatementShrinks(s, t, w, j); ShrinkKeepsToken(s, t);
      case Confirm(w) => StatementShrinks(s, t, w, JobOf(s, w)); ShrinkKeepsToken(s, t);
      case Finish(w) => StatementShrinks(s, t, w, JobOf(s, w)); ShrinkKeepsToken(s, t);
      case Defer(w) => StatementShrinks(s, t, w, JobOf(s, w)); ShrinkKeepsToken(s, t);
    }
  }

  lemma CallKeepsToken(s: State, e: Event, t: State)
    requires Token(s) && Fits(s) && IsCallEvent(e) && CallSummed(s, e, t)
    ensures Token(t)
  {
    match e {
      case Send(w, c) => SendKeepsToken(s, t, w, c);
      case Accept(c, _) => AnswerShrinks(s, t, c); ShrinkKeepsToken(s, t);
      case Refuse(c) => AnswerShrinks(s, t, c); ShrinkKeepsToken(s, t);
    }
  }

  lemma SummedKeepsToken(s: State, e: Event, t: State)
    requires Token(s) && Fits(s) && IsSummed(s, e, t) && IsClean(s, e)
    ensures Token(t)
  {
    if IsRowStatement(e) { StatementKeepsToken(s, e, t); }
    else if IsCallEvent(e) { CallKeepsToken(s, e, t); }
    else {
      if IsLocal(e) { MoveShrinks(s, t, e.w); } else { GrowthShrinks(s, t); }
      ShrinkKeepsToken(s, t);
    }
  }

  lemma StepKeepsToken(s: State, e: Event)
    requires Inv(s) && Token(s) && Enabled(s, e) && IsClean(s, e)
    ensures Token(Next(s, e))
  {
    InvFits(s);
    StepIsSummed(s, e);
    SummedKeepsToken(s, e, Next(s, e));
  }

  // -------------------------------------------------------------- whole runs

  /** No new write is ever started while another one is pending. */
  ghost predicate IsCleanRun(s: State, run: seq<Event>)
    decreases |run|
  {
    run == [] || (Enabled(s, run[0]) && IsClean(s, run[0]) && IsCleanRun(Next(s, run[0]), run[1..]))
  }

  /** No new write is ever started over a row that carries a request key. */
  ghost predicate IsNullKeyRun(s: State, run: seq<Event>)
    decreases |run|
  {
    run == [] || (Enabled(s, run[0]) && FindsNullKey(s, run[0]) && IsNullKeyRun(Next(s, run[0]), run[1..]))
  }

  lemma {:induction false} CleanRunKeepsToken(s: State, run: seq<Event>)
    requires Inv(s) && Token(s) && IsCleanRun(s, run)
    ensures IsRun(s, run) && Inv(Exec(s, run)) && Token(Exec(s, run))
    decreases |run|
  {
    if run != [] {
      StepKeepsInv(s, run[0]);
      StepKeepsToken(s, run[0]);
      CleanRunKeepsToken(Next(s, run[0]), run[1..]);
    }
  }

  lemma NullKeyIsClean(s: State, e: Event)
    requires Token(s) && FindsNullKey(s, e)
    ensures IsClean(s, e)
  {
    if IsNewWrite(s, e) { NullKeyMeansNothingPending(s, s.workers[e.w].job.id); }
  }

  lemma {:induction false} NullKeyRunIsClean(s: State, run: seq<Event>)
    requires Inv(s) && Token(s) && IsNullKeyRun(s, run)
    ensures IsCleanRun(s, run)
    decreases |run|
  {
    if run != [] {
      NullKeyIsClean(s, run[0]);
      StepKeepsInv(s, run[0]);
      StepKeepsToken(s, run[0]);
      NullKeyRunIsClean(Next(s, run[0]), run[1..]);
    }
  }

  /** Remote posts r and q of one job are one and the same. */
  ghost predicate OnePostPerJob(s: State) {
    forall r, q, j | IsPostOf(s, r, j) && IsPostOf(s, q, j) :: r == q
  }

  lemma TokenMeansOnePost(s: State)
    requires Inv(s) && Token(s)
    ensures OnePostPerJob(s) && OneOpenCall(s)
  {
    forall r, q, j | IsPostOf(s, r, j) && IsPostOf(s, q, j) ensures r == q {
      assert CallInv(s, r) && CallInv(s, q);
      if s.calls[r].platform !in s.idempotent { assert OpenCall(s, r) && OpenCall(s, q); }
    }
  }

  /**
   * Main result: from the empty database, whatever workers, crashes, lease expiries,
   * redeliveries, late answers, retries and cancels do, a job has at most one remote post,
   * and on a platform without idempotent publish at most one call that was or may be accepted.
   */
  lemma AtMostOnePost(s: State, run: seq<Event>)
    requires Init(s) && IsCleanRun(s, run)
    ensures IsRun(s, run) && OnePostPerJob(Exec(s, run)) && OneOpenCall(Exec(s, run))
  {
    InitHasInv(s);
    CleanRunKeepsToken(s, run);
    TokenMeansOnePost(Exec(s, run));
  }

  /** Finding the key NULL at every new write is enough. */
  lemma NullKeysMeanOnePost(s: State, run: seq<Event>)
    requires Init(s) && IsNullKeyRun(s, run)
    ensures IsCleanRun(s, run) && IsRun(s, run) && OnePostPerJob(Exec(s, run))
  {
    InitHasInv(s);
    NullKeyRunIsClean(s, run);
    AtMostOnePost(s, run);
  }

  /** In every run, on every platform: all calls of a job carry one key, and its row holds that key or none. */
  lemma CallsCarryOneKey(s: State, run: seq<Event>, j: JobId)
    requires Init(s) && IsRun(s, run) && j in Exec(s, run).db.jobs
    ensures var t := Exec(s, run);
            && t.db.jobs[j].remoteRequestKey in {None, Some(KeyOf(j))}
            && forall c | c in t.calls && t.calls[c].jobId == j :: t.calls[c].key == KeyOf(j)
  {
    InitHasInv(s);
    RunKeepsInv(s, run);
    KeysOfJob(Exec(s, run), j);
  }

  lemma KeysOfJob(t: State, j: JobId)
    requires Inv(t) && j in t.db.jobs
    ensures t.db.jobs[j].remoteRequestKey in {None, Some(KeyOf(j))}
    ensures forall c | c in t.calls && t.calls[c].jobId == j :: t.calls[c].key == KeyOf(j)
  {
    assert JobInv(t, j);
    forall c | c in t.calls && t.calls[c].jobId == j ensures t.calls[c].key == KeyOf(j) { assert CallInv(t, c); }
  }

  lemma OneKeyOnePost(t: State, j: JobId, r: RemoteId, q: RemoteId)
    requires Inv(t) && j in t.db.jobs && t.db.jobs[j].platform in t.idempotent
    requires IsPostOf(t, r, j) && IsPostOf(t, q, j)
    ensures r == q
  {
    assert CallInv(t, r) && CallInv(t, q);
  }

  /** So with idempotent publish the condition is not needed. */
  lemma IdempotentAtMostOnePost(s: State, run: seq<Event>, j: JobId, r: RemoteId, q: RemoteId)
    requires Init(s) && IsRun(s, run)
    requires var t := Exec(s, run);
             j in t.db.jobs && t.db.jobs[j].platform in t.idempotent && IsPostOf(t, r, j) && IsPostOf(t, q, j)
    ensures r == q
    ensures var t := Exec(s, run);
            forall c | c in t.calls && t.calls[c].jobId == j :: t.calls[c].key == KeyOf(j)
    ensures Exec(s, run).db.jobs[j].remoteRequestKey in {None, Some(KeyOf(j))}
  {
    InitHasInv(s);
    RunKeepsInv(s, run);
    KeysOfJob(Exec(s, run), j);
    OneKeyOnePost(Exec(s, run), j, r, q);
  }
}
