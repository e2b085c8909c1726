/**
 * When the condition of AtMostOnce is met: it suffices that a worker starts a new write and
 * saves a definite failure before the lease it took last has expired. Everything else may be
 * arbitrarily late. Said for any set of platforms, the workers of which keep to it.
 */
module LeaseTiming {
  import opened Wrappers
  import opened PostEntity
  import opened PublishOutboxRepository
  import opened PublishProtocol
  import opened ProtocolInvariant
  import opened ProtocolSafety
  import opened StepFacts
  import opened AtMostOnce

  ghost predicate ActsFor(s: State, w: WorkerId, ps: set<SocialPlatform>) {
    w in s.workers && s.workers[w].job.platform in ps
  }

  /** A new write is started before the lease the worker took last has expired. */
  ghost predicate MarksInTime(s: State, e: Event, ps: set<SocialPlatform>) {
    e.Mark? && ActsFor(s, e.w, ps) && s.workers[e.w].phase.ReadyToMark? && !s.workers[e.w].repeats ==>
        s.now < s.workers[e.w].leaseEnd
  }

  /** A definite failure is saved before the lease the worker took last has expired. */
  ghost predicate FailsInTime(s: State, e: Event, ps: set<SocialPlatform>) {
    e.Fail? && ActsFor(s, e.w, ps) ==> s.now < s.workers[e.w].leaseEnd
  }

  /** A definite failure that is saved did not answer a request repeated over an existing key. */
  ghost predicate AnswersFirstRequest(s: State, e: Event, ps: set<SocialPlatform>) {
    e.Fail? && ActsFor(s, e.w, ps) ==> !s.workers[e.w].repeats
  }

  ghost predicate IsCareful(s: State, e: Event, ps: set<SocialPlatform>) {
    MarksInTime(s, e, ps) && FailsInTime(s, e, ps) && AnswersFirstRequest(s, e, ps)
  }

  // -------------------------------------------------------------- mutual exclusion while leases last

  ghost predicate IsLive(s: State, w: WorkerId) {
    w in s.workers && s.now < s.workers[w].leaseEnd && !s.workers[w].repeats
  }

  ghost predicate FreshLive(s: State, w: WorkerId) {
    IsLive(s, w) && s.workers[w].phase.ReadyToMark?
  }

  ghost predicate HoldLive(s: State, w: WorkerId) {
    IsLive(s, w) && (s.workers[w].phase.Marked? || s.workers[w].phase.AwaitingProvider? || s.workers[w].phase.Failing?)
  }

  /** It claimed without a key and never marked in time, or only has to save a success. */
  ghost predicate IsIdle(s: State, w: WorkerId) {
    w in s.workers && ((s.workers[w].phase.ReadyToMark? && !s.workers[w].repeats) || s.workers[w].phase.Finishing?)
  }

  /** It acts on a request that was made before, its own or another's. */
  ghost predicate IsAware(s: State, w: WorkerId) {
    w in s.workers && !IsIdle(s, w) && !HoldLive(s, w)
  }

  /** The call was accepted or may be. */
  ghost predicate MayLand(s: State, c: CallId) {
    c in s.calls && s.calls[c].state != Refused
  }

  ghost predicate Lands(s: State, c: CallId, ps: set<SocialPlatform>) {
    MayLand(s, c) && s.calls[c].platform in ps
  }

  ghost predicate FreshOwns(s: State, w: WorkerId) {
    FreshLive(s, w) ==>
      var j := JobOf(s, w);
      && j in s.db.jobs && s.db.jobs[j].status == Claimed && s.db.jobs[j].leaseExpiresAt == Some(s.workers[w].leaseEnd)
      && !HasKey(s, j)
  }

  ghost predicate HolderOwns(s: State, w: WorkerId) {
    HoldLive(s, w) ==>
      var j := JobOf(s, w);
      && j in s.db.jobs && s.db.jobs[j].status == RemoteRequesting
      && s.db.jobs[j].leaseExpiresAt == Some(s.workers[w].leaseEnd)
      && s.db.jobs[j].nextRetryAt.None?
  }

  /** What a worker may rely on: a live claim owns its row, and whoever acts on a request has a keyed row. */
  ghost predicate Sound(s: State, w: WorkerId) {
    FreshOwns(s, w) && HolderOwns(s, w) && (IsAware(s, w) ==> HasKey(s, JobOf(s, w)))
  }

  /** Of two workers on one job, one that holds a live request is alone with it. */
  ghost predicate Compatible(s: State, v: WorkerId, x: WorkerId) {
    v != x && JobOf(s, v) == JobOf(s, x) ==>
      (HoldLive(s, v) ==> !HoldLive(s, x) && !IsAware(s, x)) && (FreshLive(s, v) ==> !FreshLive(s, x))
  }

  /** A call that may land is the one the live holder waits for. */
  ghost predicate Covered(s: State, w: WorkerId, c: CallId) {
    HoldLive(s, w) && c in s.calls && s.calls[c].jobId == JobOf(s, w) ==> s.workers[w].phase == AwaitingProvider(c)
  }

  ghost predicate Exclusive(s: State, ps: set<SocialPlatform>) {
    && (forall w | ActsFor(s, w, ps) :: Sound(s, w))
    && (forall v, x | ActsFor(s, v, ps) && ActsFor(s, x, ps) :: Compatible(s, v, x))
    && (forall c | Lands(s, c, ps) :: HasKey(s, s.calls[c].jobId))
    && (forall w, c | ActsFor(s, w, ps) && Lands(s, c, ps) :: Covered(s, w, c))
  }

  // -------------------------------------------------------------- steps that take nothing

  /** Worker v waits for a call that may land. */
  ghost predicate Waits(s: State, v: WorkerId) {
    v in s.workers && s.workers[v].phase.AwaitingProvider? && MayLand(s, s.workers[v].phase.call)
  }

  /** Worker v has left, or relies on no more than before. */
  ghost predicate Recedes(s: State, t: State, v: WorkerId) {
    v in t.workers ==>
      && v in s.workers && SameWork(s.workers[v], t.workers[v])
      && (FreshLive(t, v) ==> FreshLive(s, v)) && (IsAware(t, v) ==> IsAware(s, v) || HoldLive(s, v))
      && (HoldLive(t, v) ==> HoldLive(s, v) && (t.workers[v].phase == s.workers[v].phase || !Waits(s, v)))
  }

  /** Nobody else relies on the row that w has just taken, and no request of the job is open if w begins one. */
  ghost predicate IsAlone(s: State, t: State, w: WorkerId, ps: set<SocialPlatform>) {
    && (forall v | ActsFor(s, v, ps) && v != w && JobOf(s, v) == JobOf(t, w) ::
          !FreshLive(s, v) && !HoldLive(s, v) && (HoldLive(t, w) ==> !IsAware(s, v)))
    && (HoldLive(t, w) ==> forall c | Lands(s, c, ps) :: s.calls[c].jobId != JobOf(t, w))
  }

  /** No call appears, and those that may land have a keyed row. */
  ghost predicate CallsRecede(s: State, t: State, ps: set<SocialPlatform>) {
    forall c | Lands(t, c, ps) :: Lands(s, c, ps) && t.calls[c].jobId == s.calls[c].jobId && HasKey(t, t.calls[c].jobId)
  }

  lemma RecedingPair(s: State, t: State, v: WorkerId, x: WorkerId)
    requires Compatible(s, v, x) && Recedes(s, t, v) && Recedes(s, t, x) && v in t.workers && x in t.workers
    ensures Compatible(t, v, x)
  {
  }

  lemma RecedingKeepsCompatible(s: State, t: State, w: WorkerId, ps: set<SocialPlatform>)
    requires Exclusive(s, ps)
    requires forall v | ActsFor(t, v, ps) && v != w :: Recedes(s, t, v)
    requires ActsFor(t, w, ps) ==> Recedes(s, t, w) || IsAlone(s, t, w, ps)
    ensures forall v, x | ActsFor(t, v, ps) && ActsFor(t, x, ps) :: Compatible(t, v, x)
  {
    forall v, x | ActsFor(t, v, ps) && ActsFor(t, x, ps) ensures Compatible(t, v, x) {
      if Recedes(s, t, v) && Recedes(s, t, x) {
        assert ActsFor(s, v, ps) && ActsFor(s, x, ps);
        RecedingPair(s, t, v, x);
      } else if v != x {
        assert v != w ==> ActsFor(s, v, ps);
        assert x != w ==> ActsFor(s, x, ps);
      }
    }
  }

  lemma RecedingKeepsExclusive(s: State, t: State, w: WorkerId, ps: set<SocialPlatform>)
    requires Exclusive(s, ps) && CallsRecede(s, t, ps)
    requires forall v | ActsFor(t, v, ps) :: Sound(t, v)
    requires forall v | ActsFor(t, v, ps) && v != w :: Recedes(s, t, v)
    requires ActsFor(t, w, ps) ==> Recedes(s, t, w) || IsAlone(s, t, w, ps)
    ensures Exclusive(t, ps)
  {
    RecedingKeepsCompatible(s, t, w, ps);
    forall v, c | ActsFor(t, v, ps) && Lands(t, c, ps) ensures Covered(t, v, c) {
      assert Lands(s, c, ps);
      if Recedes(s, t, v) { assert ActsFor(s, v, ps) && Covered(s, v, c); }
    }
  }

  // -------------------------------------------------------------- statements on a row nobody relies on

  /** No live worker relies on row j. */
  ghost predicate IsFree(s: State, j: JobId, ps: set<SocialPlatform>) {
    forall v | ActsFor(s, v, ps) && JobOf(s, v) == j :: !FreshLive(s, v) && !HoldLive(s, v)
  }

  /** w is a newcomer or one that goes on: it relies on the row it has just written, or knows of a request. */
  ghost predicate FitsIn(s: State, t: State, w: WorkerId, j: JobId, ps: set<SocialPlatform>) {
    ActsFor(t, w, ps) ==> JobOf(t, w) == j && !HoldLive(t, w) && FreshOwns(t, w) && (IsAware(t, w) ==> HasKey(t, j))
  }

  lemma FreeRowKeepsExclusive(s: State, t: State, w: WorkerId, j: JobId, ps: set<SocialPlatform>)
    requires Exclusive(s, ps) && Statement(s, t, w, j) && IsFree(s, j, ps) && FitsIn(s, t, w, j, ps)
    requires HasKey(s, j) ==> HasKey(t, j)
    ensures Exclusive(t, ps)
  {
    forall v | ActsFor(t, v, ps) ensures Sound(t, v) && (v != w ==> Recedes(s, t, v)) {
      if v != w { assert ActsFor(s, v, ps) && Sound(s, v); }
    }
    forall c | Lands(t, c, ps) ensures Lands(s, c, ps) && HasKey(t, t.calls[c].jobId) {}
    RecedingKeepsExclusive(s, t, w, ps);
  }

  /** A row of another platform is relied on by nobody here. */
  lemma ForeignRowIsFree(s: State, w: WorkerId, ps: set<SocialPlatform>)
    requires Fits(s) && w in s.workers && s.workers[w].job.platform !in ps
    ensures forall v | ActsFor(s, v, ps) :: JobOf(s, v) != JobOf(s, w)
  {
    forall v | ActsFor(s, v, ps) ensures JobOf(s, v) != JobOf(s, w) { assert WorkerFits(s, v) && WorkerFits(s, w); }
  }

  lemma AwareRowIsFree(s: State, w: WorkerId, ps: set<SocialPlatform>)
    requires Exclusive(s, ps) && ActsFor(s, w, ps) && IsAware(s, w)
    ensures IsFree(s, JobOf(s, w), ps)
  {
    forall v | ActsFor(s, v, ps) && JobOf(s, v) == JobOf(s, w) ensures !FreshLive(s, v) && !HoldLive(s, v) {
      assert Sound(s, v) && Sound(s, w) && Compatible(s, v, w);
    }
  }

  /** Rows without a running status are relied on by nobody, and neither are claimable ones. */
  lemma ClaimableRowIsFree(s: State, j: JobId, ps: set<SocialPlatform>)
    requires Exclusive(s, ps) && j in s.db.jobs
    requires StatusClaimable(s.db.jobs[j], s.now) || s.db.jobs[j].status !in {Claimed, RemoteRequesting}
    ensures IsFree(s, j, ps)
  {
    forall v | ActsFor(s, v, ps) && JobOf(s, v) == j ensures !FreshLive(s, v) && !HoldLive(s, v) { assert Sound(s, v); }
  }

  lemma ClaimKeepsExclusive(s: State, t: State, w: WorkerId, j: JobId, leaseMs: nat, ps: set<SocialPlatform>)
    requires Exclusive(s, ps) && Fits(s) && DoesClaim(s, t, w, j, leaseMs)
    ensures Exclusive(t, ps)
  {
    ClaimableRowIsFree(s, j, ps);
    assert RowFits(s, j);
    FreeRowKeepsExclusive(s, t, w, j, ps);
  }

  /** A worker that knows of a request, or is of another platform, writes a free row. */
  lemma AwareStatementKeepsExclusive(s: State, t: State, w: WorkerId, ps: set<SocialPlatform>)
    requires Exclusive(s, ps) && Fits(s) && w in s.workers && (s.workers[w].job.platform in ps ==> IsAware(s, w))
    requires Statement(s, t, w, JobOf(s, w)) && (HasKey(s, JobOf(s, w)) ==> HasKey(t, JobOf(s, w)))
    requires w in t.workers ==> SameWork(s.workers[w], t.workers[w])
    requires ActsFor(t, w, ps) ==> !HoldLive(t, w) && !FreshLive(t, w)
    ensures Exclusive(t, ps)
  {
    if ActsFor(s, w, ps) { AwareRowIsFree(s, w, ps); assert Sound(s, w); } else { ForeignRowIsFree(s, w, ps); }
    FreeRowKeepsExclusive(s, t, w, JobOf(s, w), ps);
  }

  // -------------------------------------------------------------- the mark

  /** A new write started in time finds its own claim, the request key still NULL, and no call that may land. */
  lemma TimelyMarkFindsNullKey(s: State, w: WorkerId, ps: set<SocialPlatform>)
    requires Exclusive(s, ps) && ActsFor(s, w, ps) && FreshLive(s, w)
    ensures !HasKey(s, JobOf(s, w)) && IsNext(s, w, ps)
  {
    assert Sound(s, w);
    forall v | ActsFor(s, v, ps) && v != w && JobOf(s, v) == JobOf(s, w)
      ensures !FreshLive(s, v) && !HoldLive(s, v) && !IsAware(s, v)
    {
      assert Sound(s, v) && Compatible(s, w, v);
    }
  }

  /** Nobody else relies on the job of w, and no call of it may land. */
  ghost predicate IsNext(s: State, w: WorkerId, ps: set<SocialPlatform>) {
    && (forall v | ActsFor(s, v, ps) && v != w && JobOf(s, v) == JobOf(s, w) ::
         !FreshLive(s, v) && !HoldLive(s, v) && !IsAware(s, v))
    && (forall c | Lands(s, c, ps) :: s.calls[c].jobId != JobOf(s, w))
  }

  lemma NewWriteKeepsExclusive(s: State, t: State, w: WorkerId, leaseMs: nat, ps: set<SocialPlatform>)
    requires Exclusive(s, ps) && DoesMark(s, t, w, leaseMs) && ActsFor(s, w, ps) && FreshLive(s, w) && IsNext(s, w, ps)
    ensures Exclusive(t, ps)
  {
    forall v | ActsFor(t, v, ps) ensures Sound(t, v) && (v != w ==> Recedes(s, t, v)) {
      if v != w { assert ActsFor(s, v, ps) && Sound(s, v); } else { assert Sound(s, w); }
    }
    forall c | Lands(t, c, ps) ensures Lands(s, c, ps) && HasKey(t, t.calls[c].jobId) {}
    RecedingKeepsExclusive(s, t, w, ps);
  }

  lemma MarkKeepsExclusive(s: State, t: State, w: WorkerId, leaseMs: nat, ps: set<SocialPlatform>)
    requires Exclusive(s, ps) && Fits(s) && DoesMark(s, t, w, leaseMs) && MarksInTime(s, Mark(w, leaseMs), ps)
    ensures Exclusive(t, ps)
  {
    if ActsFor(s, w, ps) && FreshLive(s, w) {
      TimelyMarkFindsNullKey(s, w, ps);
      NewWriteKeepsExclusive(s, t, w, leaseMs, ps);
    } else {
      MarkKeepsKey(s, t, w, leaseMs);
      AwareStatementKeepsExclusive(s, t, w, ps);
    }
  }

  lemma MarkKeepsKey(s: State, t: State, w: WorkerId, leaseMs: nat)
    requires DoesMark(s, t, w, leaseMs)
    ensures HasKey(s, JobOf(s, w)) ==> HasKey(t, JobOf(s, w))
  {
  }

  // -------------------------------------------------------------- the definite failure

  /** A definite failure of a first request, saved in time, meets a row nobody else acts on. */
  lemma FailKeepsExclusive(s: State, t: State, w: WorkerId, ps: set<SocialPlatform>)
    requires Exclusive(s, ps) && DoesFail(s, t, w) && ActsFor(s, w, ps) && HoldLive(s, w)
    ensures Exclusive(t, ps)
  {
    forall v | ActsFor(t, v, ps) ensures Sound(t, v) && Recedes(s, t, v) {
      assert ActsFor(s, v, ps) && Sound(s, v) && Sound(s, w) && Compatible(s, w, v);
    }
    forall c | Lands(t, c, ps)
      ensures Lands(s, c, ps) && HasKey(t, t.calls[c].jobId)
    {
      assert Lands(s, c, ps) && Covered(s, w, c);
    }
    RecedingKeepsExclusive(s, t, w, ps);
  }

  lemma ForeignFailKeepsExclusive(s: State, t: State, w: WorkerId, ps: set<SocialPlatform>)
    requires Exclusive(s, ps) && Fits(s) && DoesFail(s, t, w) && s.workers[w].job.platform !in ps
    ensures Exclusive(t, ps)
  {
    ForeignRowIsFree(s, w, ps);
    forall v | ActsFor(t, v, ps) ensures Sound(t, v) && Recedes(s, t, v) { assert ActsFor(s, v, ps) && Sound(s, v); }
    forall c | Lands(t, c, ps) ensures Lands(s, c, ps) && HasKey(t, t.calls[c].jobId) {
      assert Lands(s, c, ps) && CallFits(s, c) && WorkerFits(s, w);
    }
    RecedingKeepsExclusive(s, t, w, ps);
  }

  lemma CarefulFailKeepsExclusive(s: State, t: State, w: WorkerId, ps: set<SocialPlatform>)
    requires Exclusive(s, ps) && Fits(s) && DoesFail(s, t, w) && IsCareful(s, Fail(w), ps)
    ensures Exclusive(t, ps)
  {
    if ActsFor(s, w, ps) { FailKeepsExclusive(s, t, w, ps); } else { ForeignFailKeepsExclusive(s, t, w, ps); }
  }

  lemma FinishKeepsExclusive(s: State, t: State, w: WorkerId, ps: set<SocialPlatform>)
    requires Exclusive(s, ps) && DoesFinish(s, t, w)
    ensures Exclusive(t, ps)
  {
    if t.db.jobs == s.db.jobs {
      LeavingKeepsExclusive(s, t, w, ps);
    } else {
      ClaimableRowIsFree(s, JobOf(s, w), ps);
      FreeRowKeepsExclusive(s, t, w, JobOf(s, w), ps);
    }
  }

  lemma StatementKeepsExclusive(s: State, e: Event, t: State, ps: set<SocialPlatform>)
    requires Exclusive(s, ps) && Fits(s) && IsRowStatement(e) && StatementSummed(s, e, t) && IsCareful(s, e, ps)
    ensures Exclusive(t, ps)
  {
    match e {
      case Claim(w, j, leaseMs, _) => ClaimKeepsExclusive(s, t, w, j, leaseMs, ps);
      case Mark(w, leaseMs) => MarkKeepsExclusive(s, t, w, leaseMs, ps);
      case Confirm(w) => AwareStatementKeepsExclusive(s, t, w, ps);
      case Defer(w) => AwareStatementKeepsExclusive(s, t, w, ps);
      case Fail(w) => CarefulFailKeepsExclusive(s, t, w, ps);
      case Finish(w) => FinishKeepsExclusive(s, t, w, ps);
    }
  }

  // -------------------------------------------------------------- other steps

  /** The rows are the same, and nobody but w moved: it left. */
  lemma LeavingKeepsExclusive(s: State, t: State, w: WorkerId, ps: set<SocialPlatform>)
    requires Exclusive(s, ps) && OnlyWorker(s, t, w) && SameCalls(s, t) && t.db.jobs == s.db.jobs && w !in t.workers
    ensures Exclusive(t, ps)
  {
    forall v | ActsFor(t, v, ps) ensures Sound(t, v) && Recedes(s, t, v) { assert ActsFor(s, v, ps) && Sound(s, v); }
    forall c | Lands(t, c, ps) ensures Lands(s, c, ps) && HasKey(t, t.calls[c].jobId) { assert Lands(s, c, ps); }
    RecedingKeepsExclusive(s, t, w, ps);
  }

  lemma MovedRecedes(s: State, t: State, w: WorkerId)
    requires DoesMove(s, t, w) && WorkerFits(s, w) && w in t.workers && Sound(s, w) && RowFits(s, JobOf(s, w))
    ensures Sound(t, w) && Recedes(s, t, w)
  {
  }

  lemma MoveKeepsExclusive(s: State, t: State, w: WorkerId, ps: set<SocialPlatform>)
    requires Exclusive(s, ps) && Fits(s) && DoesMove(s, t, w)
    ensures Exclusive(t, ps)
  {
    forall v | ActsFor(t, v, ps) ensures Sound(t, v) && Recedes(s, t, v) {
      assert ActsFor(s, v, ps) && Sound(s, v) && RowFits(s, JobOf(s, v)) && WorkerFits(s, v);
      if v == w { MovedRecedes(s, t, w); }
    }
    forall c | Lands(t, c, ps) ensures Lands(s, c, ps) && HasKey(t, t.calls[c].jobId) { assert Lands(s, c, ps); }
    RecedingKeepsExclusive(s, t, w, ps);
  }

  lemma SendKeepsExclusive(s: State, t: State, w: WorkerId, c: CallId, ps: set<SocialPlatform>)
    requires Exclusive(s, ps) && Fits(s) && DoesSend(s, t, w, c)
    ensures Exclusive(t, ps)
  {
    forall v | ActsFor(t, v, ps)
      ensures Sound(t, v) && StandsAsBefore(s, t, v)
    {
      assert ActsFor(s, v, ps) && Sound(s, v);
    }
    forall v, x | ActsFor(t, v, ps) && ActsFor(t, x, ps) ensures Compatible(t, v, x) {
      assert ActsFor(s, v, ps) && ActsFor(s, x, ps) && Compatible(s, v, x);
    }
    forall d | Lands(t, d, ps) ensures HasKey(t, t.calls[d].jobId) {
      if d != c { assert Lands(s, d, ps); } else { SenderIsKeyed(s, w, ps); }
    }
    forall v, d | ActsFor(t, v, ps) && Lands(t, d, ps) ensures Covered(t, v, d) { SentIsCovered(s, t, w, c, v, d, ps); }
  }

  ghost predicate StandsAsBefore(s: State, t: State, v: WorkerId) {
    JobOf(t, v) == JobOf(s, v) && (FreshLive(t, v) <==> FreshLive(s, v)) && (HoldLive(t, v) <==> HoldLive(s, v))
        && (IsAware(t, v) <==> IsAware(s, v))
  }

  lemma SenderIsKeyed(s: State, w: WorkerId, ps: set<SocialPlatform>)
    requires Exclusive(s, ps) && Fits(s) && ActsFor(s, w, ps) && IsMarked(s, w)
    ensures HasKey(s, JobOf(s, w))
  {
    assert Sound(s, w) && RowFits(s, JobOf(s, w));
  }

  lemma SentIsCovered(s: State, t: State, w: WorkerId, c: CallId, v: WorkerId, d: CallId, ps: set<SocialPlatform>)
    requires Exclusive(s, ps) && DoesSend(s, t, w, c) && ActsFor(t, v, ps) && Lands(t, d, ps) && StandsAsBefore(s, t, v)
    ensures Covered(t, v, d)
  {
    assert ActsFor(s, v, ps);
    if d != c {
      assert Lands(s, d, ps) && Covered(s, v, d);
    } else if v != w && JobOf(s, v) == JobOf(s, w) {
      assert ActsFor(s, w, ps) && Compatible(s, v, w);
    }
  }

  lemma AnswerKeepsExclusive(s: State, t: State, c: CallId, ps: set<SocialPlatform>)
    requires Exclusive(s, ps) && DoesAnswer(s, t, c)
    ensures Exclusive(t, ps)
  {
    forall v | ActsFor(t, v, ps) ensures Sound(t, v) && Recedes(s, t, v) { assert ActsFor(s, v, ps) && Sound(s, v); }
    forall d | Lands(t, d, ps) ensures Lands(s, d, ps) && HasKey(t, t.calls[d].jobId) { assert Lands(s, d, ps); }
    RecedingKeepsExclusive(s, t, 0, ps);
  }

  lemma GrownIsSound(s: State, t: State, v: WorkerId)
    requires Fits(s) && DoesGrow(s, t) && Sound(s, v)
    ensures Sound(t, v) && Recedes(s, t, v)
  {
    if v in s.workers {
      assert WorkerFits(s, v) && RowFits(s, JobOf(s, v)) && RowGrows(s.db.jobs[JobOf(s, v)], t.db.jobs[JobOf(s, v)]);
    }
  }

  lemma GrowthKeepsExclusive(s: State, t: State, ps: set<SocialPlatform>)
    requires Exclusive(s, ps) && Fits(s) && DoesGrow(s, t)
    ensures Exclusive(t, ps)
  {
    forall v | ActsFor(t, v, ps) ensures Sound(t, v) && Recedes(s, t, v) {
      assert ActsFor(s, v, ps) && Sound(s, v);
      GrownIsSound(s, t, v);
    }
    forall c | Lands(t, c, ps) ensures Lands(s, c, ps) && HasKey(t, t.calls[c].jobId) {
      assert Lands(s, c, ps) && RowGrows(s.db.jobs[s.calls[c].jobId], t.db.jobs[s.calls[c].jobId]);
    }
    RecedingKeepsExclusive(s, t, 0, ps);
  }

  lemma CallKeepsExclusive(s: State, e: Event, t: State, ps: set<SocialPlatform>)
    requires Exclusive(s, ps) && Fits(s) && IsCallEvent(e) && CallSummed(s, e, t)
    ensures Exclusive(t, ps)
  {
    match e {
      case Send(w, c) => SendKeepsExclusive(s, t, w, c, ps);
      case Accept(c, _) => AnswerKeepsExclusive(s, t, c, ps);
      case Refuse(c) => AnswerKeepsExclusive(s, t, c, ps);
    }
  }

  lemma SummedKeepsExclusive(s: State, e: Event, t: State, ps: set<SocialPlatform>)
    requires Exclusive(s, ps) && Fits(s) && IsSummed(s, e, t) && IsCareful(s, e, ps)
    ensures Exclusive(t, ps)
  {
    if IsRowStatement(e) { StatementKeepsExclusive(s, e, t, ps); }
    else if IsCallEvent(e) { CallKeepsExclusive(s, e, t, ps); }
    else if IsLocal(e) { MoveKeepsExclusive(s, t, e.w, ps); }
    else { GrowthKeepsExclusive(s, t, ps); }
  }

  lemma StepKeepsExclusive(s: State, e: Event, ps: set<SocialPlatform>)
    requires Inv(s) && Exclusive(s, ps) && Enabled(s, e) && IsCareful(s, e, ps)
    ensures Exclusive(Next(s, e), ps)
  {
    InvFits(s);
    StepIsSummed(s, e);
    SummedKeepsExclusive(s, e, Next(s, e), ps);
  }

  // -------------------------------------------------------------- whole runs

  ghost predicate IsCarefulRun(s: State, run: seq<Event>, ps: set<SocialPlatform>)
    decreases |run|
  {
    run == [] || (Enabled(s, run[0]) && IsCareful(s, run[0], ps) && IsCarefulRun(Next(s, run[0]), run[1..], ps))
  }

  /** The platforms on which nothing deduplicates. */
  function Undeduplicated(s: State): set<SocialPlatform> {
    {LinkedIn, Facebook, Instagram, Threads, X} - s.idempotent
  }

  lemma CarefulNewWriteFindsNullKey(s: State, e: Event)
    requires Exclusive(s, Undeduplicated(s)) && Fits(s) && IsCareful(s, e, Undeduplicated(s))
    ensures FindsNullKey(s, e)
  {
    if IsNewWrite(s, e) {
      assert WorkerFits(s, e.w) && ActsFor(s, e.w, Undeduplicated(s));
      TimelyMarkFindsNullKey(s, e.w, Undeduplicated(s));
    }
  }

  lemma {:induction false} CarefulRunFindsNullKeys(s: State, run: seq<Event>)
    requires Inv(s) && Exclusive(s, Undeduplicated(s)) && IsCarefulRun(s, run, Undeduplicated(s))
    ensures IsNullKeyRun(s, run)
    decreases |run|
  {
    if run != [] {
      StepKeepsExclusive(s, run[0], Undeduplicated(s));
      StepKeepsInv(s, run[0]);
      InvFits(s);
      CarefulNewWriteFindsNullKey(s, run[0]);
      StepEvolves(s, run[0]);
      CarefulRunFindsNullKeys(Next(s, run[0]), run[1..]);
    }
  }

  /** Where nothing deduplicates, a request is never repeated: two timely statements are all that is asked. */
  ghost predicate IsTimely(s: State, e: Event) {
    MarksInTime(s, e, Undeduplicated(s)) && FailsInTime(s, e, Undeduplicated(s))
  }

  ghost predicate IsTimelyRun(s: State, run: seq<Event>)
    decreases |run|
  {
    run == [] || (Enabled(s, run[0]) && IsTimely(s, run[0]) && IsTimelyRun(Next(s, run[0]), run[1..]))
  }

  lemma TimelyIsCareful(s: State, e: Event)
    requires Fits(s) && Enabled(s, e) && IsTimely(s, e)
    ensures IsCareful(s, e, Undeduplicated(s))
  {
    if e.Fail? { assert WorkerFits(s, e.w); }
  }

  lemma {:induction false} TimelyRunIsCareful(s: State, run: seq<Event>)
    requires Inv(s) && IsTimelyRun(s, run)
    ensures IsCarefulRun(s, run, Undeduplicated(s))
    decreases |run|
  {
    if run != [] {
      InvFits(s);
      TimelyIsCareful(s, run[0]);
      StepKeepsInv(s, run[0]);
      StepEvolves(s, run[0]);
      TimelyRunIsCareful(Next(s, run[0]), run[1..]);
    }
  }

  /** Two timely statements of a worker buy at-most-once publication for every run. */
  lemma TimelyWorkersPublishAtMostOnce(s: State, run: seq<Event>)
    requires Init(s) && IsTimelyRun(s, run)
    ensures IsNullKeyRun(s, run) && IsCleanRun(s, run) && IsRun(s, run) && OnePostPerJob(Exec(s, run))
    ensures OneOpenCall(Exec(s, run))
  {
    InitHasInv(s);
    TimelyRunIsCareful(s, run);
    CarefulRunFindsNullKeys(s, run);
    NullKeysMeanOnePost(s, run);
    AtMostOnePost(s, run);
  }
}
