/**
 * A successful cancel is final: nothing of the post is sent afterwards, by anybody, and what
 * was cancelled is never posted. On a platform without idempotent publish this needs clean
 * runs up to the cancel; with it, it needs careful ones. In general it holds exactly if no
 * request of the job is open when the cancel succeeds.
 */
module CancelSafety {
  import opened Wrappers
  import opened PostEntity
  import opened PostService
  import opened PostRepository
  import opened EditContract
  import opened PublishProtocol
  import opened GenuineRuns
  import opened ProtocolInvariant
  import opened EditorialSteps
  import opened ProtocolSafety
  import opened StepFacts
  import opened AtMostOnce
  import opened LeaseTiming
  import opened PublishGuarantees

  // -------------------------------------------------------------- the cancel itself

  predicate IsCancel(e: Event) {
    e.Edit? && e.command.Cancel?
  }

  predicate IsCancelled(s: State, j: JobId) {
    j in s.db.jobs && s.db.jobs[j].status == Cancelled
  }

  predicate IsOn(s: State, j: JobId, ps: set<SocialPlatform>) {
    j in s.db.jobs && s.db.jobs[j].platform in ps
  }

  lemma CancelledTables(s: State, t: State, p: PostId, command: Command)
    requires EditedTo(s, t, p, command) && command.Cancel?
    ensures p in t.db.posts && Frozen(t, p)
  {
    ShapeIsReadable(t.db, p);
    forall j | j in t.db.jobsOfPost[p] ensures t.db.jobs[j].status in {Published, Cancelled} {
      assert IsEditedJob(s.db, t.db, p, command, j);
    }
  }

  lemma CancelFreezes(s: State, e: Event)
    requires Inv(s) && Enabled(s, e) && IsCancel(e)
    ensures Inv(Next(s, e)) && e.postId in Next(s, e).db.posts && Frozen(Next(s, e), e.postId)
  {
    StepKeepsInv(s, e);
    EditIsStep(s, e);
    CancelledTables(s, Next(s, e), e.postId, e.command);
  }

  /** No call and no worker moves at the cancel. */
  lemma CancelMovesRowsOnly(s: State, e: Event)
    requires Enabled(s, e) && IsCancel(e)
    ensures Next(s, e).calls == s.calls && Next(s, e).workers == s.workers && Next(s, e).idempotent == s.idempotent
  {
    EditIsStep(s, e);
  }

  // -------------------------------------------------------------- a job that has ended

  predicate HasEnded(s: State, j: JobId) {
    j in s.db.jobs && s.db.jobs[j].status in {Published, Cancelled}
  }

  /** No call of job j waits for the provider, and no worker is about to send one. */
  ghost predicate IsSilent(s: State, j: JobId) {
    && (forall c | c in s.calls && s.calls[c].jobId == j :: s.calls[c].state != InFlight)
    && (forall w | w in s.workers && s.workers[w].job.id == j :: !s.workers[w].phase.Marked?)
  }

  predicate IsCallOf(s: State, c: CallId, j: JobId) {
    c in s.calls && s.calls[c].jobId == j
  }

  /** The provider calls of job j, and what became of them, are the same in s and t. */
  ghost predicate SameCallsOf(s: State, t: State, j: JobId) {
    forall c :: (IsCallOf(t, c, j) <==> IsCallOf(s, c, j)) && (IsCallOf(s, c, j) ==> t.calls[c] == s.calls[c])
  }

  /** Only a claimed row is marked, and an ended one is not claimed. */
  lemma MarkKeepsSilent(s: State, t: State, w: WorkerId, leaseMs: nat, j: JobId)
    requires HasEnded(s, j) && IsSilent(s, j) && DoesMark(s, t, w, leaseMs)
    ensures IsSilent(t, j) && SameCallsOf(s, t, j)
  {
  }

  /** Worker w did not mark. */
  lemma StatementKeepsSilent(s: State, t: State, w: WorkerId, k: JobId, j: JobId)
    requires IsSilent(s, j) && Statement(s, t, w, k) && (w in t.workers ==> !t.workers[w].phase.Marked?)
    ensures IsSilent(t, j) && SameCallsOf(s, t, j)
  {
  }

  lemma RowStatementKeepsSilent(s: State, e: Event, t: State, j: JobId)
    requires HasEnded(s, j) && IsSilent(s, j) && IsRowStatement(e) && StatementSummed(s, e, t)
    ensures IsSilent(t, j) && SameCallsOf(s, t, j)
  {
    match e {
      case Mark(w, leaseMs) => MarkKeepsSilent(s, t, w, leaseMs, j);
      case Claim(w, k, _, _) => StatementKeepsSilent(s, t, w, k, j);
      case Confirm(w) => StatementKeepsSilent(s, t, w, JobOf(s, w), j);
      case Finish(w) => StatementKeepsSilent(s, t, w, JobOf(s, w), j);
      case Defer(w) => StatementKeepsSilent(s, t, w, JobOf(s, w), j);
      case Fail(w) => StatementKeepsSilent(s, t, w, JobOf(s, w), j);
    }
  }

  lemma CallKeepsSilent(s: State, e: Event, t: State, j: JobId)
    requires IsSilent(s, j) && IsCallEvent(e) && CallSummed(s, e, t)
    ensures IsSilent(t, j) && SameCallsOf(s, t, j)
  {
  }

  lemma SummedKeepsSilent(s: State, e: Event, t: State, j: JobId)
    requires HasEnded(s, j) && IsSilent(s, j) && IsSummed(s, e, t)
    ensures IsSilent(t, j) && SameCallsOf(s, t, j)
  {
    if IsRowStatement(e) { RowStatementKeepsSilent(s, e, t, j); }
    else if IsCallEvent(e) { CallKeepsSilent(s, e, t, j); }
  }

  lemma StepKeepsSilent(s: State, e: Event, j: JobId)
    requires Inv(s) && Enabled(s, e) && HasEnded(s, j) && IsSilent(s, j)
    ensures Inv(Next(s, e)) && HasEnded(Next(s, e), j) && IsSilent(Next(s, e), j) && SameCallsOf(s, Next(s, e), j)
  {
    StepKeepsInv(s, e);
    StepEvolves(s, e);
    StepIsSummed(s, e);
    SummedKeepsSilent(s, e, Next(s, e), j);
    assert SuccessIsFrozen(s.db.jobs[j], Next(s, e).db.jobs[j]);
  }

  lemma SameCallsTransitively(s: State, t: State, u: State, j: JobId)
    requires SameCallsOf(s, t, j) && SameCallsOf(t, u, j)
    ensures SameCallsOf(s, u, j)
  {
  }

  /** Once silent, an ended job makes no call for ever, over every run whatsoever. */
  lemma {:induction false} SilenceStays(s: State, run: seq<Event>, j: JobId)
    requires Inv(s) && IsRun(s, run) && HasEnded(s, j) && IsSilent(s, j)
    ensures Inv(Exec(s, run)) && HasEnded(Exec(s, run), j) && SameCallsOf(s, Exec(s, run), j)
    decreases |run|
  {
    if run != [] {
      var t := Next(s, run[0]);
      StepKeepsSilent(s, run[0], j);
      SilenceStays(t, run[1..], j);
      SameCallsTransitively(s, t, Exec(t, run[1..]), j);
    }
  }

  // -------------------------------------------------------------- the exact condition

  ghost predicate IsPosted(s: State, j: JobId) {
    exists r :: IsPostOf(s, r, j)
  }

  /** A call of job j was accepted or may be, or a worker is about to send one. */
  ghost predicate HasOpenRequest(s: State, j: JobId) {
    || (exists c :: IsCallOf(s, c, j) && s.calls[c].state != Refused)
    || (exists w :: IsMarked(s, w) && s.workers[w].job.id == j)
  }

  lemma ClosedJobStaysUnposted(s: State, run: seq<Event>, j: JobId)
    requires Inv(s) && IsRun(s, run) && HasEnded(s, j) && !HasOpenRequest(s, j)
    ensures !IsPosted(Exec(s, run), j)
  {
    ClosedIsSilent(s, j);
    SilenceStays(s, run, j);
    RefusedIsUnposted(s, Exec(s, run), j);
  }

  lemma ClosedIsSilent(s: State, j: JobId)
    requires !HasOpenRequest(s, j)
    ensures IsSilent(s, j) && AllRefused(s, j)
  {
    forall c | c in s.calls && s.calls[c].jobId == j ensures s.calls[c].state == Refused { assert IsCallOf(s, c, j); }
    forall w | w in s.workers && s.workers[w].job.id == j ensures !s.workers[w].phase.Marked? {
      assert s.workers[w].phase.Marked? ==> IsMarked(s, w);
    }
  }

  ghost predicate AllRefused(s: State, j: JobId) {
    forall c | IsCallOf(s, c, j) :: s.calls[c].state == Refused
  }

  lemma RefusedIsUnposted(s: State, t: State, j: JobId)
    requires AllRefused(s, j) && SameCallsOf(s, t, j)
    ensures !IsPosted(t, j)
  {
    forall r ensures !IsPostOf(t, r, j) { assert IsCallOf(t, r, j) ==> IsCallOf(s, r, j); }
  }

  /** Some genuine run leads to a remote post of job j. */
  ghost predicate CanBePosted(s: State, j: JobId) {
    exists run :: IsGenuineRun(s, run) && IsPosted(Exec(s, run), j)
  }

  /** No run at all leads to one, genuine or not. */
  ghost predicate IsNeverPosted(s: State, j: JobId) {
    forall run | IsRun(s, run) :: !IsPosted(Exec(s, run), j)
  }

  lemma PostedCanBePosted(s: State, j: JobId)
    requires IsPosted(s, j)
    ensures CanBePosted(s, j)
  {
    assert IsGenuineRun(s, []) && Exec(s, []) == s;
  }

  lemma AfterStepCanBePosted(s: State, e: Event, j: JobId)
    requires Enabled(s, e) && !e.Edit? && CanBePosted(Next(s, e), j)
    ensures CanBePosted(s, j)
  {
    var rest :| IsGenuineRun(Next(s, e), rest) && IsPosted(Exec(Next(s, e), rest), j);
    OneMoreIsGenuine(s, e, rest);
  }

  lemma AcceptedIsPosted(s: State, c: CallId, j: JobId)
    requires CallsInv(s) && IsCallOf(s, c, j) && s.calls[c].state.Accepted?
    ensures IsPosted(s, j)
  {
    assert CallInv(s, c);
  }

  lemma KnownKeyIsPosted(s: State, c: CallId, r: CallId, j: JobId)
    requires CallsInv(s) && IsCallOf(s, c, j) && Deduplicates(s, c, r)
    ensures IsPosted(s, j)
  {
    assert CallInv(s, c) && CallInv(s, r) && IsPostOf(s, r, j);
  }

  lemma AcceptPosts(s: State, c: CallId, j: JobId)
    requires IsCallOf(s, c, j) && MayAccept(s, c, c)
    ensures Enabled(s, Accept(c, c)) && IsPosted(Next(s, Accept(c, c)), j)
  {
    assert IsPostOf(Next(s, Accept(c, c)), c, j);
  }

  lemma OpenCallCanBePosted(s: State, c: CallId, j: JobId)
    requires CallsInv(s) && IsCallOf(s, c, j) && s.calls[c].state != Refused
    ensures CanBePosted(s, j)
  {
    if s.calls[c].state.Accepted? {
      AcceptedIsPosted(s, c, j);
      PostedCanBePosted(s, j);
    } else if r :| Deduplicates(s, c, r) {
      KnownKeyIsPosted(s, c, r, j);
      PostedCanBePosted(s, j);
    } else {
      AcceptPosts(s, c, j);
      PostedCanBePosted(Next(s, Accept(c, c)), j);
      AfterStepCanBePosted(s, Accept(c, c), j);
    }
  }

  /** There is always a number no call has yet. */
  lemma {:induction false} UnusedCallId(ids: set<CallId>) returns (n: CallId)
    ensures forall c | c in ids :: c < n
    decreases ids
  {
    if ids == {} {
      n := 0;
    } else {
      var c :| c in ids;
      var rest := UnusedCallId(ids - {c});
      n := if rest <= c then c + 1 else rest;
      assert forall k | k in ids :: k == c || k in ids - {c};
    }
  }

  lemma SendIsCall(s: State, w: WorkerId, c: CallId)
    requires IsMarked(s, w) && c !in s.calls
    ensures Enabled(s, Send(w, c)) && IsCallOf(Next(s, Send(w, c)), c, s.workers[w].job.id)
    ensures Next(s, Send(w, c)).calls[c].state == InFlight
  {
  }

  lemma OpenRequestCanBePosted(s: State, j: JobId)
    requires Inv(s) && HasOpenRequest(s, j)
    ensures CanBePosted(s, j)
  {
    if c :| IsCallOf(s, c, j) && s.calls[c].state != Refused {
      OpenCallCanBePosted(s, c, j);
    } else {
      var w :| IsMarked(s, w) && s.workers[w].job.id == j;
      var c := UnusedCallId(s.calls.Keys);
      SendIsCall(s, w, c);
      StepKeepsInv(s, Send(w, c));
      OpenCallCanBePosted(Next(s, Send(w, c)), c, j);
      AfterStepCanBePosted(s, Send(w, c), j);
    }
  }

  /** An ended job can still be posted exactly if one of its requests is open. */
  lemma EndedJobCanBePosted(s: State, j: JobId)
    requires Inv(s) && HasEnded(s, j)
    ensures CanBePosted(s, j) <==> HasOpenRequest(s, j)
    ensures IsNeverPosted(s, j) <==> !HasOpenRequest(s, j)
  {
    if HasOpenRequest(s, j) {
      OpenRequestCanBePosted(s, j);
    } else {
      forall run | IsRun(s, run) ensures !IsPosted(Exec(s, run), j) { ClosedJobStaysUnposted(s, run, j); }
    }
    forall run | IsGenuineRun(s, run) ensures IsRun(s, run) { GenuineRunIsRun(s, run); }
  }

  /**
   * On every platform and in every state: a job that a successful cancel cancels can still be
   * posted exactly if, when the cancel succeeds, one of its calls was accepted or may be, or a
   * worker is about to send one. Nothing that anybody does afterwards matters: if none is open,
   * no run posts it, and if one is, a genuine run does.
   */
  lemma CancelledJobCanBePosted(s: State, before: seq<Event>, cancel: Event, j: JobId)
    requires Init(s) && IsRun(s, before) && IsCancel(cancel) && Enabled(Exec(s, before), cancel)
    requires IsCancelled(Next(Exec(s, before), cancel), j)
    ensures CanBePosted(Next(Exec(s, before), cancel), j) <==> HasOpenRequest(Exec(s, before), j)
    ensures IsNeverPosted(Next(Exec(s, before), cancel), j) <==> !HasOpenRequest(Exec(s, before), j)
  {
    var u := Exec(s, before);
    InitHasInv(s);
    RunKeepsInv(s, before);
    StepKeepsInv(u, cancel);
    CancelMovesRowsOnly(u, cancel);
    assert HasOpenRequest(Next(u, cancel), j) <==> HasOpenRequest(u, j) by { SameRequests(u, Next(u, cancel), j); }
    EndedJobCanBePosted(Next(u, cancel), j);
  }

  lemma SameRequests(s: State, t: State, j: JobId)
    requires t.calls == s.calls && t.workers == s.workers
    ensures HasOpenRequest(t, j) <==> HasOpenRequest(s, j)
  {
    assert forall c :: IsCallOf(t, c, j) <==> IsCallOf(s, c, j);
    assert forall w :: IsMarked(t, w) <==> IsMarked(s, w);
  }

  // -------------------------------------------------------------- what makes the condition hold

  /** Workers that keep to their leases and clear no key another request still needs leave nothing open. */
  lemma NullKeyClosesJob(s: State, j: JobId, ps: set<SocialPlatform>)
    requires Exclusive(s, ps) && Fits(s) && j in s.db.jobs && s.db.jobs[j].platform in ps && !HasKey(s, j)
    ensures !HasOpenRequest(s, j)
  {
    assert RowFits(s, j);
    forall c | IsCallOf(s, c, j)
      ensures s.calls[c].state == Refused
    {
      assert CallFits(s, c) && (MayLand(s, c) ==> Lands(s, c, ps));
    }
    forall w | IsMarked(s, w) ensures s.workers[w].job.id != j {
      assert WorkerFits(s, w);
      if ActsFor(s, w, ps) { assert Sound(s, w); }
    }
  }

  lemma {:induction false} CarefulRunKeepsExclusive(s: State, run: seq<Event>, ps: set<SocialPlatform>)
    requires Inv(s) && Exclusive(s, ps) && IsCarefulRun(s, run, ps)
    ensures IsRun(s, run) && Inv(Exec(s, run)) && Exclusive(Exec(s, run), ps)
    decreases |run|
  {
    if run != [] {
      StepKeepsInv(s, run[0]);
      StepKeepsExclusive(s, run[0], ps);
      CarefulRunKeepsExclusive(Next(s, run[0]), run[1..], ps);
    }
  }

  lemma InitIsExclusive(s: State, ps: set<SocialPlatform>)
    requires Init(s)
    ensures Exclusive(s, ps)
  {
  }

  /** On any platform, with or without idempotent publish, after a careful run. */
  lemma CancelIsSafeAfterCarefulRun(s: State, before: seq<Event>, cancel: Event, run: seq<Event>, j: JobId,
      ps: set<SocialPlatform>)
    requires Init(s) && IsCarefulRun(s, before, ps) && IsCancel(cancel) && Enabled(Exec(s, before), cancel)
    requires IsOn(Exec(s, before), j, ps) && IsCancelled(Next(Exec(s, before), cancel), j)
    requires IsRun(Next(Exec(s, before), cancel), run)
    ensures !IsPosted(Exec(Next(Exec(s, before), cancel), run), j)
  {
    InitHasInv(s);
    InitIsExclusive(s, ps);
    CarefulRunKeepsExclusive(s, before, ps);
    CarefulCancelIsSafe(Exec(s, before), cancel, run, j, ps);
  }

  lemma CarefulCancelIsSafe(s: State, cancel: Event, run: seq<Event>, j: JobId, ps: set<SocialPlatform>)
    requires Inv(s) && Exclusive(s, ps) && IsCancel(cancel) && Enabled(s, cancel)
    requires IsOn(s, j, ps) && IsCancelled(Next(s, cancel), j) && IsRun(Next(s, cancel), run)
    ensures !IsPosted(Exec(Next(s, cancel), run), j)
  {
    CarefulCancelCloses(s, cancel, j, ps);
    ClosedJobStaysUnposted(Next(s, cancel), run, j);
  }

  lemma CarefulCancelCloses(s: State, cancel: Event, j: JobId, ps: set<SocialPlatform>)
    requires Inv(s) && Exclusive(s, ps) && IsCancel(cancel) && Enabled(s, cancel)
    requires IsOn(s, j, ps) && IsCancelled(Next(s, cancel), j)
    ensures Inv(Next(s, cancel)) && !HasOpenRequest(Next(s, cancel), j)
  {
    var t := Next(s, cancel);
    StepKeepsExclusive(s, cancel, ps);
    StepFits(s, cancel);
    StepKeepsInv(s, cancel);
    StepEvolves(s, cancel);
    CancelledRowHasNoKey(s, t, j);
    NullKeyClosesJob(t, j, ps);
  }

  lemma CancelledRowHasNoKey(s: State, t: State, j: JobId)
    requires Fits(t) && JobsEvolve(s, t) && j in s.db.jobs && IsCancelled(t, j)
    ensures !HasKey(t, j) && t.db.jobs[j].platform == s.db.jobs[j].platform
  {
    assert RowFits(t, j);
  }

  // -------------------------------------------------------------- platforms without idempotent publish

  /** A cancelled job has no call that was or may be accepted, a published one exactly the call its row names. */
  ghost predicate CallsTellTheRow(s: State, j: JobId) {
    j in s.db.jobs && forall c | IsCallOf(s, c, j) ::
      s.calls[c].state == if s.db.jobs[j].status == Published && s.db.jobs[j].remotePostId == Some(c) then Accepted(c)
          else Refused
  }

  lemma CallsOfPublished(s: State, j: JobId, c: CallId)
    requires Token(s) && CallsInv(s) && j in s.db.jobs && JobInv(s, j) && s.db.jobs[j].platform !in s.idempotent
    requires s.db.jobs[j].status == Published && IsCallOf(s, c, j)
    ensures s.calls[c].state == if s.db.jobs[j].remotePostId == Some(c) then Accepted(c) else Refused
  {
    var r := s.db.jobs[j].remotePostId.value;
    assert CallInv(s, r) && CallInv(s, c);
    assert OpenCall(s, r);
    if OpenCall(s, c) { assert c == r; }
  }

  lemma CallsOfEnded(s: State, j: JobId)
    requires Token(s) && CallsInv(s) && HasEnded(s, j) && JobInv(s, j) && s.db.jobs[j].platform !in s.idempotent
    ensures CallsTellTheRow(s, j)
  {
    forall c | IsCallOf(s, c, j)
      ensures s.calls[c].state == if s.db.jobs[j].status == Published && s.db.jobs[j].remotePostId == Some(c)
               then Accepted(c) else Refused
    {
      assert CallInv(s, c);
      if s.db.jobs[j].status == Published {
        CallsOfPublished(s, j, c);
      } else {
        assert OpenCall(s, c) ==> HasKey(s, j);
      }
    }
  }

  /** A worker that is about to send would hold the token, and the row of the job would be keyed and unpublished. */
  lemma EndedIsSilent(s: State, j: JobId)
    requires Token(s) && Fits(s) && HasEnded(s, j) && JobInv(s, j) && CallsTellTheRow(s, j)
    requires s.db.jobs[j].platform !in s.idempotent
    ensures IsSilent(s, j)
  {
    if s.db.jobs[j].status == Published {
      var r := s.db.jobs[j].remotePostId.value;
      assert CallFits(s, r) && OpenCall(s, r);
    }
    forall w | w in s.workers && s.workers[w].job.id == j ensures !s.workers[w].phase.Marked? {
      assert WorkerFits(s, w) && (s.workers[w].phase.Marked? ==> Holds(s, w));
    }
  }

  lemma SameCallsTellTheRow(s: State, t: State, j: JobId)
    requires CallsTellTheRow(s, j) && SameCallsOf(s, t, j) && j in t.db.jobs && t.db.jobs[j] == s.db.jobs[j]
    ensures CallsTellTheRow(t, j)
  {
    assert forall c | IsCallOf(t, c, j) :: IsCallOf(s, c, j);
  }

  lemma EndedJobIsSettled(s: State, run: seq<Event>, j: JobId)
    requires Inv(s) && Token(s) && HasEnded(s, j) && s.db.jobs[j].platform !in s.idempotent && IsRun(s, run)
    ensures SameCallsOf(s, Exec(s, run), j) && CallsTellTheRow(Exec(s, run), j)
  {
    InvFits(s);
    assert JobInv(s, j);
    CallsOfEnded(s, j);
    EndedIsSilent(s, j);
    SilenceStays(s, run, j);
    RunEvolves(s, run);
    assert SuccessIsFrozen(s.db.jobs[j], Exec(s, run).db.jobs[j]);
    SameCallsTellTheRow(s, Exec(s, run), j);
  }

  /**
   * Once cancel succeeded after a clean run: over every run that follows, every job of the post
   * stays published or cancelled, no provider call of the post starts and none changes its
   * outcome, a cancelled job has no call that was or may be accepted, and a published one
   * exactly the call its row names.
   */
  lemma CancelIsSafe(s: State, before: seq<Event>, cancel: Event, run: seq<Event>)
    requires Init(s) && IsCleanRun(s, before) && IsCancel(cancel) && Enabled(Exec(s, before), cancel)
    requires IsRun(Next(Exec(s, before), cancel), run)
    ensures var p, c0 := cancel.postId, Next(Exec(s, before), cancel);
            var t := Exec(c0, run);
            && p in c0.db.jobsOfPost && Frozen(t, p) && ReadJobs(t.db, p) == ReadJobs(c0.db, p)
            && forall j | j in c0.db.jobsOfPost[p] && j in c0.db.jobs && c0.db.jobs[j].platform !in c0.idempotent ::
                 SameCallsOf(c0, t, j) && CallsTellTheRow(t, j)
  {
    var u, c0 := Exec(s, before), Next(Exec(s, before), cancel);
    InitHasInv(s);
    CleanRunKeepsToken(s, before);
    CancelFreezes(u, cancel);
    StepKeepsToken(u, cancel);
    FrozenPostStays(c0, run, cancel.postId);
    forall j | j in c0.db.jobsOfPost[cancel.postId] && j in c0.db.jobs && c0.db.jobs[j].platform !in c0.idempotent
      ensures SameCallsOf(c0, Exec(c0, run), j) && CallsTellTheRow(Exec(c0, run), j)
    {
      EndedJobIsSettled(c0, run, j);
    }
  }
}
