/**
 * When a job is sent at or after the time that stands in its row: always if the row carries a
 * request key, so over every clean run without idempotent publish and over every careful run
 * on any platform; and in general exactly unless the post was rescheduled under a worker that
 * was about to send.
 */
module SendTimes {
  import opened Wrappers
  import opened PostEntity
  import opened Schema
  import opened PostService
  import opened EditContract
  import opened PublishProtocol
  import opened GenuineRuns
  import opened ProtocolInvariant
  import opened EditorialSteps
  import opened CreateAndDispatch
  import opened ProtocolSafety
  import opened StepFacts
  import opened AtMostOnce
  import opened LeaseTiming
  import opened CancelSafety

  /** The time in the row of job j has come. */
  predicate IsDue(s: State, j: JobId) {
    j in s.db.jobs && s.db.jobs[j].scheduledAt <= s.now
  }

  // -------------------------------------------------------------- a keyed row is due

  lemma KeyedRowIsDue(s: State, j: JobId)
    requires Inv(s) && HasKey(s, j)
    ensures IsDue(s, j)
  {
    assert JobInv(s, j);
  }

  /** Without idempotent publish, after a clean run. */
  lemma CleanSendIsDue(s: State, run: seq<Event>, w: WorkerId, c: CallId)
    requires Init(s) && IsCleanRun(s, run) && Enabled(Exec(s, run), Send(w, c))
    requires Exec(s, run).workers[w].job.platform !in Exec(s, run).idempotent
    ensures IsDue(Exec(s, run), Exec(s, run).workers[w].job.id)
  {
    InitHasInv(s);
    CleanRunKeepsToken(s, run);
    HolderIsDue(Exec(s, run), w);
  }

  lemma HolderIsDue(t: State, w: WorkerId)
    requires Inv(t) && Token(t) && IsMarked(t, w) && t.workers[w].job.platform !in t.idempotent
    ensures IsDue(t, t.workers[w].job.id)
  {
    assert Holds(t, w);
    KeyedRowIsDue(t, t.workers[w].job.id);
  }

  /** On any platform, with or without idempotent publish, after a careful run. */
  lemma CarefulSendIsDue(s: State, run: seq<Event>, w: WorkerId, c: CallId, ps: set<SocialPlatform>)
    requires Init(s) && IsCarefulRun(s, run, ps) && Enabled(Exec(s, run), Send(w, c))
    requires Exec(s, run).workers[w].job.platform in ps
    ensures IsDue(Exec(s, run), Exec(s, run).workers[w].job.id)
  {
    InitHasInv(s);
    InitIsExclusive(s, ps);
    CarefulRunKeepsExclusive(s, run, ps);
    CarefulMarkedIsDue(Exec(s, run), w, ps);
  }

  lemma CarefulMarkedIsDue(t: State, w: WorkerId, ps: set<SocialPlatform>)
    requires Inv(t) && Exclusive(t, ps) && IsMarked(t, w) && t.workers[w].job.platform in ps
    ensures IsDue(t, t.workers[w].job.id)
  {
    InitialFits(t);
    SenderIsKeyed(t, w, ps);
    KeyedRowIsDue(t, t.workers[w].job.id);
  }

  lemma InitialFits(t: State)
    requires Inv(t)
    ensures Fits(t)
  {
    InvFits(t);
  }

  // -------------------------------------------------------------- what moves the time of a row

  /** The time this event gives row j: schedule of its post, unless the row is cancelled, and its retry. */
  function MoveOf(s: State, e: Event, j: JobId): Option<Time> {
    if !e.Edit? || j !in s.db.jobs then None
    else if e.command.Schedule? && s.db.jobs[j].postId == e.postId && s.db.jobs[j].status != Cancelled
        then Some(e.command.scheduledAt)
    else if e.command.Retry? && e.command.jobId == j then Some(e.command.retriedAt)
    else None
  }

  predicate SameTime(s: State, t: State, j: JobId) {
    j in s.db.jobs && j in t.db.jobs && t.db.jobs[j].scheduledAt == s.db.jobs[j].scheduledAt
  }

  predicate TimeMoves(s: State, e: Event, t: State, j: JobId) {
    j in t.db.jobs && j in s.db.jobs && t.db.jobs[j].scheduledAt == MoveOf(s, e, j).GetOr(s.db.jobs[j].scheduledAt)
  }

  lemma EditedRowAt(s: State, t: State, p: PostId, command: Command, j: JobId)
    requires EditedTo(s, t, p, command) && j in s.db.jobsOfPost[p]
    ensures j in s.db.jobs && j in t.db.jobs && EditedRow(command, s.db.jobs[j], t.db.jobs[j])
  {
    assert IsEditedJob(s.db, t.db, p, command, j);
  }

  lemma EditedRowTime(s: State, t: State, e: Event, j: JobId)
    requires e.Edit? && j in s.db.jobs && j in t.db.jobs && s.db.jobs[j].id == j && s.db.jobs[j].postId == e.postId
    requires EditedRow(e.command, s.db.jobs[j], t.db.jobs[j])
    ensures TimeMoves(s, e, t, j)
  {
  }

  lemma OtherRowAt(s: State, t: State, p: PostId, command: Command, j: JobId)
    requires Shape(s.db) && EditedTo(s, t, p, command) && j in s.db.jobs && s.db.jobs[j].postId != p
    ensures SameTime(s, t, j) && (command.Retry? ==> command.jobId != j)
  {
    assert IndexOk(s.db, p);
  }

  lemma EditMovesTime(s: State, e: Event, j: JobId)
    requires Inv(s) && Enabled(s, e) && e.Edit? && j in s.db.jobs
    ensures TimeMoves(s, e, Next(s, e), j)
  {
    EditIsStep(s, e);
    if s.db.jobs[j].postId == e.postId {
      EditedRowAt(s, Next(s, e), e.postId, e.command, j);
      EditedRowTime(s, Next(s, e), e, j);
    } else {
      OtherRowAt(s, Next(s, e), e.postId, e.command, j);
    }
  }

  lemma OneRowKeepsTime(s: State, t: State, k: JobId, j: JobId)
    requires SameElsewhere(s, t, k) && j in s.db.jobs
    ensures SameTime(s, t, j)
  {
  }

  lemma StatementKeepsTime(s: State, e: Event, j: JobId) returns (t: State)
    requires Inv(s) && Enabled(s, e) && IsRowStatement(e) && j in s.db.jobs
    ensures t == Next(s, e) && SameTime(s, t, j)
  {
    t := Next(s, e);
    StatementFrame(s, e);
    OneRowKeepsTime(s, t, RowOf(s, e), j);
  }

  lemma CreatedBesideTime(s: State, t: State, post: Post, jobs: seq<SocialPublishJob>, j: JobId)
    requires AddsDraftJobs(WithPost(s.db, post), t.db, post.id, jobs) && j in s.db.jobs
    ensures SameTime(s, t, j)
  {
  }

  lemma OtherStepKeepsTime(s: State, e: Event, j: JobId)
    requires Inv(s) && Enabled(s, e) && !e.Edit? && j in s.db.jobs
    ensures SameTime(s, Next(s, e), j)
  {
    if IsRowStatement(e) { var t := StatementKeepsTime(s, e, j); }
    else if e.Create? { CreateAdds(s, e); CreatedBesideTime(s, Next(s, e), e.post, e.jobs, j); }
    else if IsDispatch(e) { DispatchIsOnly(s, e); }
    else if IsLocal(e) { LocalMovesWorkersOnly(s, e); }
  }

  lemma StepMovesTime(s: State, e: Event, j: JobId)
    requires Inv(s) && Enabled(s, e) && j in s.db.jobs
    ensures TimeMoves(s, e, Next(s, e), j)
  {
    if e.Edit? { EditMovesTime(s, e, j); } else { OtherStepKeepsTime(s, e, j); }
  }

  /** The last time that a run gives row j, if it gives one. */
  ghost function LastMove(s: State, run: seq<Event>, j: JobId): Option<Time>
    decreases |run|
  {
    if run == [] then None else Latest(MoveOf(s, run[0], j), LastMove(Next(s, run[0]), run[1..], j))
  }

  function Latest(first: Option<Time>, second: Option<Time>): Option<Time> {
    if second.Some? then second else first
  }

  /** In state u row j has the time of its last move, or else the one it had in s. */
  predicate HasTime(s: State, u: State, j: JobId, last: Option<Time>) {
    j in s.db.jobs && j in u.db.jobs && u.db.jobs[j].scheduledAt == last.GetOr(s.db.jobs[j].scheduledAt)
  }

  lemma TimesCompose(s: State, e: Event, t: State, u: State, j: JobId, later: Option<Time>)
    requires TimeMoves(s, e, t, j) && HasTime(t, u, j, later)
    ensures HasTime(s, u, j, Latest(MoveOf(s, e, j), later))
  {
  }

  lemma {:induction false} RowHasLastTime(s: State, run: seq<Event>, j: JobId)
    requires Inv(s) && IsRun(s, run) && j in s.db.jobs
    ensures HasTime(s, Exec(s, run), j, LastMove(s, run, j))
    decreases |run|
  {
    if run != [] {
      var t := Next(s, run[0]);
      StepKeepsInv(s, run[0]);
      StepMovesTime(s, run[0], j);
      RowHasLastTime(t, run[1..], j);
      TimesCompose(s, run[0], t, Exec(t, run[1..]), j, LastMove(t, run[1..], j));
    }
  }

  /**
   * From the moment a row was due, as it is at every claim: it is due later exactly unless the
   * last schedule or retry since then gave it a time that has not come.
   */
  lemma DueUnlessRescheduled(s: State, run: seq<Event>, j: JobId)
    requires Inv(s) && IsRun(s, run) && IsDue(s, j)
    ensures IsDue(Exec(s, run), j) <==> LastMove(s, run, j).GetOr(0) <= Exec(s, run).now
  {
    RowHasLastTime(s, run, j);
    RunEvolves(s, run);
  }

  // -------------------------------------------------------------- the exact condition at the schedule

  ghost predicate NoneMarked(s: State, j: JobId) {
    forall w | IsMarked(s, w) :: s.workers[w].job.id != j
  }

  /** Its time has come, or the row was not claimed yet and no worker is about to send it. */
  ghost predicate IsUntouched(s: State, j: JobId, time: Time) {
    && j in s.db.jobs && s.db.jobs[j].scheduledAt == time
    && (time <= s.now || (s.db.jobs[j].status in {Waiting, Cancelled} && NoneMarked(s, j)))
  }

  lemma MarkMarksClaimed(s: State, t: State, w: WorkerId, leaseMs: nat, j: JobId)
    requires DoesMark(s, t, w, leaseMs) && NoneMarked(s, j) && j in s.db.jobs && s.db.jobs[j].status != Claimed
    ensures NoneMarked(t, j)
  {
    forall v | IsMarked(t, v) ensures t.workers[v].job.id != j { assert v != w ==> IsMarked(s, v); }
  }

  lemma StatementMarksNothing(s: State, t: State, w: WorkerId, k: JobId, j: JobId)
    requires Statement(s, t, w, k) && NoneMarked(s, j) && (w in t.workers ==> !t.workers[w].phase.Marked?)
    ensures NoneMarked(t, j)
  {
    forall v | IsMarked(t, v) ensures t.workers[v].job.id != j { assert IsMarked(s, v); }
  }

  lemma RowStatementMarks(s: State, e: Event, t: State, j: JobId)
    requires IsRowStatement(e) && StatementSummed(s, e, t) && NoneMarked(s, j) && j in s.db.jobs
    requires s.db.jobs[j].status != Claimed
    ensures NoneMarked(t, j)
  {
    match e {
      case Mark(w, leaseMs) => MarkMarksClaimed(s, t, w, leaseMs, j);
      case Claim(w, k, _, _) => StatementMarksNothing(s, t, w, k, j);
      case Confirm(w) => StatementMarksNothing(s, t, w, JobOf(s, w), j);
      case Finish(w) => StatementMarksNothing(s, t, w, JobOf(s, w), j);
      case Defer(w) => StatementMarksNothing(s, t, w, JobOf(s, w), j);
      case Fail(w) => StatementMarksNothing(s, t, w, JobOf(s, w), j);
    }
  }

  lemma OtherStepMarksNothing(s: State, e: Event, t: State, j: JobId)
    requires IsSummed(s, e, t) && !IsRowStatement(e) && NoneMarked(s, j)
    ensures NoneMarked(t, j)
  {
    forall v | IsMarked(t, v) ensures t.workers[v].job.id != j { assert IsMarked(s, v); }
  }

  lemma SummedMarks(s: State, e: Event, t: State, j: JobId)
    requires IsSummed(s, e, t) && NoneMarked(s, j) && j in s.db.jobs && s.db.jobs[j].status != Claimed
    ensures NoneMarked(t, j)
  {
    if IsRowStatement(e) { RowStatementMarks(s, e, t, j); } else { OtherStepMarksNothing(s, e, t, j); }
  }

  lemma StepKeepsUntouched(s: State, e: Event, j: JobId, time: Time)
    requires Inv(s) && Enabled(s, e) && IsUntouched(s, j, time) && MoveOf(s, e, j).None?
    ensures Inv(Next(s, e)) && IsUntouched(Next(s, e), j, time)
  {
    StepKeepsInv(s, e);
    StepMovesTime(s, e, j);
    StepEvolves(s, e);
    if Next(s, e).now < time {
      StepIsSummed(s, e);
      SummedMarks(s, e, Next(s, e), j);
      EarlyRowIsUnclaimed(Next(s, e), j);
    }
  }

  lemma EarlyRowIsUnclaimed(s: State, j: JobId)
    requires Inv(s) && j in s.db.jobs && s.now < s.db.jobs[j].scheduledAt
    ensures s.db.jobs[j].status in {Waiting, Cancelled}
  {
    assert JobInv(s, j);
  }

  lemma {:induction false} RunKeepsUntouched(s: State, run: seq<Event>, j: JobId, time: Time)
    requires Inv(s) && IsRun(s, run) && IsUntouched(s, j, time) && LastMove(s, run, j).None?
    ensures IsUntouched(Exec(s, run), j, time)
    decreases |run|
  {
    if run != [] {
      StepKeepsUntouched(s, run[0], j, time);
      RunKeepsUntouched(Next(s, run[0]), run[1..], j, time);
    }
  }

  /** Worker w may send job j now, although the time in the row has not come. */
  ghost predicate IsEarlySend(s: State, w: WorkerId, c: CallId, j: JobId) {
    Enabled(s, Send(w, c)) && w in s.workers && s.workers[w].job.id == j && !IsDue(s, j)
  }

  /** Some genuine run that does not move the time of the row again leads to an early send. */
  ghost predicate CanBeSentEarly(s: State, j: JobId) {
    exists run, w, c :: IsGenuineRun(s, run) && LastMove(s, run, j).None? && IsEarlySend(Exec(s, run), w, c, j)
  }

  /** No run at all that does not move the time of the row again leads to one, genuine or not. */
  ghost predicate IsNeverSentEarly(s: State, j: JobId) {
    forall run, w, c | IsRun(s, run) && LastMove(s, run, j).None? :: !IsEarlySend(Exec(s, run), w, c, j)
  }

  lemma UntouchedIsNotSentEarly(s: State, run: seq<Event>, j: JobId, w: WorkerId, c: CallId)
    requires Inv(s) && IsRun(s, run) && LastMove(s, run, j).None? && j in s.db.jobs && NoneMarked(s, j)
    ensures !IsEarlySend(Exec(s, run), w, c, j)
  {
    if s.now < s.db.jobs[j].scheduledAt { EarlyRowIsUnclaimed(s, j); }
    RunKeepsUntouched(s, run, j, s.db.jobs[j].scheduledAt);
    UntouchedIsDueOrUnmarked(Exec(s, run), j, s.db.jobs[j].scheduledAt, w, c);
  }

  lemma UntouchedIsDueOrUnmarked(t: State, j: JobId, time: Time, w: WorkerId, c: CallId)
    requires IsUntouched(t, j, time)
    ensures !IsEarlySend(t, w, c, j)
  {
    assert IsEarlySend(t, w, c, j) ==> IsMarked(t, w);
  }

  lemma MarkedIsSentEarly(s: State, w: WorkerId, j: JobId)
    requires IsMarked(s, w) && s.workers[w].job.id == j && !IsDue(s, j)
    ensures CanBeSentEarly(s, j)
  {
    var c := UnusedCallId(s.calls.Keys);
    assert IsGenuineRun(s, []) && Exec(s, []) == s && LastMove(s, [], j).None?;
    assert IsEarlySend(Exec(s, []), w, c, j);
  }

  lemma EarlyExactly(s: State, j: JobId)
    requires Inv(s) && j in s.db.jobs && !IsDue(s, j)
    ensures CanBeSentEarly(s, j) <==> !NoneMarked(s, j)
    ensures IsNeverSentEarly(s, j) <==> NoneMarked(s, j)
  {
    if NoneMarked(s, j) {
      forall run, w, c | IsRun(s, run) && LastMove(s, run, j).None? ensures !IsEarlySend(Exec(s, run), w, c, j) {
        UntouchedIsNotSentEarly(s, run, j, w, c);
      }
    } else {
      var w :| IsMarked(s, w) && s.workers[w].job.id == j;
      MarkedIsSentEarly(s, w, j);
    }
    forall run | IsGenuineRun(s, run) ensures IsRun(s, run) { GenuineRunIsRun(s, run); }
  }

  lemma ScheduleMovesRowsOnly(s: State, e: Event)
    requires Enabled(s, e) && e.Edit?
    ensures Next(s, e).workers == s.workers && Next(s, e).now == s.now
  {
    EditIsStep(s, e);
  }

  lemma SameWorkersSameMarks(s: State, t: State, j: JobId)
    requires t.workers == s.workers
    ensures NoneMarked(t, j) <==> NoneMarked(s, j)
  {
    assert forall w :: IsMarked(t, w) <==> IsMarked(s, w);
  }

  /**
   * The exact condition, on every platform: a job that is scheduled for a later time can be sent
   * before that time, without being scheduled or retried once more, if and only if a worker is
   * about to send it when the schedule succeeds: then a genuine run sends it early, and
   * otherwise no run does.
   */
  lemma ScheduledJobCanBeSentEarly(s: State, before: seq<Event>, schedule: Event, j: JobId)
    requires Init(s) && IsRun(s, before) && schedule.Edit? && schedule.command.Schedule?
    requires Enabled(Exec(s, before), schedule)
    requires MoveOf(Exec(s, before), schedule, j).Some? && Exec(s, before).now < schedule.command.scheduledAt
    ensures CanBeSentEarly(Next(Exec(s, before), schedule), j) <==> !NoneMarked(Exec(s, before), j)
    ensures IsNeverSentEarly(Next(Exec(s, before), schedule), j) <==> NoneMarked(Exec(s, before), j)
  {
    InitHasInv(s);
    RunKeepsInv(s, before);
    ScheduledExactly(Exec(s, before), schedule, j);
  }

  lemma ScheduledExactly(u: State, schedule: Event, j: JobId)
    requires Inv(u) && schedule.Edit? && schedule.command.Schedule? && Enabled(u, schedule)
    requires MoveOf(u, schedule, j).Some? && u.now < schedule.command.scheduledAt
    ensures CanBeSentEarly(Next(u, schedule), j) <==> !NoneMarked(u, j)
    ensures IsNeverSentEarly(Next(u, schedule), j) <==> NoneMarked(u, j)
  {
    StepKeepsInv(u, schedule);
    StepMovesTime(u, schedule, j);
    ScheduleMovesRowsOnly(u, schedule);
    NewTimeIsLater(u, Next(u, schedule), schedule, j);
    SameWorkersSameMarks(u, Next(u, schedule), j);
    EarlyExactly(Next(u, schedule), j);
  }

  lemma NewTimeIsLater(u: State, t: State, schedule: Event, j: JobId)
    requires schedule.Edit? && schedule.command.Schedule? && MoveOf(u, schedule, j).Some?
    requires TimeMoves(u, schedule, t, j)
    requires t.now == u.now && u.now < schedule.command.scheduledAt
    ensures !IsDue(t, j)
  {
  }
}
