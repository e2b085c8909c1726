/**
 * Complete runs from the empty database, told chapter by chapter: a plot is a statement about
 * views alone, and every plot is a genuine run of the protocol.
 */
module Stories {
  import opened Wrappers
  import opened PostEntity
  import opened Schema
  import opened PostRepository
  import opened PublishProtocol
  import opened GenuineRuns
  import opened ProtocolInvariant
  import opened ProtocolSafety
  import opened LeaseTiming
  import opened Scenes

  // -------------------------------------------------------------- which conditions a run keeps

  const EVERYWHERE: set<SocialPlatform> := {LinkedIn, Facebook, Instagram, Threads, X}

  // The three conditions of LeaseTiming, each on or off.
  datatype Rules = Rules(marksInTime: bool, failsInTime: bool, firstRequestsOnly: bool)

  ghost predicate IsProper(s: State, e: Event, rules: Rules) {
    && (rules.marksInTime ==> MarksInTime(s, e, EVERYWHERE))
    && (rules.failsInTime ==> FailsInTime(s, e, EVERYWHERE))
    && (rules.firstRequestsOnly ==> AnswersFirstRequest(s, e, EVERYWHERE))
  }

  ghost predicate IsProperRun(s: State, run: seq<Event>, rules: Rules)
    decreases |run|
  {
    run == [] || (Enabled(s, run[0]) && IsProper(s, run[0], rules) && IsProperRun(Next(s, run[0]), run[1..], rules))
  }

  function Start(idempotent: set<SocialPlatform>): State {
    State(0, EMPTY_DB, map[], map[], map[], {}, idempotent, map[], map[])
  }

  // -------------------------------------------------------------- tales

  // A proper and genuine run from Start, and where it leads.
  datatype Tale = Tale(start: State, run: seq<Event>, end: State)

  ghost predicate IsTale(tale: Tale, rules: Rules) {
    && Init(tale.start) && IsProperRun(tale.start, tale.run, rules) && IsGenuineRun(tale.start, tale.run)
    && Exec(tale.start, tale.run) == tale.end && Inv(tale.end)
  }

  ghost predicate GoesOn(s: State, run: seq<Event>, end: State, rules: Rules) {
    IsProperRun(s, run, rules) && IsGenuineRun(s, run) && Exec(s, run) == end
  }

  lemma {:induction false} RunGoesOn(s: State, run: seq<Event>, u: State, e: Event, rules: Rules)
    requires GoesOn(s, run, u, rules) && Enabled(u, e) && IsProper(u, e, rules) && IsGenuine(u, e)
    ensures GoesOn(s, run + [e], Next(u, e), rules)
    decreases |run|
  {
    if run == [] {
      assert run + [e] == [e] && [e][1..] == [];
      assert GoesOn(Next(u, e), [], Next(u, e), rules);
    } else {
      RunGoesOn(Next(s, run[0]), run[1..], u, e, rules);
      assert (run + [e])[0] == run[0] && (run + [e])[1..] == run[1..] + [e];
    }
  }

  /** The tale with one more event. */
  lemma TaleGoesOn(tale: Tale, e: Event, rules: Rules) returns (told: Tale)
    requires IsTale(tale, rules) && Enabled(tale.end, e) && IsProper(tale.end, e, rules) && IsGenuine(tale.end, e)
    ensures IsTale(told, rules) && told.start == tale.start && told.end == Next(tale.end, e)
  {
    RunGoesOn(tale.start, tale.run, tale.end, e, rules);
    StepKeepsInv(tale.end, e);
    told := Tale(tale.start, tale.run + [e], Next(tale.end, e));
  }

  /** An event no condition speaks of. */
  lemma OtherEventIsProper(s: State, e: Event, rules: Rules)
    requires !e.Mark? && !e.Fail?
    ensures IsProper(s, e, rules)
  {
  }

  // -------------------------------------------------------------- the beginning

  const TEXT: PostContent := PostContent("", "a", None, [], None)
  const DRAFT: Post := Post(0, 0, 0, TEXT, 0, DraftPost, 1)
  const JOB: SocialPublishJob :=
    SocialPublishJob(0, 0, Threads, 0, Waiting, 0, None, None, None, None, None, 0, None, None, None, None)

  function FirstView(idempotent: set<SocialPlatform>): View {
    View(0, JOB, map[], map[], 1, idempotent, Drafted)
  }

  lemma InsertOne(db: Db, job: SocialPublishJob)
    ensures InsertJobs(db, [job]) == IndexJob(InsertJob(db, job), job)
  {
    assert [job][1..] == [] && [job][0] == job;
    assert InsertJobs(IndexJob(InsertJob(db, job), job), []) == IndexJob(InsertJob(db, job), job);
  }

  lemma SavedDraft()
    ensures var db := PgSave(EMPTY_DB, DRAFT, [JOB]);
            0 in db.jobs && db.jobs[0] == JOB && Readable(db, 0) && db.jobsOfPost[0] == [0] && db.media[0] == map[]
            && db.posts[0] == ToRow(DRAFT) && 0 !in db.outbox
  {
    InsertOne(EMPTY_DB.(posts := map[0 := ToRow(DRAFT)], media := map[0 := map[]], jobsOfPost := map[0 := []]), JOB);
    assert Positions([]) == map[];
  }

  lemma CreatedDraftShows(idempotent: set<SocialPlatform>)
    ensures var s, e := Start(idempotent), Create(DRAFT, [JOB]);
            Enabled(s, e) && Shows(Next(s, e), FirstView(idempotent))
  {
    SavedDraft();
    var s, e := Start(idempotent), Create(DRAFT, [JOB]);
    assert Next(s, e) == PutDb(s, PgSave(s.db, DRAFT, [JOB]));
  }

  /** Once upon a time there was a draft with one job. */
  lemma Opening(idempotent: set<SocialPlatform>, rules: Rules) returns (tale: Tale)
    ensures IsTale(tale, rules) && tale.start == Start(idempotent) && Shows(tale.end, FirstView(idempotent))
  {
    var s := Start(idempotent);
    InitHasInv(s);
    CreatedDraftShows(idempotent);
    OtherEventIsProper(s, Create(DRAFT, [JOB]), rules);
    tale := TaleGoesOn(Tale(s, [], s), Create(DRAFT, [JOB]), rules);
  }

  // -------------------------------------------------------------- hand-off to BullMQ

  lemma ClaimForDispatchShows(s: State, v: View)
    requires Scene(s, v) && s.dispatchers == map[] && v.stage.Live? && FreshlyQueued(s.db)
    ensures Enabled(s, ClaimOutbox(0, 0, LEASE))
    ensures var t := Next(s, ClaimOutbox(0, 0, LEASE));
            Scene(t, v) && t.dispatchers == map[0 := DispatchRecord(0, QueueId(t), false)]
  {
  }

  lemma EnqueueShows(s: State, v: View)
    requires Scene(s, v) && v.stage.Live? && s.dispatchers == map[0 := DispatchRecord(0, QueueId(s), false)]
    ensures Enabled(s, Enqueue(0))
    ensures var t := Next(s, Enqueue(0));
            Scene(t, v) && QueueId(t) in t.queue && t.dispatchers == map[0 := DispatchRecord(0, QueueId(t), true)]
  {
    var record := DispatchRecord(0, QueueId(s), false);
    assert Next(s, Enqueue(0)) == EnqueueStep(s, 0, record);
    EnqueuedScene(s, v, record);
  }

  lemma EnqueuedScene(s: State, v: View, record: DispatchRecord)
    requires Scene(s, v) && s.dispatchers == map[0 := record] && record.queueJobId == QueueId(s)
    ensures var t := EnqueueStep(s, 0, record);
            && Scene(t, v) && QueueId(t) == QueueId(s) && QueueId(t) in t.queue
            && t.dispatchers == map[0 := record.(added := true)]
  {
  }

  lemma MarkEnqueuedShows(s: State, v: View)
    requires Scene(s, v) && v.stage.Live? && QueueId(s) in s.queue
    requires s.dispatchers == map[0 := DispatchRecord(0, QueueId(s), true)]
    ensures Enabled(s, MarkEnqueued(0)) && Shows(Next(s, MarkEnqueued(0)), v)
  {
    assert Next(s, MarkEnqueued(0)).dispatchers == map[];
  }

  /** The outbox dispatcher hands the current queue id to BullMQ. */
  lemma IsDispatched(tale: Tale, v: View, rules: Rules) returns (told: Tale)
    requires IsTale(tale, rules) && Scene(tale.end, v) && tale.end.dispatchers == map[] && v.stage.Live?
    requires FreshlyQueued(tale.end.db)
    ensures IsTale(told, rules) && told.start == tale.start && Shows(told.end, v)
  {
    ClaimForDispatchShows(tale.end, v);
    OtherEventIsProper(tale.end, ClaimOutbox(0, 0, LEASE), rules);
    told := TaleGoesOn(tale, ClaimOutbox(0, 0, LEASE), rules);
    EnqueueShows(told.end, v);
    OtherEventIsProper(told.end, Enqueue(0), rules);
    told := TaleGoesOn(told, Enqueue(0), rules);
    MarkEnqueuedShows(told.end, v);
    OtherEventIsProper(told.end, MarkEnqueued(0), rules);
    told := TaleGoesOn(told, MarkEnqueued(0), rules);
  }

  // -------------------------------------------------------------- chapters

  datatype Chapter =
    | Waits(to: Time)
    | Claims(w: WorkerId)
    | Marks(w: WorkerId)
    | Sends(w: WorkerId, call: CallId)
    | ProviderAccepts(call: CallId)
    | ProviderRefuses(call: CallId)
    | HearsNothing(w: WorkerId)
    | HearsRefusal(w: WorkerId)
    | FailsToSend(w: WorkerId)
    | LooksInVain(w: WorkerId)
    | Defers(w: WorkerId)
    | SavesFailure(w: WorkerId)
    | Acts(act: Act)

  predicate CanHappen(v: View, c: Chapter, rules: Rules) {
    match c
    case Waits(to) => v.now <= to
    case Claims(w) => MayClaim(v, w)
    case Marks(w) => MayMarkNow(v, w) && (rules.marksInTime && !v.workers[w].repeats ==> v.now < v.workers[w].leaseEnd)
    case Sends(w, call) => MaySend(v, w, call)
    case ProviderAccepts(call) => IsOpenIn(v, call) && (v.idempotent == {} || NoneAccepted(v))
    case ProviderRefuses(call) => IsOpenIn(v, call)
    case HearsNothing(w) => Awaits(v, w)
    case HearsRefusal(w) => Awaits(v, w) && v.calls[v.workers[w].phase.call] == Refused
    case FailsToSend(w) => w in v.workers && v.workers[w].phase.Marked? && v.workers[w].job.retryCount == 0
    case LooksInVain(w) => Looks(v, w)
    case Defers(w) => MayDefer(v, w)
    case SavesFailure(w) =>
      && MayFail(v, w) && (rules.failsInTime ==> v.now < v.workers[w].leaseEnd)
      && (rules.firstRequestsOnly ==> !v.workers[w].repeats)
    case Acts(act) => MayAct(v, act)
  }

  function AfterChapter(v: View, c: Chapter, rules: Rules): View
    requires CanHappen(v, c, rules)
  {
    match c
    case Waits(to) => v.(now := to)
    case Claims(w) => ClaimView(v, w)
    case Marks(w) => MarkView(v, w)
    case Sends(w, call) => SendView(v, w, call)
    case ProviderAccepts(call) => v.(calls := v.calls[call := Accepted(call)])
    case ProviderRefuses(call) => v.(calls := v.calls[call := Refused])
    case HearsNothing(w) => RecheckingView(v, w)
    case HearsRefusal(w) => FailingView(v, w, BAD_REQUEST)
    case FailsToSend(w) => FailingView(v, w, TOO_MANY_REQUESTS)
    case LooksInVain(w) => MissView(v, w)
    case Defers(w) => Gone(v.(row := DeferredRow(v, w)), w)
    case SavesFailure(w) => Gone(v.(row := FailedRow(v, w)), w)
    case Acts(act) => ActView(v, act)
  }

  function EventOf(s: State, v: View, c: Chapter): Event {
    match c
    case Waits(to) => Tick(to)
    case Claims(w) => Claim(w, 0, LEASE, Some(QueueId(s)))
    case Marks(w) => Mark(w, LEASE)
    case Sends(w, call) => Send(w, call)
    case ProviderAccepts(call) => Accept(call, call)
    case ProviderRefuses(call) => Refuse(call)
    case HearsNothing(w) => ReceiveFailure(w, NO_ANSWER)
    case HearsRefusal(w) => ReceiveFailure(w, BAD_REQUEST)
    case FailsToSend(w) => FailLocally(w, TOO_MANY_REQUESTS)
    case LooksInVain(w) => MissPost(w)
    case Defers(w) => Defer(w)
    case SavesFailure(w) => Fail(w)
    case Acts(act) => Transaction(s, 0, 0, CommandOf(v, act))
  }

  lemma WaitShows(s: State, v: View, to: Time)
    requires Shows(s, v) && v.now <= to
    ensures Enabled(s, Tick(to)) && Shows(Next(s, Tick(to)), v.(now := to))
  {
    TickShows(s, v, to);
    assert Next(s, Tick(to)) == s.(now := to);
  }

  lemma StatementChapterShows(s: State, v: View, c: Chapter, rules: Rules)
    requires Shows(s, v) && CanHappen(v, c, rules)
    requires c.Claims? || c.Marks? || c.Defers? || c.SavesFailure? || c.LooksInVain? || c.Waits?
    ensures Enabled(s, EventOf(s, v, c)) && Shows(Next(s, EventOf(s, v, c)), AfterChapter(v, c, rules))
  {
    match c {
      case Waits(to) => WaitShows(s, v, to);
      case Claims(w) => ClaimShows(s, v, w);
      case Marks(w) => MarkShows(s, v, w);
      case Defers(w) => DeferShows(s, v, w);
      case SavesFailure(w) => FailShows(s, v, w);
      case LooksInVain(w) => MissShows(s, v, w);
    }
  }

  lemma CallChapterShows(s: State, v: View, c: Chapter, rules: Rules)
    requires Shows(s, v) && CanHappen(v, c, rules)
    requires c.Sends? || c.ProviderAccepts? || c.ProviderRefuses? || c.HearsNothing? || c.HearsRefusal?
             || c.FailsToSend?
    ensures Enabled(s, EventOf(s, v, c)) && Shows(Next(s, EventOf(s, v, c)), AfterChapter(v, c, rules))
  {
    match c {
      case Sends(w, call) => SendShows(s, v, w, call);
      case ProviderAccepts(call) => AcceptShows(s, v, call);
      case ProviderRefuses(call) => RefuseShows(s, v, call);
      case HearsNothing(w) => SilenceShows(s, v, w);
      case HearsRefusal(w) => RefusalShows(s, v, w);
      case FailsToSend(w) => LocalFailureShows(s, v, w);
    }
  }

  lemma ChapterIsProper(s: State, v: View, c: Chapter, rules: Rules)
    requires Shows(s, v) && CanHappen(v, c, rules) && !c.Acts?
    ensures IsProper(s, EventOf(s, v, c), rules) && IsGenuine(s, EventOf(s, v, c))
  {
  }

  /** A tale whose last scene is v. */
  ghost predicate Told(tale: Tale, v: View, rules: Rules) {
    IsTale(tale, rules) && Shows(tale.end, v)
  }

  lemma ChapterIsTold(tale: Tale, v: View, c: Chapter, rules: Rules) returns (told: Tale)
    requires Told(tale, v, rules) && CanHappen(v, c, rules)
    ensures Told(told, AfterChapter(v, c, rules), rules) && told.start == tale.start
  {
    if c.Acts? {
      told := ActIsTold(tale, v, c.act, rules);
    } else {
      if c.Claims? || c.Marks? || c.Defers? || c.SavesFailure? || c.LooksInVain? || c.Waits? {
        StatementChapterShows(tale.end, v, c, rules);
      } else {
        CallChapterShows(tale.end, v, c, rules);
      }
      ChapterIsProper(tale.end, v, c, rules);
      told := TaleGoesOn(tale, EventOf(tale.end, v, c), rules);
    }
  }

  lemma ActIsTold(tale: Tale, v: View, act: Act, rules: Rules) returns (told: Tale)
    requires Told(tale, v, rules) && MayAct(v, act)
    ensures Told(told, ActView(v, act), rules) && told.start == tale.start
  {
    var e := Transaction(tale.end, 0, 0, CommandOf(v, act));
    ActScene(tale.end, v, act);
    OtherEventIsProper(tale.end, e, rules);
    told := TaleGoesOn(tale, e, rules);
    if !act.IsCancelled? { told := IsDispatched(told, ActView(v, act), rules); }
  }

  // -------------------------------------------------------------- plots

  /** Chapter by chapter from v to end. */
  predicate IsPlot(v: View, plot: seq<Chapter>, end: View, rules: Rules)
    decreases |plot|
  {
    if plot == [] then v == end
    else CanHappen(v, plot[0], rules) && IsPlot(AfterChapter(v, plot[0], rules), plot[1..], end, rules)
  }

  lemma {:induction false} PlotIsTold(tale: Tale, v: View, plot: seq<Chapter>, end: View, rules: Rules)
      returns (told: Tale)
    requires Told(tale, v, rules) && IsPlot(v, plot, end, rules)
    ensures Told(told, end, rules) && told.start == tale.start
    decreases |plot|
  {
    if plot == [] {
      told := tale;
    } else {
      told := ChapterIsTold(tale, v, plot[0], rules);
      told := PlotIsTold(told, AfterChapter(v, plot[0], rules), plot[1..], end, rules);
    }
  }

  lemma {:induction false} PlotGoesOn(v: View, plot: seq<Chapter>, w: View, c: Chapter, rules: Rules)
    requires IsPlot(v, plot, w, rules) && CanHappen(w, c, rules)
    ensures IsPlot(v, plot + [c], AfterChapter(w, c, rules), rules)
    decreases |plot|
  {
    if plot == [] {
      assert (plot + [c])[1..] == [];
    } else {
      PlotGoesOn(AfterChapter(v, plot[0], rules), plot[1..], w, c, rules);
      assert (plot + [c])[1..] == plot[1..] + [c];
    }
  }

  /** There is a plot from the beginning to v. */
  ghost predicate Leads(v: View, idempotent: set<SocialPlatform>, rules: Rules) {
    exists plot :: IsPlot(FirstView(idempotent), plot, v, rules)
  }

  lemma LeadsFromTheBeginning(idempotent: set<SocialPlatform>, rules: Rules)
    ensures Leads(FirstView(idempotent), idempotent, rules)
  {
    assert IsPlot(FirstView(idempotent), [], FirstView(idempotent), rules);
  }

  /** One more chapter. */
  lemma And(v: View, c: Chapter, idempotent: set<SocialPlatform>, rules: Rules) returns (next: View)
    requires Leads(v, idempotent, rules) && CanHappen(v, c, rules)
    ensures Leads(next, idempotent, rules) && next == AfterChapter(v, c, rules)
  {
    var plot :| IsPlot(FirstView(idempotent), plot, v, rules);
    PlotGoesOn(FirstView(idempotent), plot, v, c, rules);
    next := AfterChapter(v, c, rules);
  }

  /** What a plot leads to is the last scene of a genuine run from the empty database. */
  lemma PlotIsARun(v: View, idempotent: set<SocialPlatform>, rules: Rules) returns (tale: Tale)
    requires Leads(v, idempotent, rules)
    ensures IsTale(tale, rules) && tale.start == Start(idempotent) && Shows(tale.end, v)
  {
    var plot :| IsPlot(FirstView(idempotent), plot, v, rules);
    tale := Opening(idempotent, rules);
    tale := PlotIsTold(tale, FirstView(idempotent), plot, v, rules);
  }
}
