/**
 * Revisions and approval over whole runs: every successful edit consumes its own revision,
 * published content is frozen, and what is sent is what was approved.
 */
module ApprovedContent {
  import opened PostEntity
  import opened TextFormatting
  import opened Schema
  import opened PostService
  import opened PostRepository
  import opened PublishProtocol
  import opened GenuineRuns
  import opened ProtocolInvariant
  import opened WorkerSteps
  import opened EditorialSteps
  import opened CreateAndDispatch
  import opened ProtocolSafety

  predicate EditsPost(e: Event, p: PostId) {
    e.Edit? && e.postId == p
  }

  /** Number of successful editorial commands on post p in the run. */
  function EditsIn(run: seq<Event>, p: PostId): nat
    decreases |run|
  {
    if run == [] then 0 else (if EditsPost(run[0], p) then 1 else 0) + EditsIn(run[1..], p)
  }

  // -------------------------------------------------------------- what a step does to a post

  /** A post outside the draft state keeps its content and never becomes a draft again. */
  ghost predicate ContentIsFrozen(s: State, t: State, p: PostId) {
    && p in s.db.posts && p in s.db.media && p in t.db.posts && p in t.db.media
    && (s.db.posts[p].status != DraftPost ==>
          t.db.posts[p].status != DraftPost && ReadPost(t.db, p).content == ReadPost(s.db, p).content)
  }

  lemma SamePostIsFrozen(s: State, t: State, p: PostId)
    requires p in s.db.posts && p in s.db.media && p in t.db.posts && p in t.db.media
    requires t.db.posts[p] == s.db.posts[p] && t.db.media[p] == s.db.media[p]
    ensures ContentIsFrozen(s, t, p) && t.db.posts[p].revision == s.db.posts[p].revision
  {
    assert ReadPost(t.db, p) == ReadPost(s.db, p);
  }

  lemma EditedPost(s: State, t: State, p: PostId, command: Command)
    requires EditedTo(s, t, p, command) && Shape(s.db) && PostInv(s, p)
    ensures ContentIsFrozen(s, t, p)
    ensures s.db.posts[p].revision == CommandRevision(command) && t.db.posts[p].revision == s.db.posts[p].revision + 1
  {
  }

  lemma StatementSparesPosts(s: State, e: Event)
    requires Inv(s) && Enabled(s, e) && !e.Edit? && !e.Create?
    ensures Next(s, e).db.posts == s.db.posts && Next(s, e).db.media == s.db.media
  {
    if IsRowStatement(e) { StatementFrame(s, e); }
    else if IsLocal(e) { LocalMovesWorkersOnly(s, e); }
    else if IsDispatch(e) { DispatchIsOnly(s, e); }
  }

  lemma EditEffect(s: State, e: Event, p: PostId)
    requires Inv(s) && Enabled(s, e) && e.Edit? && p in s.db.posts
    ensures ContentIsFrozen(s, Next(s, e), p)
    ensures Next(s, e).db.posts[p].revision == s.db.posts[p].revision + (if e.postId == p then 1 else 0)
    ensures e.postId == p ==> CommandRevision(e.command) == s.db.posts[p].revision
  {
    var t := Next(s, e);
    EditIsStep(s, e);
    if e.postId == p {
      assert PostInv(s, p);
      EditedPost(s, t, p, e.command);
    } else {
      SamePostIsFrozen(s, t, p);
    }
  }

  lemma CreatedBeside(s: State, t: State, post: Post, jobs: seq<SocialPublishJob>, p: PostId)
    requires AddsDraftJobs(WithPost(s.db, post), t.db, post.id, jobs) && p in s.db.posts && p in s.db.media
    requires post.id != p
    ensures p in t.db.posts && p in t.db.media && t.db.posts[p] == s.db.posts[p] && t.db.media[p] == s.db.media[p]
  {
  }

  lemma CreateSparesPosts(s: State, e: Event, p: PostId)
    requires Inv(s) && Enabled(s, e) && e.Create? && p in s.db.posts
    ensures var t := Next(s, e);
            p in t.db.posts && p in t.db.media && t.db.posts[p] == s.db.posts[p] && t.db.media[p] == s.db.media[p]
  {
    CreateTables(s, e);
    CreatedBeside(s, Next(s, e), e.post, e.jobs, p);
  }

  lemma StepOnPost(s: State, e: Event, p: PostId)
    requires Inv(s) && Enabled(s, e) && p in s.db.posts
    ensures ContentIsFrozen(s, Next(s, e), p)
    ensures Next(s, e).db.posts[p].revision == s.db.posts[p].revision + (if EditsPost(e, p) then 1 else 0)
  {
    if e.Edit? { EditEffect(s, e, p); }
    else {
      if e.Create? { CreateSparesPosts(s, e, p); } else { StatementSparesPosts(s, e); }
      SamePostIsFrozen(s, Next(s, e), p);
    }
  }

  // -------------------------------------------------------------- whole runs

  /** The revision counts the successful commands; published content never changes. */
  lemma {:induction false} RevisionCountsEdits(s: State, run: seq<Event>, p: PostId)
    requires Inv(s) && IsRun(s, run) && p in s.db.posts
    ensures ContentIsFrozen(s, Exec(s, run), p)
    ensures Exec(s, run).db.posts[p].revision == s.db.posts[p].revision + EditsIn(run, p)
    decreases |run|
  {
    if run == [] {
      SamePostIsFrozen(s, s, p);
    } else {
      StepKeepsInv(s, run[0]);
      StepOnPost(s, run[0], p);
      RevisionCountsEdits(Next(s, run[0]), run[1..], p);
    }
  }

  /**
   * Optimistic concurrency: of two commands on one post that both succeed, the later one
   * names a higher revision. So no two approvals, or any two commands, of one revision succeed.
   */
  lemma RevisionsAreConsumedOnce(s: State, first: Event, run: seq<Event>, second: Event, p: PostId)
    requires Inv(s) && EditsPost(first, p) && EditsPost(second, p) && Enabled(s, first)
    requires IsRun(Next(s, first), run) && Enabled(Exec(Next(s, first), run), second)
    ensures CommandRevision(second.command) == CommandRevision(first.command) + 1 + EditsIn(run, p)
  {
    StepKeepsInv(s, first);
    PostIsReadable(s, first);
    EditEffect(s, first, p);
    RunKeepsInv(Next(s, first), run);
    RevisionCountsEdits(Next(s, first), run, p);
    EditEffect(Exec(Next(s, first), run), second, p);
  }

  lemma PostIsReadable(s: State, e: Event)
    requires Enabled(s, e) && e.Edit?
    ensures e.postId in s.db.posts
  {
  }

  /** schedule approves exactly the stored revision and the stored content. */
  lemma ScheduleApprovesWhatIsStored(s: State, e: Event)
    requires Inv(s) && Enabled(s, e) && e.Edit? && e.command.Schedule?
    ensures e.postId in s.db.posts && e.postId in s.db.media
    ensures e.command.approvedRevision == s.db.posts[e.postId].revision
    ensures var t := Next(s, e);
            e.postId in t.approvals
                && t.approvals[e.postId] == Approval(s.db.posts[e.postId].revision, ReadPost(s.db, e.postId).content)
  {
    EditIsStep(s, e);
  }

  /**
   * A provider call carries the content the last successful schedule approved, which is the
   * content stored now; its post is no draft, and the time in the worker's copy of the row has
   * come. Whether the time in the row itself has come is the subject of SendTimes.
   */
  lemma SendsWhatWasApproved(s: State, run: seq<Event>, send: Event)
    requires Init(s) && IsRun(s, run) && send.Send? && Enabled(Exec(s, run), send)
    ensures var t := Exec(s, run);
            var worker, call := t.workers[send.w], Next(t, send).calls[send.call];
            var p := worker.job.postId;
            && worker.job.id in t.db.jobs && call.jobId == worker.job.id && call.sentAt == t.now
            && worker.job.scheduledAt <= t.now
            && p in t.db.posts && p in t.db.media && t.db.posts[p].status != DraftPost
            && p in t.approvals && call.content == t.approvals[p].content == ReadPost(t.db, p).content
            && t.approvals[p].revision < t.db.posts[p].revision
  {
    var t := Exec(s, run);
    InitHasInv(s);
    RunKeepsInv(s, run);
    LocalFacts(t, send.w);
    assert PostInv(t, t.workers[send.w].job.postId);
    SentContent(t, send.w, send.call);
  }

  lemma SentContent(t: State, w: WorkerId, c: CallId)
    requires w in t.workers
    ensures var call := SendStep(t, w, c).calls[c];
            call.jobId == t.workers[w].job.id && call.sentAt == t.now && call.content == t.workers[w].post.content
  {
  }

  // -------------------------------------------------------------- the length gate

  /** Approved content passed the length gate of every platform it goes to; Instagram has its own findings. */
  ghost predicate Gated(s: State, j: JobId)
    requires j in s.db.jobs
  {
    s.db.jobs[j].postId in s.approvals && s.db.jobs[j].platform != Instagram ==>
      PassesLengthGate(s.approvals[s.db.jobs[j].postId].content, s.db.jobs[j].platform)
  }

  ghost predicate AllGated(s: State) {
    forall j | j in s.db.jobs :: Gated(s, j)
  }

  lemma PublishableFits(r: PostRecord, instagramFindings: bool, i: nat)
    requires Publishable(r, instagramFindings) && i < |r.jobs| && r.jobs[i].platform != Instagram
    ensures PassesLengthGate(r.post.content, r.jobs[i].platform)
  {
    var found := Findings(r, instagramFindings);
    assert found[i] in found;
  }

  lemma ApprovedRecordFits(s: State, e: Event, j: JobId)
    requires Shape(s.db) && IsGenuine(s, e) && e.Edit? && e.command.Schedule?
    requires j in s.db.jobs && s.db.jobs[j].postId == e.postId && s.db.jobs[j].platform != Instagram
    ensures Readable(s.db, e.postId) && PassesLengthGate(ReadPost(s.db, e.postId).content, s.db.jobs[j].platform)
  {
    var accountsOk :| IsMutate(s.db, e.postId, e.ownerId, e.command, accountsOk, e.after);
    AppliedCommand(s.db, e.postId, e.ownerId, e.command, accountsOk, e.after);
    ScheduleNeedsPublishable(ReadRecord(s.db, e.postId), e.command);
    StoredJobFits(s.db, e.postId, e.command.instagramFindings, j);
  }

  lemma ScheduleNeedsPublishable(r: PostRecord, command: Command)
    requires command.Schedule? && Apply(command, r).Success?
    ensures Publishable(r, command.instagramFindings)
  {
  }

  lemma StoredJobFits(db: Db, p: PostId, instagramFindings: bool, j: JobId)
    requires Shape(db) && Readable(db, p) && Publishable(ReadRecord(db, p), instagramFindings)
    requires j in db.jobs && db.jobs[j].postId == p && db.jobs[j].platform != Instagram
    ensures PassesLengthGate(ReadPost(db, p).content, db.jobs[j].platform)
  {
    var i :| 0 <= i < |db.jobsOfPost[p]| && db.jobsOfPost[p][i] == j;
    PublishableFits(ReadRecord(db, p), instagramFindings, i);
  }

  lemma ScheduledJobIsGated(s: State, e: Event, j: JobId)
    requires Inv(s) && Enabled(s, e) && IsGenuine(s, e) && e.Edit? && e.command.Schedule?
    requires j in s.db.jobs && s.db.jobs[j].postId == e.postId && s.db.jobs[j].platform != Instagram
    ensures e.postId in Next(s, e).approvals
    ensures PassesLengthGate(Next(s, e).approvals[e.postId].content, s.db.jobs[j].platform)
  {
    ApprovedRecordFits(s, e, j);
    ScheduleApprovesWhatIsStored(s, e);
  }

  lemma EditApprovals(s: State, e: Event, p: PostId)
    requires Enabled(s, e) && e.Edit? && (p != e.postId || !e.command.Schedule?)
    ensures p in Next(s, e).approvals <==> p in s.approvals
    ensures p in s.approvals ==> Next(s, e).approvals[p] == s.approvals[p]
  {
    EditIsStep(s, e);
  }

  lemma EditKeepsGated(s: State, e: Event)
    requires Inv(s) && AllGated(s) && Enabled(s, e) && IsGenuine(s, e) && e.Edit?
    ensures AllGated(Next(s, e))
  {
    var t := Next(s, e);
    EditKeepsInv(s, e);
    EditKeepsJobSet(s, e);
    forall j | j in t.db.jobs ensures Gated(t, j) {
      assert JobGrows(s, t, j) && Gated(s, j);
      var p := s.db.jobs[j].postId;
      if p == e.postId && e.command.Schedule? {
        if s.db.jobs[j].platform != Instagram { ScheduledJobIsGated(s, e, j); }
      } else {
        EditApprovals(s, e, p);
      }
    }
  }

  lemma EditKeepsJobSet(s: State, e: Event)
    requires Enabled(s, e) && e.Edit?
    ensures Next(s, e).db.jobs.Keys == s.db.jobs.Keys
  {
    EditIsStep(s, e);
  }

  lemma CreatedJobsAreUnapproved(s: State, t: State, post: Post, jobs: seq<SocialPublishJob>, j: JobId)
    requires AddsDraftJobs(WithPost(s.db, post), t.db, post.id, jobs) && t == s.(db := t.db)
    requires IsNewDraft(s, post, jobs) && post.id !in s.approvals && j in t.db.jobs && (j in s.db.jobs ==> Gated(s, j))
    ensures Gated(t, j)
  {
    if j !in s.db.jobs {
      var i :| 0 <= i < |jobs| && jobs[i].id == j;
      assert IsNewJob(jobs[i], post);
    }
  }

  lemma CreateKeepsGated(s: State, e: Event)
    requires Inv(s) && AllGated(s) && Enabled(s, e) && e.Create?
    ensures AllGated(Next(s, e))
  {
    var t := Next(s, e);
    CreateTables(s, e);
    forall j | j in t.db.jobs ensures Gated(t, j) {
      assert j in s.db.jobs ==> Gated(s, j);
      CreatedJobsAreUnapproved(s, t, e.post, e.jobs, j);
    }
  }

  lemma StatementApprovesNothing(s: State, e: Event)
    requires Inv(s) && Enabled(s, e) && IsRowStatement(e)
    ensures Next(s, e).approvals == s.approvals && Next(s, e).db.jobs.Keys == s.db.jobs.Keys
  {
    StatementFrame(s, e);
  }

  lemma OtherStepApprovesNothing(s: State, e: Event)
    requires Inv(s) && Enabled(s, e) && !e.Edit? && !e.Create?
    ensures Next(s, e).approvals == s.approvals && Next(s, e).db.jobs.Keys == s.db.jobs.Keys
  {
    if IsRowStatement(e) { StatementApprovesNothing(s, e); }
    else if IsLocal(e) { LocalMovesWorkersOnly(s, e); }
    else if IsDispatch(e) { DispatchIsOnly(s, e); }
  }

  lemma StepKeepsGated(s: State, e: Event)
    requires Inv(s) && AllGated(s) && Enabled(s, e) && IsGenuine(s, e)
    ensures AllGated(Next(s, e))
  {
    if e.Edit? { EditKeepsGated(s, e); }
    else if e.Create? { CreateKeepsGated(s, e); }
    else {
      OtherStepApprovesNothing(s, e);
      StepEvolves(s, e);
      forall j | j in Next(s, e).db.jobs ensures Gated(Next(s, e), j) {
        assert Gated(s, j) && SameIdentity(s.db.jobs[j], Next(s, e).db.jobs[j]);
      }
    }
  }

  lemma {:induction false} RunKeepsGated(s: State, run: seq<Event>)
    requires Inv(s) && AllGated(s) && IsGenuineRun(s, run)
    ensures AllGated(Exec(s, run))
    decreases |run|
  {
    if run != [] {
      StepKeepsInv(s, run[0]);
      StepKeepsGated(s, run[0]);
      RunKeepsGated(Next(s, run[0]), run[1..]);
    }
  }

  /** Every text that ever reaches Threads, link included, has at most 500 code points. */
  lemma ThreadsTextsFit(s: State, run: seq<Event>, c: CallId)
    requires Init(s) && IsGenuineRun(s, run) && c in Exec(s, run).calls && Exec(s, run).calls[c].platform == Threads
    requires SentText(Exec(s, run).calls[c].content, Threads).Some?
    ensures |SentText(Exec(s, run).calls[c].content, Threads).value| <= 500
  {
    var t := Exec(s, run);
    InitHasInv(s);
    GenuineRunIsRun(s, run);
    RunKeepsInv(s, run);
    RunKeepsGated(s, run);
    assert CallInv(t, c) && Gated(t, t.calls[c].jobId);
    ThreadsGateIsExact(t.calls[c].content);
  }
}
