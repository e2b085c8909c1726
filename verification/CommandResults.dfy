/**
 * The editorial commands in the caller's terms: when each is refused and with which error, and
 * what an accepted one makes of the post and of each of its jobs, column by column.
 */
module CommandResults {
  import opened PostEntity
  import opened TextFormatting
  import opened PostService
  import opened EditContract

  predicate NamesRevision(command: Command, revision: nat) {
    match command
    case UpdateDraft(named, _, _) => named == revision
    case Schedule(_, _, approved, _) => approved == revision
    case Cancel(named) => named == revision
    case Retry(_, named, _) => named == revision
  }

  /** Being sent or sent, or about to be looked up. */
  predicate IsBusy(job: SocialPublishJob) {
    job.status in {Claimed, RemoteRequesting, RemoteConfirmed}
      || (job.remoteRequestKey.Some? && job.status != Published)
  }

  predicate IsConfirmedFailure(job: SocialPublishJob) {
    job.status == Failed && job.remoteRequestKey.None? && job.remotePostId.None?
  }

  // -------------------------------------------------------------- when a command is accepted

  ghost predicate Accepts(command: Command, r: PostRecord) {
    && NamesRevision(command, r.post.revision)
    && match command
       case UpdateDraft(_, content, mediaIsValid) =>
         r.post.status == DraftPost && Trim(content.body) != "" && mediaIsValid
       case Schedule(_, _, _, instagramFindings) =>
         && (forall job | job in r.jobs :: job.status in {Waiting, Cancelled} && job.remoteRequestKey.None?)
         && r.post.status != CancelledPost
         && (forall issue, job | job in r.jobs ::
               !IsFinding(issue, r.post.content, job.platform, instagramFindings))
       case Cancel(_) => forall job | job in r.jobs :: !IsBusy(job)
       case Retry(jobId, _, _) =>
         && (exists job :: job in r.jobs && job.id == jobId)
         && (forall job | job in r.jobs && job.id == jobId :: IsConfirmedFailure(job))
  }

  lemma AcceptedExactly(command: Command, r: PostRecord)
    ensures Apply(command, r).Success? <==> Accepts(command, r)
  {
    if command.Schedule? { PublishableExactly(r, command.instagramFindings); }
  }

  /** The error a refused command is answered with, told apart by what is wrong first. */
  ghost predicate IsRefusedWith(command: Command, r: PostRecord, error: EditError) {
    if !NamesRevision(command, r.post.revision) then error == Conflict(ContentChanged)
    else match command
      case UpdateDraft(_, content, _) =>
        && (error == Conflict(NotADraft) <==> r.post.status != DraftPost)
        && (error == BadRequest(ContentRequired) <==> r.post.status == DraftPost && Trim(content.body) == "")
        && (error == BadRequest(MediaUrlNotHttps) <==> r.post.status == DraftPost && Trim(content.body) != "")
      case Schedule(_, _, _, _) =>
        var busy := exists job :: job in r.jobs && (job.status !in {Waiting, Cancelled} || job.remoteRequestKey.Some?);
        && (error == Conflict(ProcessingOrCompleted) <==> busy)
        && (error == Conflict(CopyToNewDraft) <==> !busy && r.post.status == CancelledPost)
        && (error == BadRequest(HasIssues) <==> !busy && r.post.status != CancelledPost)
      case Cancel(_) => error == Conflict(InProgress)
      case Retry(jobId, _, _) =>
        && (error == NotFound <==> forall job | job in r.jobs :: job.id != jobId)
        && (error == Conflict(NotConfirmedFailed) <==> exists job :: job in r.jobs && job.id == jobId)
  }

  lemma RefusedExactly(command: Command, r: PostRecord)
    requires Apply(command, r).Failure?
    ensures IsRefusedWith(command, r, Apply(command, r).error)
  {
  }

  // -------------------------------------------------------------- what an accepted command makes of a record

  /** The status a cancelled post is left with; only cancelled and published jobs are left. */
  ghost predicate IsCancelStatus(status: PostStatus, jobs: seq<SocialPublishJob>) {
    && (status == CancelledPost <==> forall job | job in jobs :: job.status == Cancelled)
    && (status == CompletedPost <==> forall job | job in jobs :: job.status == Published)
    && status in {CancelledPost, CompletedPost, PartiallyFailedPost}
  }

  /** The post one revision later. */
  ghost predicate IsEditedPostOf(command: Command, before: Post, after: Post, jobs: seq<SocialPublishJob>) {
    match command
    case UpdateDraft(_, content, _) => after == before.(content := content, revision := before.revision + 1)
    case Schedule(scheduledAt, _, _, _) =>
      after == before.(status := ScheduledPost, scheduledAt := scheduledAt, revision := before.revision + 1)
    case Cancel(_) =>
      after == before.(status := after.status, revision := before.revision + 1) && IsCancelStatus(after.status, jobs)
    case Retry(_, _, _) => after == before.(status := ScheduledPost, revision := before.revision + 1)
  }

  ghost predicate IsEditedRecord(command: Command, before: PostRecord, after: PostRecord) {
    && IsEditedPostOf(command, before.post, after.post, after.jobs)
    && |after.jobs| == |before.jobs|
    && forall i | 0 <= i < |before.jobs| :: EditedRow(command, before.jobs[i], after.jobs[i])
  }

  /** The record one revision later, as mutate returns it. */
  function Numbered(r: PostRecord): PostRecord {
    r.(post := r.post.(revision := r.post.revision + 1))
  }

  lemma CancelledStatus(jobs: seq<SocialPublishJob>)
    requires |jobs| > 0 && forall job | job in jobs :: job.status in {Cancelled, Published}
    ensures IsCancelStatus(SummarizeStatus(jobs), jobs)
  {
    SummaryExactly(jobs);
    assert jobs[0] in jobs;
  }

  lemma AcceptedIsEdited(command: Command, r: PostRecord)
    requires Apply(command, r).Success? && |r.jobs| > 0
    ensures IsEditedRecord(command, r, Numbered(Apply(command, r).value))
  {
    var next := Apply(command, r).value;
    assert |next.jobs| == |r.jobs|;
    forall i | 0 <= i < |r.jobs| ensures EditedRow(command, r.jobs[i], next.jobs[i]) { AppliedRow(r, command, i); }
    if command.Cancel? {
      forall job | job in next.jobs ensures job.status in {Cancelled, Published} {
        var i :| 0 <= i < |next.jobs| && next.jobs[i] == job;
        AppliedRow(r, command, i);
      }
      CancelledStatus(next.jobs);
    }
  }
}
