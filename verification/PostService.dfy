/** The pure part of backend/src/posts/post.service.ts: record-to-record callbacks and status. */
module PostService {
  import opened Wrappers
  import opened PostEntity
  import opened TextFormatting

  datatype EditError = NotFound | Conflict(reason: Reason) | BadRequest(reason: Reason) | ConstraintViolation

  // What the service says when it refuses.
  datatype Reason =
    | ContentChanged          // reload and review the latest version
    | NotADraft               // only drafts can be edited
    | ContentRequired
    | TargetsRequired
    | DuplicateTarget
    | MediaUrlNotHttps
    | AccountUnavailable
    | NotInTheFuture
    | ProcessingOrCompleted   // such posts cannot be rescheduled
    | CopyToNewDraft          // a cancelled post is not scheduled again
    | HasIssues               // what `issues` found
    | InProgress              // or it needs reconciliation
    | NotConfirmedFailed      // only a confirmed failed request can be retried

  datatype Command =
    | UpdateDraft(revision: nat, content: PostContent, mediaIsValid: bool)
    | Schedule(scheduledAt: Time, requestedAt: Time, approvedRevision: nat, instagramFindings: bool)
    | Cancel(revision: nat)
    | Retry(jobId: JobId, revision: nat, retriedAt: Time)

  datatype Issue =
    | TextTooLong(platform: SocialPlatform)
    | NeedsOneMedia
    | InstagramAsset
    | LinkedInMedia
    | TooManyMedia(platform: SocialPlatform)

  function CommandRevision(command: Command): nat {
    match command
    case UpdateDraft(revision, _, _) => revision
    case Schedule(_, _, revision, _) => revision
    case Cancel(revision) => revision
    case Retry(_, revision, _) => revision
  }

  predicate InFlightStatus(status: PublishJobStatus) {
    status in {Claimed, RemoteRequesting, RemoteConfirmed}
  }

  predicate FailedOrCancelled(status: PublishJobStatus) {
    status in {Failed, Cancelled}
  }

  function SummarizeStatus(jobs: seq<SocialPublishJob>): PostStatus {
    if |jobs| == 0 then DraftPost
    else if forall j | j in jobs :: j.status == Cancelled then CancelledPost
    else if forall j | j in jobs :: j.status == Published then CompletedPost
    else if exists j :: j in jobs && InFlightStatus(j.status) then PublishingPost
    else if forall j | j in jobs :: FailedOrCancelled(j.status) then FailedPost
    else if exists j :: j in jobs && FailedOrCancelled(j.status) then PartiallyFailedPost
    else ScheduledPost
  }

  function Present(r: PostRecord): PostRecord {
    r.(post := r.post.(status := if r.post.status == DraftPost then DraftPost else SummarizeStatus(r.jobs)))
  }

  predicate SomeIn(jobs: seq<SocialPublishJob>, statuses: set<PublishJobStatus>) {
    exists job :: job in jobs && job.status in statuses
  }

  /** When each status is shown, for a post with jobs. */
  lemma SummaryExactly(jobs: seq<SocialPublishJob>)
    requires |jobs| > 0
    ensures SummarizeStatus(jobs) == CancelledPost <==> forall job | job in jobs :: job.status == Cancelled
    ensures SummarizeStatus(jobs) == CompletedPost <==> forall job | job in jobs :: job.status == Published
    ensures SummarizeStatus(jobs) == PublishingPost <==> SomeIn(jobs, {Claimed, RemoteRequesting, RemoteConfirmed})
    ensures SummarizeStatus(jobs) == FailedPost <==>
              SomeIn(jobs, {Failed}) && forall job | job in jobs :: job.status in {Failed, Cancelled}
    ensures SummarizeStatus(jobs) == PartiallyFailedPost <==>
              && !SomeIn(jobs, {Claimed, RemoteRequesting, RemoteConfirmed}) && SomeIn(jobs, {Failed, Cancelled})
              && SomeIn(jobs, {Waiting, Retrying, Published})
    ensures SummarizeStatus(jobs) == ScheduledPost <==>
              SomeIn(jobs, {Waiting, Retrying}) && forall job | job in jobs ::
                  job.status in {Waiting, Retrying, Published}
  {
    assert jobs[0] in jobs;
  }

  /** A post is shown as a draft exactly while it is one; otherwise its jobs tell, and nothing else is changed. */
  lemma PresentedExactly(r: PostRecord)
    requires |r.jobs| > 0
    ensures Present(r).post.status == DraftPost <==> r.post.status == DraftPost
    ensures r.post.status != DraftPost ==> Present(r).post.status == SummarizeStatus(r.jobs)
    ensures Present(r).(post := r.post) == r && Present(r).post == r.post.(status := Present(r).post.status)
  {
    SummaryExactly(r.jobs);
    assert r.jobs[0] in r.jobs;
  }

  /** Only the multiset of job statuses matters, and a post with jobs never shows as draft. */
  lemma SummaryIgnoresOrder(jobs: seq<SocialPublishJob>, reordered: seq<SocialPublishJob>)
    requires multiset(jobs) == multiset(reordered)
    ensures SummarizeStatus(jobs) == SummarizeStatus(reordered)
    ensures |jobs| > 0 ==> SummarizeStatus(jobs) != DraftPost
  {
    assert |multiset(jobs)| == |jobs| && |multiset(reordered)| == |reordered|;
    assert forall j :: j in jobs <==> j in multiset(jobs);
    assert forall j :: j in reordered <==> j in multiset(reordered);
  }

  /** Findings about one target, in the order they are pushed; instagramFindings covers caption length and PNG files. */
  function IssuesFor(content: PostContent, platform: SocialPlatform, instagramFindings: bool): seq<Issue> {
    TargetIssues(platform, platform != Instagram
        && !PassesLengthGate(content, platform), |content.media|, instagramFindings)
  }

  function TargetIssues(platform: SocialPlatform, tooLong: bool, mediaCount: nat, instagramFindings: bool): seq<Issue> {
    (if tooLong then [TextTooLong(platform)] else [])
    + (if platform == Instagram && mediaCount != 1 then [NeedsOneMedia] else [])
    + (if platform == Instagram && instagramFindings then [InstagramAsset] else [])
    + (if platform == LinkedIn && mediaCount > 0 then [LinkedInMedia] else [])
    + (if platform != X && mediaCount > 1 then [TooManyMedia(platform)] else [])
  }

  /** What each finding means, by platform, text and number of media. */
  predicate IsFinding(issue: Issue, content: PostContent, platform: SocialPlatform, instagramFindings: bool) {
    match issue
    case TextTooLong(on) =>
      && on == platform && platform != Instagram
      && !IsShortEnough(FormattedBody(content, platform), content.url, platform)
    case NeedsOneMedia => platform == Instagram && |content.media| != 1
    case InstagramAsset => platform == Instagram && instagramFindings
    case LinkedInMedia => platform == LinkedIn && |content.media| >= 1
    case TooManyMedia(on) => on == platform && platform != X && |content.media| >= 2
  }

  lemma TargetIssuesExactly(issue: Issue, platform: SocialPlatform, tooLong: bool, mediaCount: nat,
      instagramFindings: bool)
    ensures issue in TargetIssues(platform, tooLong, mediaCount, instagramFindings) <==>
              match issue
              case TextTooLong(on) => on == platform && tooLong
              case NeedsOneMedia => platform == Instagram && mediaCount != 1
              case InstagramAsset => platform == Instagram && instagramFindings
              case LinkedInMedia => platform == LinkedIn && mediaCount >= 1
              case TooManyMedia(on) => on == platform && platform != X && mediaCount >= 2
  {
  }

  lemma FindingsExactly(issue: Issue, content: PostContent, platform: SocialPlatform, instagramFindings: bool)
    ensures issue in IssuesFor(content, platform, instagramFindings) <==>
              IsFinding(issue, content, platform, instagramFindings)
  {
    if platform != Instagram { GateExactly(content, platform); }
    var tooLong := platform != Instagram && !PassesLengthGate(content, platform);
    TargetIssuesExactly(issue, platform, tooLong, |content.media|, instagramFindings);
  }

  /** issues.push(...) followed by [...new Set(issues)], for the findings of one target. */
  method PushNew(issues: seq<Issue>, found: seq<Issue>) returns (pushed: seq<Issue>)
    requires forall a, b | 0 <= a < b < |issues| :: issues[a] != issues[b]
    ensures forall issue :: issue in pushed <==> issue in issues || issue in found
    ensures forall a, b | 0 <= a < b < |pushed| :: pushed[a] != pushed[b]
  {
    pushed := issues;
    for m := 0 to |found|
      invariant forall issue :: issue in pushed <==> issue in issues || issue in found[..m]
      invariant forall a, b | 0 <= a < b < |pushed| :: pushed[a] != pushed[b]
    {
      if found[m] !in pushed { pushed := pushed + [found[m]]; }
    }
  }

  function Findings(r: PostRecord, instagramFindings: bool): (found: seq<seq<Issue>>)
    ensures |found| == |r.jobs|
    ensures forall k | 0 <= k < |found| :: found[k] == IssuesFor(r.post.content, r.jobs[k].platform, instagramFindings)
  {
    seq(|r.jobs|, k requires 0 <= k < |r.jobs| => IssuesFor(r.post.content, r.jobs[k].platform, instagramFindings))
  }

  predicate Publishable(r: PostRecord, instagramFindings: bool) {
    forall found | found in Findings(r, instagramFindings) :: found == []
  }

  /**
   * The loop of `issues`: it reports what some target reports, once, and nothing exactly when
   * every target is publishable.
   */
  method Issues(r: PostRecord, instagramFindings: bool) returns (issues: seq<Issue>)
    ensures forall issue :: issue in issues <==>
             exists job :: job in r.jobs && IsFinding(issue, r.post.content, job.platform, instagramFindings)
    ensures forall a, b | 0 <= a < b < |issues| :: issues[a] != issues[b]
    ensures issues == [] <==> Publishable(r, instagramFindings)
  {
    issues := Union(Findings(r, instagramFindings));
    forall issue
      ensures issue in issues <==>
                exists job :: job in r.jobs && IsFinding(issue, r.post.content, job.platform, instagramFindings)
    {
      FoundByJob(r, issue, instagramFindings);
    }
    if issues != [] { assert issues[0] in issues; }
  }

  lemma FoundByJob(r: PostRecord, issue: Issue, instagramFindings: bool)
    ensures (exists found :: found in Findings(r, instagramFindings) && issue in found) <==>
              exists job :: job in r.jobs && IsFinding(issue, r.post.content, job.platform, instagramFindings)
  {
    var all := Findings(r, instagramFindings);
    if found :| found in all && issue in found {
      var k :| 0 <= k < |all| && all[k] == found;
      FindingsExactly(issue, r.post.content, r.jobs[k].platform, instagramFindings);
    }
    if job :| job in r.jobs && IsFinding(issue, r.post.content, job.platform, instagramFindings) {
      var k :| 0 <= k < |r.jobs| && r.jobs[k] == job;
      FindingsExactly(issue, r.post.content, job.platform, instagramFindings);
      assert all[k] in all;
    }
  }

  /** A record may be scheduled exactly if there is no finding for any of its jobs. */
  lemma PublishableExactly(r: PostRecord, instagramFindings: bool)
    ensures Publishable(r, instagramFindings) <==>
              forall issue, job | job in r.jobs :: !IsFinding(issue, r.post.content, job.platform, instagramFindings)
  {
    if !Publishable(r, instagramFindings) {
      var found :| found in Findings(r, instagramFindings) && found != [];
      assert found[0] in found;
      FoundByJob(r, found[0], instagramFindings);
    }
    forall issue, job | job in r.jobs && IsFinding(issue, r.post.content, job.platform, instagramFindings)
      ensures !Publishable(r, instagramFindings)
    {
      FoundByJob(r, issue, instagramFindings);
    }
  }

  method Union(findings: seq<seq<Issue>>) returns (issues: seq<Issue>)
    ensures forall issue :: issue in issues <==> exists found :: found in findings && issue in found
    ensures forall a, b | 0 <= a < b < |issues| :: issues[a] != issues[b]
    ensures issues == [] <==> forall found | found in findings :: found == []
  {
    issues := [];
    for n := 0 to |findings|
      invariant forall issue :: issue in issues <==> exists k :: 0 <= k < n && issue in findings[k]
      invariant forall a, b | 0 <= a < b < |issues| :: issues[a] != issues[b]
    {
      issues := PushNew(issues, findings[n]);
    }
    forall found | found in findings ensures found != [] ==> issues != [] {
      if found != [] { assert found[0] in issues; }
    }
    if issues != [] { assert issues[0] in issues; }
  }

  const STALE: EditError := Conflict(ContentChanged)

  predicate BlocksReschedule(j: SocialPublishJob) {
    j.status !in {Waiting, Cancelled} || j.remoteRequestKey.Some?
  }

  predicate BlocksCancel(j: SocialPublishJob) {
    InFlightStatus(j.status) || (j.remoteRequestKey.Some? && j.status != Published)
  }

  predicate AnyBlocksReschedule(jobs: seq<SocialPublishJob>) {
    exists j :: j in jobs && BlocksReschedule(j)
  }

  predicate AnyBlocksCancel(jobs: seq<SocialPublishJob>) {
    exists j :: j in jobs && BlocksCancel(j)
  }

  function RescheduledJob(j: SocialPublishJob, scheduledAt: Time): SocialPublishJob {
    if j.status == Cancelled then j else j.(scheduledAt := scheduledAt, status := Waiting)
  }

  function CancelledJob(j: SocialPublishJob): SocialPublishJob {
    if j.status in {Waiting, Retrying, Failed} then j.(status := Cancelled, nextRetryAt := None) else j
  }

  function RetriedJob(j: SocialPublishJob, jobId: JobId, retriedAt: Time): SocialPublishJob {
    if j.id == jobId
    then j.(status := Waiting, scheduledAt := retriedAt, errorCode := None, errorMessage := None, retryCount := 0,
        nextRetryAt := None)
    else j
  }

  function MapJobs(jobs: seq<SocialPublishJob>, f: SocialPublishJob -> SocialPublishJob): (r: seq<SocialPublishJob>)
    ensures |r| == |jobs| && forall i | 0 <= i < |r| :: r[i] == f(jobs[i])
  {
    seq(|jobs|, i requires 0 <= i < |jobs| => f(jobs[i]))
  }

  /** The callback each service method hands to PostRepository.mutate. */
  function Apply(command: Command, r: PostRecord): Result<PostRecord, EditError> {
    if CommandRevision(command) != r.post.revision then Failure(STALE)
    else match command
      case UpdateDraft(_, content, mediaIsValid) =>
        if r.post.status != DraftPost then Failure(Conflict(NotADraft))
        else if Trim(content.body) == "" then Failure(BadRequest(ContentRequired))
        else if !mediaIsValid then Failure(BadRequest(MediaUrlNotHttps))
        else Success(r.(post := r.post.(content := content)))
      case Schedule(scheduledAt, _, _, instagramFindings) =>
        if AnyBlocksReschedule(r.jobs) then Failure(Conflict(ProcessingOrCompleted))
        else if r.post.status == CancelledPost then Failure(Conflict(CopyToNewDraft))
        else if !Publishable(r, instagramFindings) then Failure(BadRequest(HasIssues))
        else Success(PostRecord(r.post.(status := ScheduledPost, scheduledAt := scheduledAt),
                                MapJobs(r.jobs, j => RescheduledJob(j, scheduledAt))))
      case Cancel(_) =>
        if AnyBlocksCancel(r.jobs) then Failure(Conflict(InProgress))
        else
          var jobs := MapJobs(r.jobs, CancelledJob);
          Success(PostRecord(r.post.(status := SummarizeStatus(jobs)), jobs))
      case Retry(jobId, _, retriedAt) =>
        if !exists j :: j in r.jobs && j.id == jobId then Failure(NotFound)
        else if exists j ::
            j in r.jobs && j.id == jobId && (j.status != Failed || j.remoteRequestKey.Some? || j.remotePostId.Some?)
        then Failure(Conflict(NotConfirmedFailed))
        else Success(PostRecord(r.post.(status := ScheduledPost),
            MapJobs(r.jobs, j => RetriedJob(j, jobId, retriedAt))))
  }

  /** The closure handed to mutate. */
  function Callback(command: Command): PostRecord -> Result<PostRecord, EditError> {
    r => Apply(command, r)
  }
}
