/**
 * backend/src/posts/post.service.ts as the API calls it: create, update, schedule, cancel and
 * retry over the Postgres repository, each proved to be one step of the protocol or no change.
 */
module EditorialService {
  import opened Wrappers
  import opened PostEntity
  import opened TextFormatting
  import opened Schema
  import opened PostService
  import opened PostRepository
  import opened PostRefinement
  import opened EditContract
  import opened PublishProtocol
  import opened GenuineRuns
  import opened ProtocolInvariant
  import opened CreateAndDispatch
  import opened CommandResults

  datatype Target = Target(platform: SocialPlatform, accountId: nat)

  predicate AcceptableDraft(content: PostContent, targets: seq<Target>) {
    Trim(content.body) != "" && targets != [] && forall i, k | 0 <= i < k < |targets| :: targets[i] != targets[k]
  }

  function NewPost(id: PostId, campaignId: nat, ownerId: OwnerId, content: PostContent, scheduledAt: Time): Post {
    Post(id, campaignId, ownerId, content, scheduledAt, DraftPost, 1)
  }

  /** randomUUID() never repeats a value. */
  ghost predicate FreshIds(s: State, id: PostId, jobIds: seq<JobId>) {
    && id !in s.db.posts && (forall i | 0 <= i < |jobIds| :: jobIds[i] !in s.db.jobs)
    && forall i, k | 0 <= i < k < |jobIds| :: jobIds[i] != jobIds[k]
  }

  lemma CreateIsAStep(s: State, post: Post, jobs: seq<SocialPublishJob>)
    requires IsNewDraft(s, post, jobs)
    ensures Enabled(s, Event.Create(post, jobs)) && Next(s, Event.Create(post, jobs)).db == PgSave(s.db, post, jobs)
    ensures Shape(s.db) ==>
              IsStoredDraft(PgSave(s.db, post, jobs), post, jobs) && ReadsBack(PgSave(s.db, post, jobs), post, jobs)
  {
    if Shape(s.db) { DraftReadsBack(s, post, jobs); }
  }

  /** The protocol allows this edit, it is a transaction of mutate, and it leads to the tables it names. */
  ghost predicate IsEditStep(s: State, e: Event) {
    e.Edit? && Enabled(s, e) && IsGenuine(s, e) && Next(s, e).db == e.after
  }

  /** The protocol allows an Edit step that is a transaction of this command with these accounts. */
  ghost predicate EditIsAllowed(s: State, id: PostId, ownerId: OwnerId, command: Command, accountsOk: bool) {
    exists after :: IsAllowedEdit(s, id, ownerId, command, accountsOk, after)
  }

  ghost predicate IsAllowedEdit(s: State, id: PostId, ownerId: OwnerId, command: Command, accountsOk: bool, after: Db) {
    Enabled(s, Edit(id, ownerId, command, after)) && IsMutate(s.db, id, ownerId, command, accountsOk, after)
  }

  lemma AllowedEditIsAccepted(s: State, id: PostId, ownerId: OwnerId, command: Command, accountsOk: bool, after: Db)
    requires IsAllowedEdit(s, id, ownerId, command, accountsOk, after)
    ensures TimelyCommand(s, command) && PgMutate(s.db, id, ownerId, Callback(command), accountsOk).Success?
  {
  }

  lemma EditIsAStep(s: State, id: PostId, ownerId: OwnerId, command: Command, after: Db)
    requires TimelyCommand(s, command) && Owns(s.db, ownerId, id) && IsEdit(s.db, id, command, after)
    ensures var e := Edit(id, ownerId, command, after);
            Enabled(s, e) && Next(s, e).db == after
  {
  }

  lemma MutateIsGenuine(s: State, id: PostId, ownerId: OwnerId, command: Command, accountsOk: bool, after: Db)
    requires IsMutate(s.db, id, ownerId, command, accountsOk, after)
    ensures IsGenuine(s, Edit(id, ownerId, command, after))
  {
  }

  lemma MutateIsEditOf(db: Db, id: PostId, ownerId: OwnerId, command: Command, accountsOk: bool, after: Db)
    requires Shape(db) && QueueIdsOk(db) && IsMutate(db, id, ownerId, command, accountsOk, after)
    ensures Owns(db, ownerId, id) && IsEdit(db, id, command, after)
  {
    MutateIsEdit(db, id, ownerId, command, accountsOk);
    AcceptedCommand(db, id, ownerId, command, accountsOk);
  }

  /** What mutate commits is the Edit step of the protocol, and the API refuses exactly when mutate does. */
  lemma MutateIsAStep(s: State, id: PostId, ownerId: OwnerId, command: Command, accountsOk: bool)
    requires Shape(s.db) && QueueIdsOk(s.db) && TimelyCommand(s, command)
    requires PgMutate(s.db, id, ownerId, Callback(command), accountsOk).Success?
    ensures var after := PgMutate(s.db, id, ownerId, Callback(command), accountsOk).value.db;
            IsEditStep(s, Edit(id, ownerId, command, after))
  {
    var after := PgMutate(s.db, id, ownerId, Callback(command), accountsOk).value.db;
    MutateIsEditOf(s.db, id, ownerId, command, accountsOk, after);
    EditIsAStep(s, id, ownerId, command, after);
    MutateIsGenuine(s, id, ownerId, command, accountsOk, after);
  }

  /** The API accepts a command exactly when the protocol allows it. */
  lemma AllowedExactly(s: State, id: PostId, ownerId: OwnerId, command: Command, accountsOk: bool)
    ensures Shape(s.db) && QueueIdsOk(s.db) ==>
              (EditIsAllowed(s, id, ownerId, command, accountsOk) <==>
               TimelyCommand(s, command) && PgMutate(s.db, id, ownerId, Callback(command), accountsOk).Success?)
  {
    if !Shape(s.db) || !QueueIdsOk(s.db) {
    } else if EditIsAllowed(s, id, ownerId, command, accountsOk) {
      var after :| IsAllowedEdit(s, id, ownerId, command, accountsOk, after);
      AllowedEditIsAccepted(s, id, ownerId, command, accountsOk, after);
    } else if TimelyCommand(s, command) && PgMutate(s.db, id, ownerId, Callback(command), accountsOk).Success? {
      MutateIsAStep(s, id, ownerId, command, accountsOk);
      var after := PgMutate(s.db, id, ownerId, Callback(command), accountsOk).value.db;
      assert IsAllowedEdit(s, id, ownerId, command, accountsOk, after);
    }
  }

  /** mutate, as the protocol sees it. */
  lemma MutateSteps(s: State, id: PostId, ownerId: OwnerId, command: Command, accountsOk: bool,
      r: Result<PostRecord, EditError>, after: Db)
    requires TimelyCommand(s, command)
    requires match PgMutate(s.db, id, ownerId, Callback(command), accountsOk)
             case Failure(e) => r == Failure(e) && after == s.db
             case Success(m) => r == Success(m.record) && after == m.db
    ensures r.Success? ==>
              && Readable(s.db, id) && s.db.posts[id].ownerId == ownerId
              && s.db.posts[id].revision == CommandRevision(command)
              && r.value.post.revision == s.db.posts[id].revision + 1
    ensures Shape(s.db) && QueueIdsOk(s.db) ==>
              && (r.Success? <==> EditIsAllowed(s, id, ownerId, command, accountsOk))
              && (r.Success? ==> IsEditStep(s, Edit(id, ownerId, command, after)))
  {
    AllowedExactly(s, id, ownerId, command, accountsOk);
    if r.Success? {
      AcceptedCommand(s.db, id, ownerId, command, accountsOk);
      if Shape(s.db) && QueueIdsOk(s.db) { MutateIsAStep(s, id, ownerId, command, accountsOk); }
    }
  }

  lemma AcceptedCommand(db: Db, id: PostId, ownerId: OwnerId, command: Command, accountsOk: bool)
    requires PgMutate(db, id, ownerId, Callback(command), accountsOk).Success?
    ensures Readable(db, id) && db.posts[id].ownerId == ownerId && db.posts[id].revision == CommandRevision(command)
    ensures PgMutate(db, id, ownerId, Callback(command), accountsOk).value.record.post.revision
             == db.posts[id].revision + 1
  {
    assert Callback(command)(ReadRecord(db, id)) == Apply(command, ReadRecord(db, id));
  }

  // -------------------------------------------------------------- what the caller gets

  /** The post is there and the caller's own. */
  predicate IsOwned(db: Db, id: PostId, ownerId: OwnerId) {
    Readable(db, id) && db.posts[id].ownerId == ownerId
  }

  predicate IsLateSchedule(command: Command) {
    command.Schedule? && command.scheduledAt <= command.requestedAt
  }

  /** A publishing command needs every account connected. */
  ghost predicate MayExecute(db: Db, id: PostId, ownerId: OwnerId, command: Command, accountsOk: bool) {
    && !IsLateSchedule(command) && IsOwned(db, id, ownerId) && Accepts(command, ReadRecord(db, id))
    && (command.Schedule? || command.Retry? ==> accountsOk)
  }

  ghost predicate IsRefusal(db: Db, id: PostId, ownerId: OwnerId, command: Command, error: EditError) {
    if IsLateSchedule(command) then error == BadRequest(NotInTheFuture)
    else if !IsOwned(db, id, ownerId) then error == NotFound
    else if Accepts(command, ReadRecord(db, id)) then error == Conflict(AccountUnavailable)
    else IsRefusedWith(command, ReadRecord(db, id), error)
  }

  /** The record the caller gets is the edited one, and what is read afterwards but for a missing platformBodies. */
  ghost predicate IsResult(db: Db, after: Db, id: PostId, command: Command, record: PostRecord) {
    && Readable(db, id) && IsEditedRecord(command, ReadRecord(db, id), record)
    && Readable(after, id) && ReadJobs(after, id) == record.jobs
    && ReadPost(after, id) == record.post.(content := record.post.content.(
         platformBodies := Some(record.post.content.platformBodies.GetOr(map[]))))
  }

  lemma RowsAreInOrder(s: State, id: PostId)
    requires Inv(s) && Readable(s.db, id)
    ensures Shape(s.db) && |ReadRecord(s.db, id).jobs| > 0
    ensures forall j | j in s.db.jobs :: JobChecks(s.db.jobs[j]) && s.db.jobs[j].id == j
  {
    RowsPassChecks(s);
    assert PostInv(s, id);
  }

  lemma AcceptedNeedsAccounts(command: Command, r: PostRecord)
    requires Apply(command, r).Success? && |r.jobs| > 0
    ensures Apply(command, r).value.post.status == ScheduledPost <==> command.Schedule? || command.Retry?
  {
    AcceptedIsEdited(command, r);
  }

  lemma AnswerToAccepted(db: Db, id: PostId, ownerId: OwnerId, command: Command, accountsOk: bool, next: PostRecord)
    requires IsOwned(db, id, ownerId) && Apply(command, ReadRecord(db, id)) == Success(next)
    requires WritesPassChecks(db, next.jobs)
    ensures PgMutate(db, id, ownerId, Callback(command), accountsOk)
              == if next.post.status == ScheduledPost && !accountsOk then Failure(Conflict(AccountUnavailable))
                 else Success(Mutated(WriteRecord(db, id, next), Numbered(next)))
  {
    assert Callback(command)(ReadRecord(db, id)) == Apply(command, ReadRecord(db, id));
  }

  lemma WrittenIsResult(db: Db, after: Db, id: PostId, command: Command, next: PostRecord)
    requires Readable(db, id) && IsEditedRecord(command, ReadRecord(db, id), Numbered(next))
    requires Readable(after, id) && ReadRecord(after, id) == Stored(next)
    ensures IsResult(db, after, id, command, Numbered(next))
  {
    assert ReadRecord(after, id).jobs == next.jobs && ReadRecord(after, id).post == Stored(next).post;
  }

  lemma AcceptedIsResult(s: State, id: PostId, command: Command, next: PostRecord)
    requires Inv(s) && Readable(s.db, id) && Apply(command, ReadRecord(s.db, id)) == Success(next)
    ensures WritesPassChecks(s.db, next.jobs)
    ensures IsResult(s.db, WriteRecord(s.db, id, next), id, command, Numbered(next))
    ensures next.post.status == ScheduledPost <==> command.Schedule? || command.Retry?
  {
    RowsAreInOrder(s, id);
    AcceptedNeedsAccounts(command, ReadRecord(s.db, id));
    AcceptedCommandIsStored(s.db, id, command);
    AcceptedIsEdited(command, ReadRecord(s.db, id));
    WrittenIsResult(s.db, WriteRecord(s.db, id, next), id, command, next);
  }

  lemma RefusedIsNotMutated(db: Db, id: PostId, ownerId: OwnerId, command: Command, accountsOk: bool)
    requires IsOwned(db, id, ownerId) && Apply(command, ReadRecord(db, id)).Failure?
    ensures PgMutate(db, id, ownerId, Callback(command), accountsOk)
              == Failure(Apply(command, ReadRecord(db, id)).error)
  {
    assert Callback(command)(ReadRecord(db, id)) == Apply(command, ReadRecord(db, id));
  }

  /** mutate, for a post the caller owns. */
  lemma OwnedIsMutated(s: State, id: PostId, ownerId: OwnerId, command: Command, accountsOk: bool)
    requires Inv(s) && IsOwned(s.db, id, ownerId) && !IsLateSchedule(command)
    ensures var answer := PgMutate(s.db, id, ownerId, Callback(command), accountsOk);
            && (answer.Success? <==> MayExecute(s.db, id, ownerId, command, accountsOk))
            && (answer.Success? ==> IsResult(s.db, answer.value.db, id, command, answer.value.record))
            && (answer.Failure? ==> IsRefusal(s.db, id, ownerId, command, answer.error))
  {
    AcceptedExactly(command, ReadRecord(s.db, id));
    if Apply(command, ReadRecord(s.db, id)).Success? {
      var next := Apply(command, ReadRecord(s.db, id)).value;
      AcceptedIsResult(s, id, command, next);
      AnswerToAccepted(s.db, id, ownerId, command, accountsOk, next);
    } else {
      RefusedExactly(command, ReadRecord(s.db, id));
      RefusedIsNotMutated(s.db, id, ownerId, command, accountsOk);
    }
  }

  /** The answer to a command, and the tables after it. */
  ghost predicate IsAnswer(db: Db, id: PostId, ownerId: OwnerId, command: Command, accountsOk: bool,
      r: Result<PostRecord, EditError>, after: Db) {
    && (r.Success? <==> MayExecute(db, id, ownerId, command, accountsOk))
    && (r.Success? ==> IsResult(db, after, id, command, r.value))
    && (r.Failure? ==> IsRefusal(db, id, ownerId, command, r.error) && after == db)
  }

  lemma LateIsAnswered(db: Db, id: PostId, ownerId: OwnerId, command: Command, accountsOk: bool)
    requires IsLateSchedule(command)
    ensures IsAnswer(db, id, ownerId, command, accountsOk, Failure(BadRequest(NotInTheFuture)), db)
  {
  }

  lemma MutateAnswers(s: State, id: PostId, ownerId: OwnerId, command: Command, accountsOk: bool,
      r: Result<PostRecord, EditError>, after: Db)
    requires !IsLateSchedule(command)
    requires match PgMutate(s.db, id, ownerId, Callback(command), accountsOk)
             case Failure(e) => r == Failure(e) && after == s.db
             case Success(m) => r == Success(m.record) && after == m.db
    ensures Inv(s) ==> IsAnswer(s.db, id, ownerId, command, accountsOk, r, after)
  {
    if Inv(s) && IsOwned(s.db, id, ownerId) { OwnedIsMutated(s, id, ownerId, command, accountsOk); }
  }

  lemma NewDraftIsNew(s: State, post: Post, jobs: seq<SocialPublishJob>, jobIds: seq<JobId>)
    requires FreshIds(s, post.id, jobIds) && |jobs| == |jobIds| > 0 && post.status == DraftPost && post.revision == 1
    requires forall i | 0 <= i < |jobs| :: IsNewJob(jobs[i], post) && jobs[i].id == jobIds[i]
    ensures IsNewDraft(s, post, jobs)
  {
  }

  class PostEditor {
    const repository: PgPostRepository

    constructor (repository: PgPostRepository)
      ensures this.repository == repository
    {
      this.repository := repository;
    }

    /** The loop over the targets; ids are drawn from randomUUID(). */
    method NewJobs(post: Post, targets: seq<Target>, jobIds: seq<JobId>) returns (jobs: seq<SocialPublishJob>)
      requires |jobIds| == |targets|
      ensures |jobs| == |targets|
      ensures forall i | 0 <= i < |jobs| ::
                jobs[i] == SocialPublishJob(
                  jobIds[i], post.id, targets[i].platform, targets[i].accountId, Waiting, post.scheduledAt,
                  None, None, None, None, None, 0, None, None, None, None)
    {
      jobs := [];
      for i := 0 to |targets|
        invariant |jobs| == i
        invariant forall k | 0 <= k < i ::
                    jobs[k] == SocialPublishJob(
                      jobIds[k], post.id, targets[k].platform, targets[k].accountId, Waiting, post.scheduledAt,
                      None, None, None, None, None, 0, None, None, None, None)
      {
        var job := SocialPublishJob(
          jobIds[i], post.id, targets[i].platform, targets[i].accountId, Waiting, post.scheduledAt,
          None, None, None, None, None, 0, None, None, None, None);
        jobs := jobs + [job];
      }
    }

    /**
     * A draft is refused for blank content, missing or repeated targets, or a foreign campaign
     * or account; else it is saved.
     */
    method Create(ownerId: OwnerId, campaignId: nat, content: PostContent, targets: seq<Target>, scheduledAt: Time,
                  mediaIsValid: bool, campaignOk: bool, accountsOk: bool, id: PostId, jobIds: seq<JobId>,
                  ghost s: State)
      returns (r: Result<PostRecord, EditError>)
      requires repository.database.Contents() == s.db && |jobIds| == |targets| && FreshIds(s, id, jobIds)
      modifies repository.database
      ensures r.Success? <==> AcceptableDraft(content, targets) && mediaIsValid && campaignOk && accountsOk
      ensures r.Failure? ==>
                && repository.database.Contents() == s.db
                && (r.error == BadRequest(TargetsRequired) <==> Trim(content.body) == "" || targets == [])
                && (r.error == BadRequest(DuplicateTarget) <==>
                     Trim(content.body) != "" && exists i, k :: 0 <= i < k < |targets| && targets[i] == targets[k])
                && (r.error == BadRequest(MediaUrlNotHttps) <==> AcceptableDraft(content, targets) && !mediaIsValid)
                && (r.error == NotFound <==> AcceptableDraft(content, targets) && mediaIsValid && !campaignOk)
                && (r.error == Conflict(AccountUnavailable) <==>
                     AcceptableDraft(content, targets) && mediaIsValid && campaignOk && !accountsOk)
      ensures r.Success? ==>
                && r.value.post == Post(id, campaignId, ownerId, content, scheduledAt, DraftPost, 1)
                && |r.value.jobs| == |targets|
                && (forall i | 0 <= i < |targets| ::
                     r.value.jobs[i] == SocialPublishJob(
                       jobIds[i], id, targets[i].platform, targets[i].accountId, Waiting, scheduledAt,
                       None, None, None, None, None, 0, None, None, None, None))
                && Enabled(s, Event.Create(r.value.post, r.value.jobs))
                && repository.database.Contents() == Next(s, Event.Create(r.value.post, r.value.jobs)).db
      ensures r.Success? && Shape(s.db) ==>
                && IsStoredDraft(repository.database.Contents(), r.value.post, r.value.jobs)
                && ReadsBack(repository.database.Contents(), r.value.post, r.value.jobs)
    {
      if Trim(content.body) == "" || targets == [] { return Failure(BadRequest(TargetsRequired)); }
      if exists i, k | 0 <= i < k < |targets| :: targets[i] == targets[k] {
        return Failure(BadRequest(DuplicateTarget));
      }
      if !mediaIsValid { return Failure(BadRequest(MediaUrlNotHttps)); }
      if !campaignOk { return Failure(NotFound); }
      if !accountsOk { return Failure(Conflict(AccountUnavailable)); }
      var post := NewPost(id, campaignId, ownerId, content, scheduledAt);
      var jobs := NewJobs(post, targets, jobIds);
      NewDraftIsNew(s, post, jobs, jobIds);
      CreateIsAStep(s, post, jobs);
      repository.Save(post, jobs);
      return Success(PostRecord(post, jobs));
    }

    /**
     * update, schedule, cancel and retry. A refused command changes nothing; an accepted one
     * is a genuine Edit step of the protocol and returns the record one revision later.
     */
    method Execute(id: PostId, ownerId: OwnerId, command: Command, accountsOk: bool, ghost s: State)
        returns (r: Result<PostRecord, EditError>)
      requires repository.database.Contents() == s.db
      requires command.Schedule? ==> command.requestedAt <= s.now
      requires command.Retry? ==> command.retriedAt <= s.now
      modifies repository.database
      ensures r.Success? <==>
               TimelyCommand(s, command) && PgMutate(s.db, id, ownerId, Callback(command), accountsOk).Success?
      ensures r.Failure? ==> repository.database.Contents() == s.db
      ensures r.Success? ==>
                && Readable(s.db, id) && s.db.posts[id].ownerId == ownerId
                && s.db.posts[id].revision == CommandRevision(command)
                && r.value.post.revision == s.db.posts[id].revision + 1
      ensures r.Success? && Shape(s.db) && QueueIdsOk(s.db) ==>
                IsEditStep(s, Edit(id, ownerId, command, repository.database.Contents()))
      ensures Shape(s.db) && QueueIdsOk(s.db) ==>
                (r.Success? <==> EditIsAllowed(s, id, ownerId, command, accountsOk))
      ensures Inv(s) ==> IsAnswer(s.db, id, ownerId, command, accountsOk, r, repository.database.Contents())
    {
      if command.Schedule? && command.scheduledAt <= command.requestedAt {
        LateIsAnswered(s.db, id, ownerId, command, accountsOk);
        AllowedExactly(s, id, ownerId, command, accountsOk);
        return Failure(BadRequest(NotInTheFuture));
      }
      r := repository.Mutate(id, ownerId, Callback(command), accountsOk);
      MutateAnswers(s, id, ownerId, command, accountsOk, r, repository.database.Contents());
      MutateSteps(s, id, ownerId, command, accountsOk, r, repository.database.Contents());
    }
  }
}
