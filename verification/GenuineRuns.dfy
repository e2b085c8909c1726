/**
 * Runs whose edits are the transactions of PgPostRepository.mutate, and not merely changes
 * of their kind. What holds of every run holds of these; a run that shows something can
 * happen has to be one of these.
 */
module GenuineRuns {
  import opened PostEntity
  import opened Schema
  import opened PostService
  import opened PostRepository
  import opened PostRefinement
  import opened EditContract
  import opened PublishProtocol
  import opened ProtocolInvariant
  import opened EditorialSteps

  ghost predicate IsGenuine(s: State, e: Event) {
    e.Edit? ==> exists accountsOk :: IsMutate(s.db, e.postId, e.ownerId, e.command, accountsOk, e.after)
  }

  predicate IsMutate(db: Db, p: PostId, ownerId: OwnerId, command: Command, accountsOk: bool, after: Db) {
    var outcome := PgMutate(db, p, ownerId, Callback(command), accountsOk);
    outcome.Success? && outcome.value.db == after
  }

  ghost predicate IsGenuineRun(s: State, run: seq<Event>)
    decreases |run|
  {
    run == [] || (Enabled(s, run[0]) && IsGenuine(s, run[0]) && IsGenuineRun(Next(s, run[0]), run[1..]))
  }

  lemma {:induction false} GenuineRunIsRun(s: State, run: seq<Event>)
    requires IsGenuineRun(s, run)
    ensures IsRun(s, run)
    decreases |run|
  {
    if run != [] { GenuineRunIsRun(Next(s, run[0]), run[1..]); }
  }

  lemma OneMoreIsGenuine(s: State, e: Event, rest: seq<Event>)
    requires Enabled(s, e) && IsGenuine(s, e) && IsGenuineRun(Next(s, e), rest)
    ensures IsGenuineRun(s, [e] + rest) && Exec(s, [e] + rest) == Exec(Next(s, e), rest)
  {
    assert ([e] + rest)[1..] == rest;
  }

  lemma AppliedCommand(db: Db, p: PostId, ownerId: OwnerId, command: Command, accountsOk: bool, after: Db)
    requires IsMutate(db, p, ownerId, command, accountsOk, after)
    ensures Readable(db, p) && Apply(command, ReadRecord(db, p)).Success?
  {
    assert Callback(command)(ReadRecord(db, p)) == Apply(command, ReadRecord(db, p));
  }

  // -------------------------------------------------------------- making a genuine edit

  /** The transaction of a command that is accepted, with every account still connected. */
  function Transaction(s: State, p: PostId, ownerId: OwnerId, command: Command): Event {
    Edit(p, ownerId, command,
         match PgMutate(s.db, p, ownerId, Callback(command), true) case Success(m) => m.db case Failure(_) => s.db)
  }

  predicate IsAccepted(db: Db, p: PostId, ownerId: OwnerId, command: Command) {
    Readable(db, p) && db.posts[p].ownerId == ownerId && Apply(command, ReadRecord(db, p)).Success?
  }

  lemma TransactionSucceeds(s: State, p: PostId, ownerId: OwnerId, command: Command)
    requires IsAccepted(s.db, p, ownerId, command)
    requires WritesPassChecks(s.db, Apply(command, ReadRecord(s.db, p)).value.jobs)
    ensures var after := WriteRecord(s.db, p, Apply(command, ReadRecord(s.db, p)).value);
            IsMutate(s.db, p, ownerId, command, true, after)
                && Transaction(s, p, ownerId, command) == Edit(p, ownerId, command, after)
  {
    assert Callback(command)(ReadRecord(s.db, p)) == Apply(command, ReadRecord(s.db, p));
  }

  lemma RowsPassChecks(s: State)
    requires Inv(s)
    ensures Shape(s.db) && QueueIdsOk(s.db) && forall j | j in s.db.jobs ::
             JobChecks(s.db.jobs[j]) && s.db.jobs[j].id == j
  {
    forall j | j in s.db.jobs ensures JobChecks(s.db.jobs[j]) && s.db.jobs[j].id == j { assert JobInv(s, j); }
  }

  /** In a reachable state the transaction of an accepted command can happen next. */
  lemma TransactionIsEnabled(s: State, p: PostId, ownerId: OwnerId, command: Command)
    requires Inv(s) && IsAccepted(s.db, p, ownerId, command) && TimelyCommand(s, command)
    ensures var e := Transaction(s, p, ownerId, command);
            && e.Edit? && e.postId == p && e.command == command && Enabled(s, e) && IsGenuine(s, e)
            && EditedTo(s, Next(s, e), p, command)
  {
    RowsPassChecks(s);
    CommandsPassChecks(s.db, p, command);
    TransactionSucceeds(s, p, ownerId, command);
    WrittenIsEdit(s.db, p, command, Apply(command, ReadRecord(s.db, p)).value);
    EditIsStep(s, Transaction(s, p, ownerId, command));
  }
}
