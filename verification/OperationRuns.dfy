/** Every interleaving of workers, operators and domain transactions over the operation table, and
    what the history of such a run says about leases. */
module OperationRuns {
  import opened Domain
  import opened Operations

  type TxId = nat

  /** `issued` collects every lease ever handed out: a worker that stalled or lost its lease still
      holds its copy and may act on it at any later time. `locks` are the row locks that open
      transactions hold. */
  datatype Database = Database(rows: Table, locks: map<Uuid, TxId>, issued: set<LeasedOperation>)

  datatype Event =
    | Run(statement: Statement)
    | LockLease(tx: TxId, op: LeasedOperation, now: int)
    | EndTransaction(tx: TxId)

  /** What a run leaves behind: one entry for each statement that took effect. */
  datatype Entry =
    | Granted(id: Uuid, token: Token, reconciling: bool, at: int)
    | Extended(id: Uuid, token: Token, at: int)
    | Checkpointed(id: Uuid, token: Token, at: int)
    | Finished(id: Uuid, token: Token, state: OpState, delay: int, at: int)
    | Retried(id: Uuid, at: int)
    | Locked(tx: TxId, id: Uuid, token: Token, at: int)
    | Ended(tx: TxId)
  {
    predicate About(i: Uuid) { !Ended? && id == i }

    /** Entries that change who, if anyone, holds operation `i`. */
    predicate Moves(i: Uuid) { (Granted? || Finished? || Retried?) && id == i }

    /** Entries that acted with a lease's authority. */
    predicate Exercises() { Extended? || Checkpointed? || Finished? || Locked? }
  }

  type Log = seq<Entry>

  datatype World = World(db: Database, log: Log)

  // ---------------------------------------------------------------- the transition system

  /** A statement waits while another transaction holds its row, and only a worker that was granted
      an operation acts on it. */
  ghost predicate Enabled(db: Database, e: Event) {
    match e
    case Run(s) =>
      && s.Target() !in db.locks
      && (s.ByLeaseholder() ==> s.op in db.issued)
      && s.Applies(db.rows)
    case LockLease(tx, op, now) =>
      && (op.id in db.locks ==> db.locks[op.id] == tx)
      && op in db.issued
      && op.id in db.rows && db.rows[op.id].HeldBy(op.Claim(), now)
    case EndTransaction(tx) => true
  }

  ghost function Step(db: Database, e: Event): Database {
    if !Enabled(db, e) then db else
    match e
    case Run(s) =>
      db.(rows := s.Execute(db.rows),
          issued := if s.Grant? then db.issued + {Leased(s.id, db.rows[s.id], s.worker)} else db.issued)
    case LockLease(tx, op, _) => db.(locks := db.locks[op.id := tx])
    case EndTransaction(tx) => db.(locks := map id | id in db.locks && db.locks[id] != tx :: db.locks[id])
  }

  /** Enqueueing and redaction concern no lease. */
  predicate Logged(s: Statement) { !s.Insert? && !s.Redact? }

  function EntryFor(s: Statement, row: Row): Entry
    requires Logged(s)
  {
    match s
    case Grant(id, _, worker, now) =>
      var op := Leased(id, row, worker);
      Granted(id, op.Claim(), op.reconciling, now)
    case Renew(op, now) => Extended(op.id, op.Claim(), now)
    case Checkpoint(op, _, now) => Checkpointed(op.id, op.Claim(), now)
    case Finish(op, outcome, now) => Finished(op.id, op.Claim(), Judge(op, outcome).state, Judge(op, outcome).delay, now)
    case OperatorRetry(id, now) => Retried(id, now)
  }

  ghost function Record(db: Database, e: Event): Log {
    if !Enabled(db, e) then [] else
    match e
    case Run(s) => if Logged(s) then [EntryFor(s, db.rows[s.Target()])] else []
    case LockLease(tx, op, now) => [Locked(tx, op.id, op.Claim(), now)]
    case EndTransaction(tx) => [Ended(tx)]
  }

  ghost function Next(w: World, e: Event): World {
    World(Step(w.db, e), w.log + Record(w.db, e))
  }

  ghost function After(events: seq<Event>): World {
    if events == [] then World(Database(map[], map[], {}), [])
    else Next(After(events[..|events| - 1]), events[|events| - 1])
  }

  // ---------------------------------------------------------------- reading a history

  function Init(log: Log): Log
    requires log != []
  {
    log[..|log| - 1]
  }

  function Last(log: Log): Entry
    requires log != []
  {
    log[|log| - 1]
  }

  /** Who holds `id`, judged from the history alone: the latest grantee, unless the operation ended
      or was retried since. */
  function Authority(log: Log, id: Uuid): Option<Token> {
    if log == [] then None
    else if Last(log).Moves(id) then (if Last(log).Granted? then Some(Last(log).token) else None)
    else Authority(Init(log), id)
  }

  /** When the latest lease of `id` runs out. */
  function Deadline(log: Log, id: Uuid): int {
    if log == [] then 0
    else if (Last(log).Granted? || Last(log).Extended?) && Last(log).id == id then Last(log).at + LEASE_TIME
    else Deadline(Init(log), id)
  }

  /** The state the latest move of `id` left it in. */
  function StateIn(log: Log, id: Uuid): OpState {
    if log == [] then Pending
    else if Last(log).Moves(id) then
      (match Last(log)
       case Granted(_, _, _, _) => InFlight
       case Finished(_, _, state, _, _) => state
       case _ => Pending)
    else StateIn(Init(log), id)
  }

  /** Grants of `id` in the current generation, that is, since the last operator retry. */
  function Grants(log: Log, id: Uuid): nat {
    if log == [] then 0
    else if Last(log).Retried? && Last(log).id == id then 0
    else Grants(Init(log), id) + (if Last(log).Granted? && Last(log).id == id then 1 else 0)
  }

  function ReconcilingGrants(log: Log, id: Uuid): nat {
    if log == [] then 0
    else if Last(log).Retried? && Last(log).id == id then 0
    else ReconcilingGrants(Init(log), id) +
         (if Last(log).Granted? && Last(log).id == id && Last(log).reconciling then 1 else 0)
  }

  /** The earliest time the latest finish of `id` allows another grant. */
  function NotBefore(log: Log, id: Uuid): Option<int> {
    if log == [] then None
    else if Last(log).Moves(id) then
      (if Last(log).Finished? then Some(Last(log).at + Last(log).delay * SECOND) else None)
    else NotBefore(Init(log), id)
  }

  /** The transaction holding the row lock of `id`. */
  function LockHolder(log: Log, id: Uuid): Option<TxId> {
    if log == [] then None
    else if Last(log).Locked? && Last(log).id == id then Some(Last(log).tx)
    else if Last(log).Ended? && LockHolder(Init(log), id) == Some(Last(log).tx) then None
    else LockHolder(Init(log), id)
  }

  /** All of the above, for one operation. */
  datatype Story = Story(authority: Option<Token>, deadline: int, state: OpState, grants: nat, reconciling: nat,
                         notBefore: Option<int>)

  function StoryOf(log: Log, id: Uuid): Story {
    Story(Authority(log, id), Deadline(log, id), StateIn(log, id), Grants(log, id), ReconcilingGrants(log, id),
          NotBefore(log, id))
  }

  /** What one entry does to the story of its operation. */
  function Told(story: Story, entry: Entry): Story {
    match entry
    case Granted(_, token, reconciling, at) =>
      Story(Some(token), at + LEASE_TIME, InFlight, story.grants + 1, story.reconciling + (if reconciling then 1 else 0), None)
    case Extended(_, _, at) => story.(deadline := at + LEASE_TIME)
    case Finished(_, _, state, delay, at) =>
      story.(authority := None, state := state, notBefore := Some(at + delay * SECOND))
    case Retried(_, _) => Story(None, story.deadline, Pending, 0, 0, None)
    case _ => story
  }

  /** How one entry continues the story of an operation. */
  lemma StoryGrows(log: Log, entry: Entry, id: Uuid)
    ensures Init(log + [entry]) == log && Last(log + [entry]) == entry
    ensures StoryOf(log + [entry], id) == if entry.About(id) then Told(StoryOf(log, id), entry) else StoryOf(log, id)
  {
    assert (log + [entry])[..|log|] == log;
  }

  // ---------------------------------------------------------------- the invariant

  ghost predicate RowMatches(row: Row, story: Story) {
    && row.WellFormed()
    && row.state == story.state
    && row.attempt == story.grants
    && story.authority == (if row.state.InFlight? then Some(Token(row.leasedBy.value, row.attempt)) else None)
    && (row.state.InFlight? ==> row.leaseExpiresAt == Some(story.deadline))
    && (row.state.Pending? ==> row.attempt < row.maxAttempts)
    && story.reconciling <= story.grants <= row.maxAttempts + story.reconciling
    && (story.notBefore.Some? ==> !row.state.InFlight? && row.nextAttemptAt == story.notBefore.value)
  }

  /** A worker's copy of an operation repeats what never changes in its row. */
  predicate Describes(op: LeasedOperation, row: Row) {
    && op.kind == row.identity.kind && op.maxAttempts == row.maxAttempts
    && (row.content == op.content || row.content == op.content.Redacted())
  }

  const UNTOLD := Story(None, 0, Pending, 0, 0, None)

  predicate LockRecorded(w: World, id: Uuid) {
    LockHolder(w.log, id) == if id in w.db.locks then Some(w.db.locks[id]) else None
  }

  ghost predicate Inv(w: World) {
    && UniqueIdentities(w.db.rows)
    && (forall id :: id in w.db.rows ==> RowMatches(w.db.rows[id], StoryOf(w.log, id)))
    && (forall id :: id !in w.db.rows ==> StoryOf(w.log, id) == UNTOLD)
    && (forall op :: op in w.db.issued ==> op.id in w.db.rows && Describes(op, w.db.rows[op.id]))
    && (forall id :: LockRecorded(w, id))
  }

  lemma InvGivesValidTable(w: World)
    requires Inv(w)
    ensures ValidTable(w.db.rows)
  {
    forall id | id in w.db.rows
      ensures w.db.rows[id].WellFormed()
    {
      assert RowMatches(w.db.rows[id], StoryOf(w.log, id));
    }
  }

  /** One statement on one row: the row goes on matching the story its entry continues. */
  lemma WrittenRowMatches(row: Row, story: Story, s: Statement)
    requires Logged(s) && s.AppliesTo(row) && RowMatches(row, story)
    requires s.ByLeaseholder() ==> Describes(s.op, row)
    ensures RowMatches(s.Update(row), Told(story, EntryFor(s, row)))
  {
  }

  lemma RedactedRowMatches(row: Row, story: Story, s: Statement)
    requires s.Redact? && RowMatches(row, story)
    ensures RowMatches(s.Update(row), story)
  {
  }

  /** A statement moves the story of its own row, as its entry tells it, and no other story; it takes and
      drops no lock. */
  lemma StatementTells(w: World, s: Statement, id: Uuid)
    requires Enabled(w.db, Run(s))
    ensures StoryOf(Next(w, Run(s)).log, id) ==
              if Logged(s) && id == s.Target() then Told(StoryOf(w.log, id), EntryFor(s, w.db.rows[id])) else StoryOf(w.log, id)
    ensures LockHolder(Next(w, Run(s)).log, id) == LockHolder(w.log, id)
  {
    if Logged(s) {
      StoryGrows(w.log, EntryFor(s, w.db.rows[s.Target()]), id);
    } else {
      assert w.log + [] == w.log;
    }
  }

  lemma StatementKeepsRow(w: World, s: Statement, id: Uuid)
    requires Enabled(w.db, Run(s))
    requires if id in w.db.rows then RowMatches(w.db.rows[id], StoryOf(w.log, id)) else StoryOf(w.log, id) == UNTOLD
    requires s.ByLeaseholder() ==> Describes(s.op, w.db.rows[s.op.id])
    ensures var w' := Next(w, Run(s));
            if id in w'.db.rows then RowMatches(w'.db.rows[id], StoryOf(w'.log, id)) else StoryOf(w'.log, id) == UNTOLD
  {
    StatementTells(w, s, id);
    if id == s.Target() && !s.Insert? {
      if s.Redact? {
        RedactedRowMatches(w.db.rows[id], StoryOf(w.log, id), s);
      } else {
        WrittenRowMatches(w.db.rows[id], StoryOf(w.log, id), s);
      }
    }
  }

  lemma StatementKeepsIssued(w: World, s: Statement, op: LeasedOperation)
    requires ValidTable(w.db.rows) && Enabled(w.db, Run(s)) && op in Next(w, Run(s)).db.issued
    requires op in w.db.issued ==> op.id in w.db.rows && Describes(op, w.db.rows[op.id])
    ensures op.id in Next(w, Run(s)).db.rows && Describes(op, Next(w, Run(s)).db.rows[op.id])
  {
    ExecuteKeepsTable(w.db.rows, s);
  }

  lemma StatementKeepsInv(w: World, s: Statement)
    requires Inv(w)
    ensures Inv(Next(w, Run(s)))
  {
    var w' := Next(w, Run(s));
    if Enabled(w.db, Run(s)) {
      InvGivesValidTable(w);
      ExecuteKeepsTable(w.db.rows, s);
      forall id
        ensures id in w'.db.rows ==> RowMatches(w'.db.rows[id], StoryOf(w'.log, id))
        ensures id !in w'.db.rows ==> StoryOf(w'.log, id) == UNTOLD
        ensures LockRecorded(w', id)
      {
        assert LockRecorded(w, id);
        StatementTells(w, s, id);
        StatementKeepsRow(w, s, id);
      }
      forall op | op in w'.db.issued
        ensures op.id in w'.db.rows && Describes(op, w'.db.rows[op.id])
      {
        StatementKeepsIssued(w, s, op);
      }
    } else {
      assert w'.log == w.log;
    }
  }

  /** Taking and dropping row locks moves no operation. */
  lemma LockingTellsLocks(w: World, e: Event, id: Uuid)
    requires LockRecorded(w, id) && !e.Run? && Enabled(w.db, e)
    ensures StoryOf(Next(w, e).log, id) == StoryOf(w.log, id)
    ensures LockRecorded(Next(w, e), id)
  {
    StoryGrows(w.log, Record(w.db, e)[0], id);
  }

  lemma LockingKeepsInv(w: World, e: Event)
    requires Inv(w) && !e.Run?
    ensures Inv(Next(w, e))
  {
    if Enabled(w.db, e) {
      forall id
        ensures StoryOf(Next(w, e).log, id) == StoryOf(w.log, id) && LockRecorded(Next(w, e), id)
      {
        assert LockRecorded(w, id);
        LockingTellsLocks(w, e, id);
      }
    } else {
      assert Next(w, e).log == w.log;
    }
  }

  lemma {:induction false} RunKeepsInv(events: seq<Event>)
    ensures Inv(After(events))
  {
    if events != [] {
      var before := events[..|events| - 1];
      RunKeepsInv(before);
      var e := events[|events| - 1];
      if e.Run? {
        StatementKeepsInv(After(before), e.statement);
      } else {
        LockingKeepsInv(After(before), e);
      }
    }
  }
}
