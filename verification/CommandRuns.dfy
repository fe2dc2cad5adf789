/** Every interleaving of transactions that admit and complete commands, with rollbacks. */
module CommandRuns {
  import opened Domain
  import opened Commands

  type TxId = nat
  type Rows = map<CommandKey, CommandRow>

  /** An open transaction's own writes; `doomed` after a statement the database refused. */
  datatype Transaction = Transaction(writes: Rows, doomed: bool)

  /** A key is locked from the first time a transaction inserts or selects it until that transaction
      ends; `used` are the command ids handed out so far. */
  datatype Database = Database(
    committed: Rows,
    open: map<TxId, Transaction>,
    locks: map<CommandKey, TxId>,
    ended: set<TxId>,
    used: set<Uuid>)

  datatype Event =
    | Begin(tx: TxId)
    | Admit(tx: TxId, command: Command, newId: Uuid)
    | Finish(tx: TxId, key: CommandKey, id: Uuid, result: CommandResult)
    | Commit(tx: TxId)
    | Rollback(tx: TxId)

  datatype Entry =
    | Answered(tx: TxId, command: Command, admission: Admission)
    | Committed(tx: TxId)

  datatype World = World(db: Database, log: seq<Entry>)

  /** What transaction `t` sees: its own writes over the committed rows. */
  function Visible(db: Database, t: Transaction): Rows { db.committed + t.writes }

  /** A statement on a key another transaction has locked waits. */
  predicate Enabled(db: Database, e: Event) {
    match e
    case Begin(tx) => tx !in db.open && tx !in db.ended
    case Admit(tx, command, newId) =>
      && tx in db.open && !db.open[tx].doomed
      && newId !in db.used
      && (command.key in db.locks ==> db.locks[command.key] == tx)
    case Finish(tx, key, id, result) =>
      tx in db.open && !db.open[tx].doomed && (key in db.locks ==> db.locks[key] == tx)
    case Commit(tx) => tx in db.open
    case Rollback(tx) => tx in db.open
  }

  function AdmissionOf(rows: Rows, command: Command, newId: Uuid): Admission {
    if !ValidIdempotencyKey(command.key.idempotencyKey) then InvalidKey
    else if command.key !in rows then New(newId)
    else AnswerFrom(rows[command.key], command)
  }

  predicate Completes(rows: Rows, key: CommandKey, id: Uuid) {
    key in rows && rows[key].id == id && rows[key].state.Admitted?
  }

  function Close(db: Database, tx: TxId): Database
    requires tx in db.open
  {
    db.(open := db.open - {tx}, ended := db.ended + {tx},
        locks := map key | key in db.locks && db.locks[key] != tx :: db.locks[key])
  }

  function Write(db: Database, tx: TxId, key: CommandKey, row: CommandRow): Database
    requires tx in db.open
  {
    db.(open := db.open[tx := db.open[tx].(writes := db.open[tx].writes[key := row])], locks := db.locks[key := tx])
  }

  function Step(db: Database, e: Event): Database {
    if !Enabled(db, e) then db else
    match e
    case Begin(tx) => db.(open := db.open[tx := Transaction(map[], false)])
    case Admit(tx, command, newId) =>
      var admission := AdmissionOf(Visible(db, db.open[tx]), command, newId);
      if admission.InvalidKey? then db
      else if admission.New? then Write(db, tx, command.key, Fresh(newId, command)).(used := db.used + {newId})
      else db.(locks := db.locks[command.key := tx])
    case Finish(tx, key, id, result) =>
      var rows := Visible(db, db.open[tx]);
      if !Completes(rows, key, id) then db
      else if result.Storable() then Write(db, tx, key, Complete(rows[key], result))
      else db.(open := db.open[tx := db.open[tx].(doomed := true)])
    case Commit(tx) =>
      if db.open[tx].doomed then Close(db, tx)
      else Close(db, tx).(committed := Visible(db, db.open[tx]))
    case Rollback(tx) => Close(db, tx)
  }

  function Record(db: Database, e: Event): seq<Entry> {
    if !Enabled(db, e) then [] else
    match e
    case Admit(tx, command, newId) => [Answered(tx, command, AdmissionOf(Visible(db, db.open[tx]), command, newId))]
    case Commit(tx) => if db.open[tx].doomed then [] else [Committed(tx)]
    case _ => []
  }

  function Next(w: World, e: Event): World { World(Step(w.db, e), w.log + Record(w.db, e)) }

  function After(events: seq<Event>): World {
    if events == [] then World(Database(map[], map[], map[], {}, {}), [])
    else Next(After(events[..|events| - 1]), events[|events| - 1])
  }

  // ---------------------------------------------------------------- the invariant

  /** `after` may succeed `before` in a row: same request, and a completed result stays. */
  predicate Grows(before: CommandRow, after: CommandRow) {
    && after.id == before.id && after.digest == before.digest && after.expectedVersion == before.expectedVersion
    && (before.state.Completed? ==> after == before)
  }

  predicate RowOk(row: CommandRow) {
    row.state.Completed? ==>
      row.responseStatus.Some? && 100 <= row.responseStatus.value <= 599 && (row.responseBody.None? || row.resultRef.None?)
  }

  ghost predicate WriteOk(db: Database, tx: TxId, key: CommandKey)
    requires tx in db.open && key in db.open[tx].writes
  {
    && key in db.locks && db.locks[key] == tx
    && RowOk(db.open[tx].writes[key])
    && (key in db.committed ==> Grows(db.committed[key], db.open[tx].writes[key]))
  }

  predicate IsNew(entry: Entry) { entry.Answered? && entry.admission.New? }

  /** Where the row of a new admission is now. */
  ghost predicate NewOk(db: Database, log: seq<Entry>, entry: Entry) {
    IsNew(entry) ==>
      var key, id := entry.command.key, entry.admission.id;
      && id in db.used
      && (entry.tx in db.open || entry.tx in db.ended)
      && (entry.tx in db.open ==> key in db.open[entry.tx].writes && db.open[entry.tx].writes[key].id == id)
      && (Committed(entry.tx) in log ==> key in db.committed && db.committed[key].id == id)
  }

  ghost predicate DistinctNews(log: seq<Entry>) {
    forall i, j :: 0 <= i < j < |log| && IsNew(log[i]) && IsNew(log[j]) ==> log[i].admission.id != log[j].admission.id
  }

  ghost predicate Inv(w: World) {
    && (forall key :: key in w.db.committed ==> RowOk(w.db.committed[key]))
    && (forall tx, key :: tx in w.db.open && key in w.db.open[tx].writes ==> WriteOk(w.db, tx, key))
    && (forall tx :: tx in w.db.open ==> tx !in w.db.ended)
    && (forall tx :: Committed(tx) in w.log ==> tx in w.db.ended)
    && (forall entry :: entry in w.log ==> NewOk(w.db, w.log, entry))
    && DistinctNews(w.log)
  }

  lemma StatementKeepsWrite(db: Database, e: Event, tx: TxId, key: CommandKey)
    requires e.Begin? || e.Admit? || e.Finish?
    requires tx in db.open && key in db.open[tx].writes ==> WriteOk(db, tx, key)
    requires key in db.committed ==> RowOk(db.committed[key])
    requires tx in Step(db, e).open && key in Step(db, e).open[tx].writes
    ensures WriteOk(Step(db, e), tx, key)
  {
  }

  lemma StatementKeepsNew(w: World, e: Event, entry: Entry)
    requires Inv(w) && (e.Begin? || e.Admit? || e.Finish?) && entry in Next(w, e).log
    ensures NewOk(Next(w, e).db, Next(w, e).log, entry)
  {
    assert entry in w.log ==> NewOk(w.db, w.log, entry);
    assert forall tx :: Committed(tx) in Next(w, e).log ==> Committed(tx) in w.log;
  }

  lemma StatementKeepsInv(w: World, e: Event)
    requires Inv(w) && (e.Begin? || e.Admit? || e.Finish?)
    ensures Inv(Next(w, e))
  {
    var w' := Next(w, e);
    forall tx, key | tx in w'.db.open && key in w'.db.open[tx].writes
      ensures WriteOk(w'.db, tx, key)
    {
      assert tx in w.db.open && key in w.db.open[tx].writes ==> WriteOk(w.db, tx, key);
      StatementKeepsWrite(w.db, e, tx, key);
    }
    forall entry | entry in w'.log
      ensures NewOk(w'.db, w'.log, entry)
    {
      StatementKeepsNew(w, e, entry);
    }
    forall i, j | 0 <= i < j < |w'.log| && IsNew(w'.log[i]) && IsNew(w'.log[j])
      ensures w'.log[i].admission.id != w'.log[j].admission.id
    {
      assert w.log[i] in w.log && NewOk(w.db, w.log, w.log[i]);
    }
  }

  lemma EndKeepsInv(w: World, e: Event)
    requires Inv(w) && (e.Commit? || e.Rollback?)
    ensures Inv(Next(w, e))
  {
    var w' := Next(w, e);
    if Enabled(w.db, e) {
      forall tx, key | tx in w'.db.open && key in w'.db.open[tx].writes
        ensures WriteOk(w'.db, tx, key)
      {
        assert WriteOk(w.db, tx, key);
        assert key in w.db.open[e.tx].writes ==> WriteOk(w.db, e.tx, key);
      }
      forall key | key in w'.db.committed
        ensures RowOk(w'.db.committed[key])
      {
        assert key in w.db.open[e.tx].writes ==> WriteOk(w.db, e.tx, key);
      }
      forall entry | entry in w'.log
        ensures NewOk(w'.db, w'.log, entry)
      {
        assert entry in w.log ==> NewOk(w.db, w.log, entry);
        if entry.Answered? && entry.command.key in w.db.open[e.tx].writes {
          assert WriteOk(w.db, e.tx, entry.command.key);
        }
      }
    }
  }

  lemma {:induction false} RunKeepsInv(events: seq<Event>)
    ensures Inv(After(events))
  {
    if events != [] {
      var before, e := events[..|events| - 1], events[|events| - 1];
      RunKeepsInv(before);
      if e.Commit? || e.Rollback? {
        EndKeepsInv(After(before), e);
      } else {
        StatementKeepsInv(After(before), e);
      }
    }
  }

  // ---------------------------------------------------------------- exactly once

  /** Over all transactions that ever committed, at most one was told that the command is new. */
  lemma OneCommittedAdmission(events: seq<Event>, i: nat, j: nat)
    requires var log := After(events).log;
             && i < |log| && j < |log| && IsNew(log[i]) && IsNew(log[j]) && log[i].command.key == log[j].command.key
             && Committed(log[i].tx) in log && Committed(log[j].tx) in log
    ensures i == j
  {
    RunKeepsInv(events);
    var w := After(events);
    assert NewOk(w.db, w.log, w.log[i]) && NewOk(w.db, w.log, w.log[j]);
  }

  lemma EventKeepsCommitted(w: World, e: Event, key: CommandKey)
    requires Inv(w) && key in w.db.committed
    ensures key in Next(w, e).db.committed && Grows(w.db.committed[key], Next(w, e).db.committed[key])
  {
    if e.Commit? && Enabled(w.db, e) && key in w.db.open[e.tx].writes {
      assert WriteOk(w.db, e.tx, key);
    }
  }

  predicate RowGrows(before: Rows, after: Rows, key: CommandKey) {
    key in before && key in after && Grows(before[key], after[key])
  }

  lemma RowGrowsOn(a: Rows, b: Rows, c: Rows, key: CommandKey)
    requires RowGrows(a, b, key) && RowGrows(b, c, key)
    ensures RowGrows(a, c, key)
  {
  }

  lemma NextKeepsCommitted(events: seq<Event>, e: Event, key: CommandKey)
    requires key in After(events).db.committed
    ensures RowGrows(After(events).db.committed, After(events + [e]).db.committed, key)
  {
    assert (events + [e])[..|events|] == events;
    RunKeepsInv(events);
    EventKeepsCommitted(After(events), e, key);
  }

  /** A committed row keeps its request for good, and once completed it never changes again. */
  lemma {:induction false} CommittedRowsGrow(events: seq<Event>, more: seq<Event>, key: CommandKey)
    requires key in After(events).db.committed
    ensures RowGrows(After(events).db.committed, After(events + more).db.committed, key)
    decreases |more|
  {
    if more == [] {
      assert events + more == events;
    } else {
      var next := events + [more[0]];
      NextKeepsCommitted(events, more[0], key);
      CommittedRowsGrow(next, more[1..], key);
      assert next + more[1..] == events + more;
      RowGrowsOn(After(events).db.committed, After(next).db.committed, After(events + more).db.committed, key);
    }
  }

  lemma AnswerOnceCompleted(w: World, tx: TxId, command: Command, newId: Uuid, base: CommandRow, result: CommandResult)
    requires Inv(w) && Enabled(w.db, Admit(tx, command, newId)) && ValidIdempotencyKey(command.key.idempotencyKey)
    requires command.key in w.db.committed && w.db.committed[command.key] == Complete(base, result) && result.Storable()
    ensures var admission := AdmissionOf(Visible(w.db, w.db.open[tx]), command, newId);
            admission == if SameRequest(base, command)
                         then Replay(base.id, result) else PayloadMismatch
    ensures Step(w.db, Admit(tx, command, newId)).committed == w.db.committed
    ensures Step(w.db, Admit(tx, command, newId)).open == w.db.open
  {
    if command.key in w.db.open[tx].writes {
      assert WriteOk(w.db, tx, command.key);
    }
  }

  /** Once a command is committed as completed with `result`, every later request with its key is
      answered from that: the same request with exactly `result`, any other with a mismatch; and
      neither changes a row. */
  lemma CompletedCommandsReplay(events: seq<Event>, more: seq<Event>, tx: TxId, command: Command, newId: Uuid,
                                base: CommandRow, result: CommandResult)
    requires ValidIdempotencyKey(command.key.idempotencyKey) && result.Storable()
    requires var committed := After(events).db.committed;
             command.key in committed && committed[command.key] == Complete(base, result)
    requires Enabled(After(events + more).db, Admit(tx, command, newId))
    ensures var db := After(events + more).db;
            && Step(db, Admit(tx, command, newId)).committed == db.committed
            && Step(db, Admit(tx, command, newId)).open == db.open
            && AdmissionOf(Visible(db, db.open[tx]), command, newId) ==
                 if SameRequest(base, command)
                 then Replay(base.id, result) else PayloadMismatch
  {
    CommittedRowsGrow(events, more, command.key);
    RunKeepsInv(events + more);
    AnswerOnceCompleted(After(events + more), tx, command, newId, base, result);
  }

  /** A transaction that completes a command it can complete commits exactly this result if the table accepts
      it, and otherwise nothing at all. */
  lemma CompletionCommitsIffStorable(events: seq<Event>, tx: TxId, key: CommandKey, id: Uuid, result: CommandResult)
    requires var db := After(events).db;
             Enabled(db, Finish(tx, key, id, result)) && Completes(Visible(db, db.open[tx]), key, id)
    ensures var db := After(events).db;
            var row := Visible(db, db.open[tx])[key];
            var done := Step(Step(db, Finish(tx, key, id, result)), Commit(tx));
            && (result.Storable() <==> key in done.committed && done.committed[key] == Complete(row, result))
            && (!result.Storable() ==> done.committed == db.committed)
  {
    RunKeepsInv(events);
    var db := After(events).db;
    if key in db.open[tx].writes {
      assert WriteOk(db, tx, key);
    }
  }

  /** So in every run each committed result could be stored: a valid status, and a body or a reference
      but not both. */
  lemma CommittedResultsAreStorable(events: seq<Event>, key: CommandKey)
    requires key in After(events).db.committed && After(events).db.committed[key].state.Completed?
    ensures var row := After(events).db.committed[key];
            exists result: CommandResult :: result.Storable() && row == Complete(row, result)
  {
    RunKeepsInv(events);
    var row := After(events).db.committed[key];
    var result := CommandResult(row.operationId, row.responseStatus.value, row.responseBody, row.resultRef);
    assert result.Storable() && row == Complete(row, result);
  }

  // ---------------------------------------------------------------- one transaction at work

  /** What `complete_command` came to: a stored result, no row to complete, or a violated constraint. */
  datatype Completion = Stored | Missing | Violation

  /** The table as an open transaction sees it and writes it; `db` is the database around it. */
  class CommandTable {
    const tx: TxId
    var rows: Rows
    ghost var db: Database

    ghost predicate Valid()
      reads this
    {
      tx in db.open && (!db.open[tx].doomed ==> rows == Visible(db, db.open[tx]))
    }

    constructor (tx: TxId, rows: Rows, ghost db: Database)
      requires tx in db.open && rows == Visible(db, db.open[tx])
      ensures Valid() && this.tx == tx && this.db == db
    {
      this.tx, this.rows, this.db := tx, rows, db;
    }

    /** Insert, read back, compare: the answer is the admission of the runs, and the database makes its step. */
    method Admit(command: Command, freshId: Uuid) returns (admission: Admission)
      requires Valid() && Enabled(db, Event.Admit(tx, command, freshId))
      modifies this
      ensures Valid() && db == Step(old(db), Event.Admit(tx, command, freshId))
      ensures admission == AdmissionOf(old(rows), command, freshId)
      ensures !admission.New? ==> rows == old(rows)
      ensures admission.New? ==> command.key !in old(rows) && AnswerFrom(rows[command.key], command) == InProgress(freshId, None)
    {
      if !ValidIdempotencyKey(command.key.idempotencyKey) {
        return InvalidKey;
      }
      var inserted := command.key !in rows;
      if inserted {
        rows := rows[command.key := Fresh(freshId, command)];
      }
      db := Step(db, Event.Admit(tx, command, freshId));
      var row := rows[command.key];
      if row.digest != command.digest || row.expectedVersion != command.expectedVersion {
        return PayloadMismatch;
      }
      if inserted {
        return New(row.id);
      }
      admission := AnswerFrom(row, command);
    }

    /** What is stored is what the same request is told from then on; a violation leaves nothing to commit. */
    method CompleteCommand(key: CommandKey, id: Uuid, result: CommandResult) returns (c: Completion)
      requires Valid() && Enabled(db, Finish(tx, key, id, result))
      modifies this
      ensures Valid() && db == Step(old(db), Finish(tx, key, id, result))
      ensures c.Missing? <==> !Completes(old(rows), key, id)
      ensures c.Violation? <==> db.open[tx].doomed
      ensures c.Stored? ==> forall command :: SameRequest(old(rows)[key], command) ==>
                                                AnswerFrom(rows[key], command) == Replay(id, result)
      ensures c.Violation? ==> Step(db, Commit(tx)).committed == old(db).committed
    {
      if key !in rows || rows[key].id != id || !rows[key].state.Admitted? {
        return Missing;
      }
      db := Step(db, Finish(tx, key, id, result));
      if !(100 <= result.status <= 599) || (result.body.Some? && result.resultRef.Some?) {
        return Violation;
      }
      rows := rows[key := Complete(rows[key], result)];
      c := Stored;
    }
  }
}
