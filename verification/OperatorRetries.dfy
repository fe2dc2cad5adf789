/** The operator's retry as the API runs it: admit a command, revive the operation, complete the command, commit,
    all in one transaction, among all other command transactions and everything that happens to the queue. */
module OperatorRetries {
  import opened Domain
  import opened Commands
  import Text
  import C = CommandRuns
  import Ops = Operations
  import Q = OperationRuns
  import opened Fencing

  /** What the handler completes its command with, for each operation it revives. */
  type Response = Uuid -> CommandResult

  /** In the source: accepted, with a body and with a reference. */
  function SourceResponse(id: Uuid): CommandResult {
    CommandResult(Some(id), 202, Some("{\"id\":" + Text.Print(id) + ",\"state\":\"pending\"}"), Some(Text.Print(id)))
  }

  /** A retry whose command was admitted as new. From the moment it has revived its operation it holds that row. */
  datatype Handler = Handler(key: CommandKey, command: Uuid, operation: Uuid, revivedAt: Option<int>, completed: bool)

  datatype System = System(commands: C.Database, operations: Q.World, handlers: map<C.TxId, Handler>)

  datatype Event =
    | Elsewhere(command: C.Event)
    | Queue(event: Q.Event)
    | Admit(tx: C.TxId, request: Command, newId: Uuid, operation: Uuid)
    | Revive(tx: C.TxId, now: int)
    | Complete(tx: C.TxId)
    | Commit(tx: C.TxId)
    | Abandon(tx: C.TxId)

  predicate Revived(s: System, id: Uuid) {
    exists t :: t in s.handlers && s.handlers[t].operation == id && s.handlers[t].revivedAt.Some?
  }

  /** Whether a step of the queue has to wait for a row that a retry holds. */
  predicate Waits(s: System, e: Q.Event) {
    match e
    case Run(st) => Revived(s, st.Target())
    case LockLease(_, op, _) => Revived(s, op.id)
    case EndTransaction(_) => false
  }

  predicate IsRetry(e: Q.Event) { e.Run? && e.statement.OperatorRetry? }

  function Drop(s: System, tx: C.TxId): System {
    s.(commands := C.Step(s.commands, C.Rollback(tx)), handlers := s.handlers - {tx})
  }

  function AdmitStep(s: System, tx: C.TxId, request: Command, newId: Uuid, operation: Uuid): System {
    if tx in s.handlers || !C.Enabled(s.commands, C.Admit(tx, request, newId)) then s
    else
      s.(commands := C.Step(s.commands, C.Admit(tx, request, newId)),
         handlers := if C.AdmissionOf(C.Visible(s.commands, s.commands.open[tx]), request, newId).New?
                     then s.handlers[tx := Handler(request.key, newId, operation, None, false)] else s.handlers)
  }

  /** The update of the operation; a transaction that finds no dead letter is given up. */
  function ReviveStep(s: System, tx: C.TxId, now: int): System {
    if tx !in s.handlers || s.handlers[tx].revivedAt.Some? then s
    else
      var id := s.handlers[tx].operation;
      if id in s.operations.db.locks || Revived(s, id) then s
      else if id in s.operations.db.rows && s.operations.db.rows[id].state.DeadLetter? then
        s.(handlers := s.handlers[tx := s.handlers[tx].(revivedAt := Some(now))])
      else Drop(s, tx)
  }

  function CompleteStep(response: Response, s: System, tx: C.TxId): System {
    if tx !in s.handlers || s.handlers[tx].revivedAt.None? || s.handlers[tx].completed then s
    else
      var h := s.handlers[tx];
      s.(commands := C.Step(s.commands, C.Finish(tx, h.key, h.command, response(h.operation))),
         handlers := s.handlers[tx := h.(completed := true)])
  }

  /** The update of the operation becomes visible with the rest of the transaction, or not at all. */
  ghost function CommitStep(s: System, tx: C.TxId): System {
    if tx !in s.handlers || !s.handlers[tx].completed || s.handlers[tx].revivedAt.None? || tx !in s.commands.open then s
    else
      var h := s.handlers[tx];
      System(C.Step(s.commands, C.Commit(tx)),
             if s.commands.open[tx].doomed then s.operations
             else Q.Next(s.operations, Q.Run(Ops.OperatorRetry(h.operation, h.revivedAt.value))),
             s.handlers - {tx})
  }

  ghost function Next(response: Response, s: System, e: Event): System {
    match e
    case Elsewhere(c) => if c.tx in s.handlers then s else s.(commands := C.Step(s.commands, c))
    case Queue(q) => if IsRetry(q) || Waits(s, q) then s else s.(operations := Q.Next(s.operations, q))
    case Admit(tx, request, newId, operation) => AdmitStep(s, tx, request, newId, operation)
    case Revive(tx, now) => ReviveStep(s, tx, now)
    case Complete(tx) => CompleteStep(response, s, tx)
    case Commit(tx) => CommitStep(s, tx)
    case Abandon(tx) => if tx in s.handlers then Drop(s, tx) else s
  }

  ghost function Initial(): System { System(C.After([]).db, Q.After([]), map[]) }

  ghost function Run(response: Response, events: seq<Event>): System {
    if events == [] then Initial() else Next(response, Run(response, events[..|events| - 1]), events[|events| - 1])
  }

  // ---------------------------------------------------------------- the invariant

  /** The command of a retry is still open to completion until it is completed; a response the table refuses dooms
      the transaction. */
  ghost predicate CommandOk(response: Response, commands: C.Database, tx: C.TxId, h: Handler) {
    && tx in commands.open
    && h.key in commands.locks && commands.locks[h.key] == tx
    && h.key in commands.open[tx].writes && commands.open[tx].writes[h.key].id == h.command
    && (!h.completed ==> !commands.open[tx].doomed && commands.open[tx].writes[h.key].state.Admitted?)
    && (h.completed ==> (commands.open[tx].doomed <==> !response(h.operation).Storable()))
  }

  ghost predicate RevivalOk(operations: Q.World, h: Handler) {
    && (h.completed ==> h.revivedAt.Some?)
    && (h.revivedAt.Some? ==>
          && h.operation in operations.db.rows && operations.db.rows[h.operation].state.DeadLetter?
          && h.operation !in operations.db.locks)
  }

  ghost predicate Inv(response: Response, s: System) {
    && (forall t :: t in s.handlers ==> CommandOk(response, s.commands, t, s.handlers[t]) && RevivalOk(s.operations, s.handlers[t]))
    && (forall t, u :: BothHold(s.handlers, t, u) ==> t == u)
  }

  predicate BothHold(handlers: map<C.TxId, Handler>, t: C.TxId, u: C.TxId) {
    && t in handlers && u in handlers && handlers[t].operation == handlers[u].operation
    && handlers[t].revivedAt.Some? && handlers[u].revivedAt.Some?
  }

  lemma OtherTransactionsKeepCommand(response: Response, commands: C.Database, e: C.Event, tx: C.TxId, h: Handler)
    requires CommandOk(response, commands, tx, h) && e.tx != tx
    ensures CommandOk(response, C.Step(commands, e), tx, h)
  {
  }

  lemma QueueKeepsRevival(s: System, e: Q.Event, t: C.TxId)
    requires t in s.handlers && RevivalOk(s.operations, s.handlers[t]) && !Waits(s, e)
    ensures RevivalOk(Q.Next(s.operations, e), s.handlers[t])
  {
    var h := s.handlers[t];
    if h.revivedAt.Some? {
      assert Revived(s, h.operation);
    }
  }

  lemma CommitKeepsOthers(s: System, tx: C.TxId, t: C.TxId)
    requires tx in s.handlers && t in s.handlers && t != tx && s.handlers[tx].revivedAt.Some?
    requires s.handlers[t].revivedAt.Some? ==> s.handlers[t].operation != s.handlers[tx].operation
    requires RevivalOk(s.operations, s.handlers[t])
    ensures RevivalOk(CommitStep(s, tx).operations, s.handlers[t])
  {
  }

  lemma DropKeepsInv(response: Response, s: System, tx: C.TxId)
    requires Inv(response, s) && tx in s.handlers
    ensures Inv(response, Drop(s, tx))
  {
    forall t | t in s.handlers && t != tx {
      OtherTransactionsKeepCommand(response, s.commands, C.Rollback(tx), t, s.handlers[t]);
    }
    assert forall t, u :: BothHold(Drop(s, tx).handlers, t, u) ==> BothHold(s.handlers, t, u);
  }

  lemma AdmitKeepsInv(response: Response, s: System, e: Event)
    requires Inv(response, s) && e.Admit?
    ensures Inv(response, Next(response, s, e))
  {
    if e.tx !in s.handlers && C.Enabled(s.commands, C.Admit(e.tx, e.request, e.newId)) {
      forall t | t in s.handlers {
        OtherTransactionsKeepCommand(response, s.commands, C.Admit(e.tx, e.request, e.newId), t, s.handlers[t]);
      }
      assert forall t, u :: BothHold(Next(response, s, e).handlers, t, u) ==> BothHold(s.handlers, t, u);
    }
  }

  lemma ReviveKeepsInv(response: Response, s: System, e: Event)
    requires Inv(response, s) && e.Revive?
    ensures Inv(response, Next(response, s, e))
  {
    if e.tx in s.handlers && s.handlers[e.tx].revivedAt.None? {
      var id := s.handlers[e.tx].operation;
      if id !in s.operations.db.locks && !Revived(s, id) {
        if id in s.operations.db.rows && s.operations.db.rows[id].state.DeadLetter? {
          assert forall t :: t in s.handlers && s.handlers[t].revivedAt.Some? ==> s.handlers[t].operation != id;
          assert forall t, u :: BothHold(Next(response, s, e).handlers, t, u) ==> t == u || BothHold(s.handlers, t, u);
        } else {
          DropKeepsInv(response, s, e.tx);
        }
      }
    }
  }

  lemma CompletionSettles(response: Response, commands: C.Database, tx: C.TxId, h: Handler)
    requires CommandOk(response, commands, tx, h) && !h.completed
    ensures CommandOk(response, C.Step(commands, C.Finish(tx, h.key, h.command, response(h.operation))), tx, h.(completed := true))
  {
  }

  lemma CompleteKeepsInv(response: Response, s: System, e: Event)
    requires Inv(response, s) && e.Complete?
    ensures Inv(response, Next(response, s, e))
  {
    if e.tx in s.handlers && s.handlers[e.tx].revivedAt.Some? && !s.handlers[e.tx].completed {
      var h := s.handlers[e.tx];
      CompletionSettles(response, s.commands, e.tx, h);
      forall t | t in s.handlers && t != e.tx {
        OtherTransactionsKeepCommand(response, s.commands, C.Finish(e.tx, h.key, h.command, response(h.operation)), t, s.handlers[t]);
      }
      assert forall t, u :: BothHold(Next(response, s, e).handlers, t, u) ==> BothHold(s.handlers, t, u);
    }
  }

  lemma CommitKeepsInv(response: Response, s: System, e: Event)
    requires Inv(response, s) && e.Commit?
    ensures Inv(response, Next(response, s, e))
  {
    var s' := Next(response, s, e);
    if s' != s {
      forall t | t in s.handlers && t != e.tx
        ensures CommandOk(response, s'.commands, t, s.handlers[t]) && RevivalOk(s'.operations, s.handlers[t])
      {
        assert !BothHold(s.handlers, t, e.tx);
        OtherTransactionsKeepCommand(response, s.commands, C.Commit(e.tx), t, s.handlers[t]);
        CommitKeepsOthers(s, e.tx, t);
      }
      assert forall t, u :: BothHold(s'.handlers, t, u) ==> BothHold(s.handlers, t, u);
    }
  }

  lemma ElsewhereKeepsInv(response: Response, s: System, e: Event)
    requires Inv(response, s) && (e.Elsewhere? || e.Queue?)
    ensures Inv(response, Next(response, s, e))
  {
    if e.Elsewhere? && e.command.tx !in s.handlers {
      forall t | t in s.handlers {
        OtherTransactionsKeepCommand(response, s.commands, e.command, t, s.handlers[t]);
      }
    } else if e.Queue? && !Waits(s, e.event) {
      forall t | t in s.handlers {
        QueueKeepsRevival(s, e.event, t);
      }
    }
  }

  lemma EventKeepsInv(response: Response, s: System, e: Event)
    requires Inv(response, s)
    ensures Inv(response, Next(response, s, e))
  {
    if e.Elsewhere? || e.Queue? {
      ElsewhereKeepsInv(response, s, e);
    } else if e.Admit? {
      AdmitKeepsInv(response, s, e);
    } else if e.Revive? {
      ReviveKeepsInv(response, s, e);
    } else if e.Complete? {
      CompleteKeepsInv(response, s, e);
    } else if e.Commit? {
      CommitKeepsInv(response, s, e);
    } else if e.tx in s.handlers {
      DropKeepsInv(response, s, e.tx);
    }
  }

  lemma {:induction false} RunKeepsInv(response: Response, events: seq<Event>)
    ensures Inv(response, Run(response, events))
  {
    if events != [] {
      RunKeepsInv(response, events[..|events| - 1]);
      EventKeepsInv(response, Run(response, events[..|events| - 1]), events[|events| - 1]);
    }
  }

  lemma QueueInvGrows(w: Q.World, e: Q.Event)
    requires Q.Inv(w) && Lawful(w.log)
    ensures Q.Inv(Q.Next(w, e)) && Lawful(Q.Next(w, e).log)
  {
    LawfulGrows(w, e);
    if e.Run? {
      Q.StatementKeepsInv(w, e.statement);
    } else {
      Q.LockingKeepsInv(w, e);
    }
  }

  /** All that is proved of lawful histories holds here. */
  lemma {:induction false} RunsAreLawful(response: Response, events: seq<Event>)
    ensures Q.Inv(Run(response, events).operations) && Lawful(Run(response, events).operations.log)
  {
    if events == [] {
      Q.RunKeepsInv([]);
    } else {
      var before, e := events[..|events| - 1], events[|events| - 1];
      RunsAreLawful(response, before);
      var s := Run(response, before);
      if e.Queue? {
        QueueInvGrows(s.operations, e.event);
      } else if e.Commit? && e.tx in s.handlers && s.handlers[e.tx].revivedAt.Some? {
        QueueInvGrows(s.operations, Q.Run(Ops.OperatorRetry(s.handlers[e.tx].operation, s.handlers[e.tx].revivedAt.value)));
      }
    }
  }

  // ---------------------------------------------------------------- what a retry comes to

  /** In every run, committing a completed retry revives its operation if the commands table accepts the response,
      and otherwise changes neither operations nor commands. */
  lemma RetryTakesEffectIffStorable(response: Response, events: seq<Event>, tx: C.TxId)
    requires tx in Run(response, events).handlers && Run(response, events).handlers[tx].completed
    ensures var s, h := Run(response, events), Run(response, events).handlers[tx];
            var t := Next(response, s, Commit(tx));
            if response(h.operation).Storable() then
              && h.revivedAt.Some? && t.operations.log == s.operations.log + [Q.Retried(h.operation, h.revivedAt.value)]
              && h.operation in t.operations.db.rows && t.operations.db.rows[h.operation].state.Pending?
            else t.operations == s.operations && t.commands.committed == s.commands.committed
  {
    RunKeepsInv(response, events);
    var s := Run(response, events);
    assert CommandOk(response, s.commands, tx, s.handlers[tx]) && RevivalOk(s.operations, s.handlers[tx]);
  }

  ghost predicate NeverStorable(response: Response) { forall id :: !response(id).Storable() }

  lemma SourceResponseIsRefused()
    ensures NeverStorable(SourceResponse)
  {
  }

  ghost predicate NoRetries(log: Q.Log) { forall k :: 0 <= k < |log| ==> !log[k].Retried? }

  /** With a response the table refuses, no step of a retry ever changes the operation table, whatever else goes
      on. */
  lemma RetryChangesNothing(response: Response, events: seq<Event>, e: Event)
    requires NeverStorable(response) && !e.Queue?
    ensures Next(response, Run(response, events), e).operations == Run(response, events).operations
  {
    RunKeepsInv(response, events);
    var s := Run(response, events);
    if e.Commit? && e.tx in s.handlers {
      assert CommandOk(response, s.commands, e.tx, s.handlers[e.tx]);
    }
  }

  lemma {:induction false} NoRetryTakesEffect(response: Response, events: seq<Event>)
    requires NeverStorable(response)
    ensures NoRetries(Run(response, events).operations.log)
  {
    if events != [] {
      var before, e := events[..|events| - 1], events[|events| - 1];
      NoRetryTakesEffect(response, before);
      if !e.Queue? {
        RetryChangesNothing(response, before, e);
      }
    }
  }

  /** In the source's own runs a dead letter is final: nothing about the operation happens ever after. */
  lemma DeadLettersAreFinal(events: seq<Event>, i: nat)
    requires var log := Run(SourceResponse, events).operations.log;
             i < |log| && log[i].Finished? && log[i].state.DeadLetter?
    ensures var log := Run(SourceResponse, events).operations.log;
            && Q.StateIn(log, log[i].id) == Ops.DeadLetter
            && forall k :: i < k < |log| ==> !log[k].About(log[i].id)
  {
    SourceResponseIsRefused();
    NoRetryTakesEffect(SourceResponse, events);
    RunsAreLawful(SourceResponse, events);
    var log := Run(SourceResponse, events).operations.log;
    DeadLetterRests(log, i, |log|);
    assert log[..|log|] == log;
  }

  /** And there the tokens of an operation are distinct for good: attempts rise from grant to grant. */
  lemma TokensAreDistinctForGood(events: seq<Event>, i: nat, j: nat)
    requires var log := Run(SourceResponse, events).operations.log;
             i < j < |log| && log[i].Granted? && log[j].Granted? && log[i].id == log[j].id
    ensures var log := Run(SourceResponse, events).operations.log;
            log[i].token.attempt < log[j].token.attempt
  {
    SourceResponseIsRefused();
    NoRetryTakesEffect(SourceResponse, events);
    RunsAreLawful(SourceResponse, events);
    TokensIncreaseWithinGeneration(Run(SourceResponse, events).operations.log, i, j);
  }

  /** So a token once lost is lost for good. */
  lemma LostTokensStayLost(events: seq<Event>, i: nat, lost: nat, j: nat)
    requires var log := Run(SourceResponse, events).operations.log;
             i < lost < j <= |log| && log[i].Granted? && log[lost].Moves(log[i].id)
    ensures var log := Run(SourceResponse, events).operations.log;
            Q.Authority(log[..j], log[i].id) != Some(log[i].token)
  {
    SourceResponseIsRefused();
    NoRetryTakesEffect(SourceResponse, events);
    RunsAreLawful(SourceResponse, events);
    LostTokenNeedsNewGeneration(Run(SourceResponse, events).operations.log, i, lost, j);
  }

  // ---------------------------------------------------------------- if the table did accept the response

  function QueueOnly(events: seq<Q.Event>): seq<Event> { seq(|events|, i requires 0 <= i < |events| => Queue(events[i])) }

  lemma {:induction false} QueueAlone(response: Response, events: seq<Q.Event>)
    requires forall e :: e in events ==> !IsRetry(e)
    ensures Run(response, QueueOnly(events)) == System(C.After([]).db, Q.After(events), map[])
  {
    if events != [] {
      var before := events[..|events| - 1];
      QueueAlone(response, before);
      assert QueueOnly(events)[..|events| - 1] == QueueOnly(before);
      assert events[|events| - 1] in events && !Revived(Run(response, QueueOnly(before)), 1);
      assert !Waits(Run(response, QueueOnly(before)), events[|events| - 1]);
    }
  }

  lemma RunOne(response: Response, events: seq<Event>, e: Event)
    ensures Run(response, events + [e]) == Next(response, Run(response, events), e)
  {
    assert (events + [e])[..|events|] == events;
  }

  lemma AdmitAlone(response: Response, s: System, request: Command)
    requires s.commands == C.After([]).db && s.handlers == map[] && ValidIdempotencyKey(request.key.idempotencyKey)
    ensures var admitted := Next(response, Next(response, s, Elsewhere(C.Begin(0))), Admit(0, request, 0, 1));
            && admitted.operations == s.operations && admitted.handlers == map[0 := Handler(request.key, 0, 1, None, false)]
            && admitted.commands.open == map[0 := C.Transaction(map[request.key := Fresh(0, request)], false)]
            && admitted.commands.locks == map[request.key := 0]
  {
    var begun := Next(response, s, Elsewhere(C.Begin(0)));
    assert begun.commands.open == map[0 := C.Transaction(map[], false)];
  }

  lemma ReviveAlone(response: Response, s: System, h: Handler)
    requires s.handlers == map[0 := h] && h.revivedAt.None? && !h.completed && s.operations.db.locks == map[]
    requires h.operation in s.operations.db.rows && s.operations.db.rows[h.operation].state.DeadLetter?
    ensures Next(response, s, Revive(0, 0)) == s.(handlers := map[0 := h.(revivedAt := Some(0))])
  {
    assert !Revived(s, h.operation);
  }

  lemma FinishAlone(response: Response, s: System, h: Handler, request: Command)
    requires s.handlers == map[0 := h] && h.revivedAt == Some(0) && !h.completed && h.key == request.key && h.command == 0
    requires s.commands.open == map[0 := C.Transaction(map[request.key := Fresh(0, request)], false)]
    requires s.commands.locks == map[request.key := 0] && response(h.operation).Storable()
    ensures var t := Next(response, Next(response, s, Complete(0)), Commit(0));
            && t.operations == Q.Next(s.operations, Q.Run(Ops.OperatorRetry(h.operation, 0))) && t.handlers == map[]
  {
    var completed := Next(response, s, Complete(0));
    assert completed.handlers == map[0 := h.(completed := true)] && !completed.commands.open[0].doomed;
  }

  /** The undisturbed way of a retry. */
  lemma RetryAlone(response: Response, s: System, request: Command)
    requires s.commands == C.After([]).db && s.handlers == map[] && s.operations.db.locks == map[]
    requires 1 in s.operations.db.rows && s.operations.db.rows[1].state.DeadLetter?
    requires response(1).Storable() && ValidIdempotencyKey(request.key.idempotencyKey)
    ensures var admitted := Next(response, Next(response, s, Elsewhere(C.Begin(0))), Admit(0, request, 0, 1));
            var t := Next(response, Next(response, Next(response, admitted, Revive(0, 0)), Complete(0)), Commit(0));
            t.operations == Q.Next(s.operations, Q.Run(Ops.OperatorRetry(1, 0))) && t.handlers == map[]
  {
    AdmitAlone(response, s, request);
    var admitted := Next(response, Next(response, s, Elsewhere(C.Begin(0))), Admit(0, request, 0, 1));
    var h := Handler(request.key, 0, 1, None, false);
    ReviveAlone(response, admitted, h);
    FinishAlone(response, Next(response, admitted, Revive(0, 0)), h.(revivedAt := Some(0)), request);
  }

  /** The refusal is what makes tokens distinct for good: with any response the table accepts there is a run in
      which a worker is granted, once more, the very token it lost. */
  lemma AcceptedResponseReissuesToken(response: Response, request: Command, identity: Ops.Identity, content: Ops.Content, worker: string)
    returns (events: seq<Event>)
    requires response(1).Storable() && ValidIdempotencyKey(request.key.idempotencyKey)
    ensures var log := Run(response, events).operations.log;
            && |log| == 4 && log[0].Granted? && log[3].Granted? && log[0].id == log[3].id
            && log[0].token == log[3].token == Ops.Token(worker, 1)
  {
    var failed := FirstAttemptFails(identity, content, worker);
    QueueAlone(response, failed);
    events := QueueOnly(failed);
    var s := Run(response, events);
    RetryAlone(response, s, request);
    RetryThenGrant(s.operations, worker);
    RunOne(response, events, Elsewhere(C.Begin(0)));
    events := events + [Elsewhere(C.Begin(0))];
    RunOne(response, events, Admit(0, request, 0, 1));
    events := events + [Admit(0, request, 0, 1)];
    RunOne(response, events, Revive(0, 0));
    events := events + [Revive(0, 0)];
    RunOne(response, events, Complete(0));
    events := events + [Complete(0)];
    RunOne(response, events, Commit(0));
    events := events + [Commit(0)];
    var grant := Queue(Q.Run(Ops.Grant(1, identity.kind.Queue(), worker, 0)));
    RunOne(response, events, grant);
    assert !Waits(Run(response, events), grant.event);
    events := events + [grant];
  }
}
