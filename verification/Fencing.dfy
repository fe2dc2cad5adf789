/** Lease fencing, attempt accounting and backoff, as statements about the history of every run. */
module Fencing {
  import opened Domain
  import opened Operations
  import opened OperationRuns
  import Backoff

  /** Each entry of a run's history was written by one enabled event, and what stood before it is the
      history of the run up to that event. */
  lemma {:induction false} Origin(events: seq<Event>, i: nat) returns (k: nat)
    requires i < |After(events).log|
    ensures k < |events|
    ensures After(events[..k]).log == After(events).log[..i]
    ensures Enabled(After(events[..k]).db, events[k])
    ensures Record(After(events[..k]).db, events[k]) == [After(events).log[i]]
    decreases |events|
  {
    var before := events[..|events| - 1];
    var w := After(before);
    if i < |w.log| {
      k := Origin(before, i);
      assert before[..k] == events[..k];
      assert After(events).log[..i] == w.log[..i];
    } else {
      k := |events| - 1;
      assert After(events).log[..i] == w.log;
    }
  }

  // ---------------------------------------------------------------- lawful histories

  /** What must have happened before an entry for the entry to be there. */
  predicate Justified(before: Log, entry: Entry) {
    match entry
    case Granted(id, token, reconciling, at) =>
      && LockHolder(before, id).None?
      && token.attempt == Grants(before, id) + 1
      && StateIn(before, id) in {Pending, AwaitingReconciliation, InFlight}
      && (reconciling <==> StateIn(before, id) in {AwaitingReconciliation, InFlight})
      && (Authority(before, id).Some? ==> Deadline(before, id) < at)
      && (NotBefore(before, id).Some? ==> NotBefore(before, id).value <= at)
    case Extended(id, token, at) =>
      LockHolder(before, id).None? && Authority(before, id) == Some(token) && at < Deadline(before, id)
    case Checkpointed(id, token, at) =>
      LockHolder(before, id).None? && Authority(before, id) == Some(token) && at < Deadline(before, id)
    case Finished(id, token, state, delay, at) =>
      && LockHolder(before, id).None? && Authority(before, id) == Some(token) && at < Deadline(before, id)
      && !state.InFlight?
      && (state in {Pending, AwaitingReconciliation} ==>
            Backoff.RetryDelay(token.attempt) <= delay <= Backoff.MAX_PROVIDER_DELAY)
    case Retried(id, _) =>
      LockHolder(before, id).None? && Authority(before, id).None? && StateIn(before, id) == DeadLetter
    case Locked(tx, id, token, at) =>
      LockHolder(before, id) in {None, Some(tx)} && Authority(before, id) == Some(token) && at < Deadline(before, id)
    case Ended(_) => true
  }

  ghost predicate Lawful(log: Log) {
    forall i :: 0 <= i < |log| ==> Justified(log[..i], log[i])
  }

  lemma EnabledEntryIsJustified(w: World, e: Event)
    requires Inv(w) && Enabled(w.db, e) && Record(w.db, e) != []
    ensures Justified(w.log, Record(w.db, e)[0])
  {
    if !e.EndTransaction? {
      var id := Record(w.db, e)[0].id;
      assert RowMatches(w.db.rows[id], StoryOf(w.log, id)) && LockRecorded(w, id);
    }
  }

  /** Every run, whatever the interleaving, has a lawful history. All that follows is about lawful
      histories. */
  lemma RunsAreLawful(events: seq<Event>)
    ensures Lawful(After(events).log)
  {
    var log := After(events).log;
    forall i | 0 <= i < |log|
      ensures Justified(log[..i], log[i])
    {
      var k := Origin(events, i);
      RunKeepsInv(events[..k]);
      EnabledEntryIsJustified(After(events[..k]), events[k]);
    }
  }

  /** So it is wherever the operation table takes part in a larger system. */
  lemma LawfulGrows(w: World, e: Event)
    requires Inv(w) && Lawful(w.log)
    ensures Lawful(Next(w, e).log)
  {
    var log := Next(w, e).log;
    forall i | 0 <= i < |log|
      ensures Justified(log[..i], log[i])
    {
      if i < |w.log| {
        assert log[..i] == w.log[..i] && log[i] == w.log[i];
      } else {
        assert log[..i] == w.log;
        EnabledEntryIsJustified(w, e);
      }
    }
  }

  lemma StoryAt(log: Log, j: nat, id: Uuid)
    requires 0 < j <= |log|
    ensures log[..j] == log[..j - 1] + [log[j - 1]]
    ensures Init(log[..j]) == log[..j - 1] && Last(log[..j]) == log[j - 1]
    ensures !log[j - 1].About(id) ==> StoryOf(log[..j], id) == StoryOf(log[..j - 1], id)
  {
    assert log[..j] == log[..j - 1] + [log[j - 1]];
    StoryGrows(log[..j - 1], log[j - 1], id);
  }

  // ---------------------------------------------------------------- who may act

  /** Renewing, checkpointing, finishing and locking are done only by the most recent grantee of an
      operation that has neither ended nor been retried since, and before its deadline. */
  lemma FencedByLatestGrant(log: Log, i: nat)
    requires Lawful(log) && i < |log| && log[i].Exercises()
    ensures log[i].at < Deadline(log[..i], log[i].id)
    ensures exists g :: LatestGrant(log[..i], log[i].id, log[i].token, g)
  {
    AuthorityIsLatestGrant(log[..i], log[i].id, log[i].token);
  }

  ghost predicate LatestGrant(log: Log, id: Uuid, token: Token, g: nat) {
    && g < |log| && log[g].Granted? && log[g].id == id && log[g].token == token
    && forall k :: g < k < |log| ==> !log[k].Moves(id)
  }

  /** Authority read from a history means just this: the token was granted, and nothing moved the
      operation after that. */
  lemma {:induction false} AuthorityIsLatestGrant(log: Log, id: Uuid, token: Token)
    ensures Authority(log, id) == Some(token) <==> exists g :: LatestGrant(log, id, token, g)
  {
    if log != [] {
      AuthorityIsLatestGrant(Init(log), id, token);
      if Last(log).Moves(id) {
        if Authority(log, id) == Some(token) {
          assert LatestGrant(log, id, token, |log| - 1);
        }
        forall g | LatestGrant(log, id, token, g)
          ensures g == |log| - 1
        {
        }
      } else {
        forall g
          ensures LatestGrant(log, id, token, g) <==> LatestGrant(Init(log), id, token, g)
        {
        }
      }
    }
  }

  // ---------------------------------------------------------------- tokens

  lemma {:induction false} GrantsAccumulate(log: Log, id: Uuid, i: nat, j: nat)
    requires i <= j <= |log|
    requires forall k :: i <= k < j ==> !(log[k].Retried? && log[k].id == id)
    ensures Grants(log[..i], id) <= Grants(log[..j], id)
    decreases j
  {
    if i < j {
      GrantsAccumulate(log, id, i, j - 1);
      StoryAt(log, j, id);
    }
  }

  /** Between two operator retries every grant carries a larger attempt than the one before, so no
      two tokens of a generation are equal. */
  lemma TokensIncreaseWithinGeneration(log: Log, i: nat, j: nat)
    requires Lawful(log) && i < j < |log|
    requires log[i].Granted? && log[j].Granted? && log[i].id == log[j].id
    requires forall k :: i < k < j ==> !(log[k].Retried? && log[k].id == log[i].id)
    ensures log[i].token.attempt < log[j].token.attempt
  {
    StoryAt(log, i + 1, log[i].id);
    GrantsAccumulate(log, log[i].id, i + 1, j);
  }

  /** The token of grant `i` was granted once more at `g`, in a generation that the retry at `r` opened, and
      nothing moved the operation after that. */
  ghost predicate Regained(log: Log, i: nat, j: nat, r: nat, g: nat)
    requires i < j <= |log| && log[i].Granted?
  {
    && i < r < g < j && log[r].Retried? && log[r].id == log[i].id
    && LatestGrant(log[..j], log[i].id, log[i].token, g)
  }

  /** A token that was granted at `i` and then lost is authoritative again exactly if an operator retry
      opened a new generation in between, in which it was granted once more and not lost since. */
  lemma LostTokenNeedsNewGeneration(log: Log, i: nat, lost: nat, j: nat)
    requires Lawful(log) && i < lost < j <= |log|
    requires log[i].Granted? && log[lost].Moves(log[i].id)
    ensures Authority(log[..j], log[i].id) == Some(log[i].token) <==> exists r, g :: Regained(log, i, j, r, g)
  {
    var id, token := log[i].id, log[i].token;
    AuthorityIsLatestGrant(log[..j], id, token);
    if Authority(log[..j], id) == Some(token) {
      var g: nat :| LatestGrant(log[..j], id, token, g);
      assert log[..j][lost] == log[lost];
      if forall r :: i < r < g ==> !(log[r].Retried? && log[r].id == id) {
        TokensIncreaseWithinGeneration(log, i, g);
        assert false;
      }
      var r :| i < r < g && log[r].Retried? && log[r].id == id;
      assert Regained(log, i, j, r, g);
    }
  }

  // ---------------------------------------------------------------- locks

  lemma {:induction false} LockIsHeldUntilEnd(log: Log, i: nat, j: nat)
    requires Lawful(log) && i < j <= |log| && log[i].Locked?
    requires forall k :: i < k < j ==> log[k] != Ended(log[i].tx)
    ensures LockHolder(log[..j], log[i].id) == Some(log[i].tx)
    ensures Authority(log[..j], log[i].id) == Some(log[i].token)
    ensures forall k :: i < k < j && log[k].About(log[i].id) ==> log[k].Locked? && log[k].tx == log[i].tx
    decreases j
  {
    StoryAt(log, j, log[i].id);
    assert Justified(log[..j - 1], log[j - 1]);
    if i < j - 1 {
      LockIsHeldUntilEnd(log, i, j - 1);
    }
  }

  /** Once a transaction has locked the lease it acts under, nobody else moves, renews or takes the
      operation before that transaction ends, whether or not the lease runs out meanwhile: what it
      commits, it commits as the current holder. */
  lemma LockedLeaseSerialisesWithTakeover(log: Log, i: nat, end: nat)
    requires Lawful(log) && i < end < |log| && log[i].Locked?
    requires log[end] == Ended(log[i].tx) && forall k :: i < k < end ==> log[k] != Ended(log[i].tx)
    ensures Authority(log[..end], log[i].id) == Some(log[i].token)
    ensures forall k :: i < k < end && log[k].About(log[i].id) ==> log[k].Locked? && log[k].tx == log[i].tx
  {
    LockIsHeldUntilEnd(log, i, end);
  }

  // ---------------------------------------------------------------- attempts and backoff

  /** Exact accounting: a row's attempt counts its grants in the generation; a pending row has budget
      left; and only reconciling grants can push the attempt past the budget. */
  lemma AttemptAccounting(events: seq<Event>, id: Uuid)
    requires id in After(events).db.rows
    ensures var w, row := After(events), After(events).db.rows[id];
            && row.attempt == Grants(w.log, id)
            && (row.state.Pending? ==> row.attempt < row.maxAttempts)
            && Grants(w.log, id) - ReconcilingGrants(w.log, id) <= row.maxAttempts
            && row.attempt <= row.maxAttempts + ReconcilingGrants(w.log, id)
  {
    RunKeepsInv(events);
    assert RowMatches(After(events).db.rows[id], StoryOf(After(events).log, id));
  }

  /** A grant goes beyond the budget exactly when its generation has already had `maxAttempts` grants, and then
      it is for reconciliation. */
  lemma GrantBeyondBudget(events: seq<Event>, s: Statement)
    requires s.Grant? && Enabled(After(events).db, Run(s))
    ensures var w, row := After(events), After(events).db.rows[s.id];
            var op := Leased(s.id, row, s.worker);
            && Next(w, Run(s)).log == w.log + [Granted(s.id, op.Claim(), op.reconciling, s.now)]
            && (op.attempt > row.maxAttempts <==> Grants(w.log, s.id) >= row.maxAttempts)
            && (op.attempt > row.maxAttempts ==> op.reconciling)
  {
    RunKeepsInv(events);
    assert RowMatches(After(events).db.rows[s.id], StoryOf(After(events).log, s.id));
  }

  lemma {:induction false} StoryStandsStill(log: Log, id: Uuid, i: nat, j: nat)
    requires i < j <= |log|
    requires forall k :: i < k < j ==> !log[k].Moves(id)
    ensures NotBefore(log[..j], id) == NotBefore(log[..i + 1], id)
    ensures StateIn(log[..j], id) == StateIn(log[..i + 1], id)
    decreases j
  {
    if i + 1 < j {
      StoryStandsStill(log, id, i, j - 1);
      StoryAt(log, j, id);
    }
  }

  /** After a finish that leaves the operation to be tried again, the next grant waits out the
      recorded delay, which is never below the exponential schedule nor above an hour; and that grant
      is flagged for reconciliation exactly when the finish did not know the outcome. */
  lemma BackoffIsRespected(log: Log, f: nat, i: nat)
    requires Lawful(log) && f < i < |log|
    requires log[f].Finished? && log[i].Granted? && log[i].id == log[f].id
    requires forall k :: f < k < i ==> !log[k].Moves(log[f].id)
    ensures log[i].at >= log[f].at + log[f].delay * SECOND
    ensures Backoff.MIN_DELAY <= Backoff.RetryDelay(log[f].token.attempt) <= log[f].delay <= Backoff.MAX_PROVIDER_DELAY
    ensures log[i].reconciling <==> log[f].state == AwaitingReconciliation
  {
    StoryAt(log, f + 1, log[f].id);
    StoryStandsStill(log, log[f].id, f, i);
    assert Justified(log[..f], log[f]) && Justified(log[..i], log[i]);
    Backoff.RetryDelayMonotone(log[f].token.attempt, log[f].token.attempt);
  }

  /** A takeover happens only after the last lease ran out, and is always flagged for reconciliation. */
  lemma TakeoverWaitsForExpiry(log: Log, g: nat, i: nat)
    requires Lawful(log) && g < i < |log|
    requires log[g].Granted? && log[i].Granted? && log[i].id == log[g].id
    requires forall k :: g < k < i ==> !log[k].Moves(log[g].id)
    ensures log[i].reconciling && log[i].at > Deadline(log[..i], log[g].id)
  {
    StoryAt(log, g + 1, log[g].id);
    StoryStandsStill(log, log[g].id, g, i);
    assert Justified(log[..i], log[i]);
    AuthorityIsLatestGrant(log[..i], log[g].id, log[g].token);
    assert LatestGrant(log[..i], log[g].id, log[g].token, g);
  }

  /** Success is final: nothing about the operation happens ever after. */
  lemma {:induction false} SucceededIsFinal(log: Log, i: nat, j: nat)
    requires Lawful(log) && i < j <= |log|
    requires log[i].Finished? && log[i].state.Succeeded?
    ensures StateIn(log[..j], log[i].id) == Succeeded && Authority(log[..j], log[i].id) == None
    ensures forall k :: i < k < j ==> !log[k].About(log[i].id)
    decreases j
  {
    StoryAt(log, j, log[i].id);
    if i + 1 < j {
      SucceededIsFinal(log, i, j - 1);
      assert Justified(log[..j - 1], log[j - 1]);
    }
  }

  /** A dead letter rests until an operator retry takes effect on it. */
  lemma {:induction false} DeadLetterRests(log: Log, i: nat, j: nat)
    requires Lawful(log) && i < j <= |log|
    requires log[i].Finished? && log[i].state.DeadLetter?
    requires forall k :: i < k < j ==> !(log[k].Retried? && log[k].id == log[i].id)
    ensures StateIn(log[..j], log[i].id) == DeadLetter && Authority(log[..j], log[i].id) == None
    ensures forall k :: i < k < j ==> !log[k].About(log[i].id)
    decreases j
  {
    StoryAt(log, j, log[i].id);
    if i + 1 < j {
      DeadLetterRests(log, i, j - 1);
      assert Justified(log[..j - 1], log[j - 1]);
    }
  }

  // ---------------------------------------------------------------- what the queue does not promise

  /** The budget does not bound the attempt: an operation whose leases keep running out is granted
      again and again. */
  lemma {:induction false} AttemptExceedsAnyBudget(identity: Identity, content: Content, worker: string, n: nat)
    returns (events: seq<Event>)
    requires 1 <= n <= MAX_INTEGER
    ensures 1 in After(events).db.rows && 1 !in After(events).db.locks
    ensures After(events).db.rows[1].identity == identity && After(events).db.rows[1].maxAttempts == DEFAULT_MAX_ATTEMPTS
    ensures After(events).db.rows[1].state.InFlight? && After(events).db.rows[1].attempt == n
  {
    if n == 1 {
      var insert := Run(Insert(1, identity, content, 0));
      events := [insert, Run(Grant(1, identity.kind.Queue(), worker, 0))];
      assert events[..1] == [insert] && [insert][..0] == [];
      assert After([]).db.rows == map[];
      assert After([insert]).db.rows[1] == NewRow(identity, content, 0);
    } else {
      var before := AttemptExceedsAnyBudget(identity, content, worker, n - 1);
      RunKeepsInv(before);
      var row := After(before).db.rows[1];
      assert RowMatches(row, StoryOf(After(before).log, 1));
      var takeover := Run(Grant(1, identity.kind.Queue(), worker, row.leaseExpiresAt.value + 1));
      events := before + [takeover];
      assert events[..|events| - 1] == before;
    }
  }

  lemma AppendOne(events: seq<Event>, e: Event)
    ensures After(events + [e]) == Next(After(events), e)
  {
    assert (events + [e])[..|events|] == events;
  }

  lemma GrantThenFail(w: World, worker: string)
    requires 1 in w.db.rows && w.db.rows[1] == NewRow(w.db.rows[1].identity, w.db.rows[1].content, 0)
    requires w.db.locks == map[] && w.log == []
    ensures var row := w.db.rows[1];
            var granted := Next(w, Run(Grant(1, row.identity.kind.Queue(), worker, 0)));
            var failed := Next(granted, Run(Finish(Leased(1, row, worker), Failure(Rejected), 0)));
            && 1 in failed.db.rows && failed.db.rows[1].state == DeadLetter && failed.db.locks == map[]
            && failed.db.rows[1].identity == row.identity
            && |failed.log| == 2 && failed.log[0] == Granted(1, Token(worker, 1), false, 0)
  {
  }

  /** One operation, taken once and failed for good. */
  lemma FirstAttemptFails(identity: Identity, content: Content, worker: string) returns (events: seq<Event>)
    ensures var w := After(events);
            && 1 in w.db.rows && w.db.rows[1].state == DeadLetter && w.db.rows[1].identity == identity && w.db.locks == map[]
            && |w.log| == 2 && w.log[0] == Granted(1, Token(worker, 1), false, 0)
    ensures forall e :: e in events ==> !(e.Run? && e.statement.OperatorRetry?)
  {
    var insert := Run(Insert(1, identity, content, 0));
    var grant := Run(Grant(1, identity.kind.Queue(), worker, 0));
    var fail := Run(Finish(Leased(1, NewRow(identity, content, 0), worker), Failure(Rejected), 0));
    AppendOne([], insert);
    assert [] + [insert] == [insert];
    GrantThenFail(After([insert]), worker);
    AppendOne([insert], grant);
    AppendOne([insert] + [grant], fail);
    events := [insert] + [grant] + [fail];
  }

  lemma RetryThenGrant(w: World, worker: string)
    requires 1 in w.db.rows && w.db.rows[1].state == DeadLetter && w.db.locks == map[]
    ensures var retried := Next(w, Run(OperatorRetry(1, 0)));
            var granted := Next(retried, Run(Grant(1, w.db.rows[1].identity.kind.Queue(), worker, 0)));
            && retried.log == w.log + [Retried(1, 0)]
            && granted.log == retried.log + [Granted(1, Token(worker, 1), false, 0)]
  {
  }

  // ---------------------------------------------------------------- enqueueing

  lemma EventKeepsRequest(events: seq<Event>, e: Event, id: Uuid)
    requires id in After(events).db.rows
    ensures id in After(events + [e]).db.rows && SameRequest(After(events).db.rows[id], After(events + [e]).db.rows[id])
  {
    AppendOne(events, e);
    RunKeepsInv(events);
    InvGivesValidTable(After(events));
    if e.Run? {
      ExecuteKeepsTable(After(events).db.rows, e.statement);
    }
  }

  lemma {:induction false} RequestsArePermanent(events: seq<Event>, more: seq<Event>, id: Uuid)
    requires id in After(events).db.rows
    ensures id in After(events + more).db.rows && SameRequest(After(events).db.rows[id], After(events + more).db.rows[id])
    decreases |more|
  {
    if more == [] {
      assert events + more == events;
    } else {
      var next := events + [more[0]];
      EventKeepsRequest(events, more[0], id);
      RequestsArePermanent(next, more[1..], id);
      assert next + more[1..] == events + more;
    }
  }

  /** Repeating an enqueue, however much later, never makes a second operation: the key stays with
      the first one for good. */
  lemma EnqueueIsIdempotent(events: seq<Event>, more: seq<Event>, id: Uuid, newId: Uuid, now: int)
    requires id in After(events).db.rows
    ensures var identity := After(events).db.rows[id].identity;
            var rows := After(events + more).db.rows;
            && Conflicts(rows, identity, id)
            && (forall k :: Conflicts(rows, identity, k) ==> k == id)
            && (forall content :: Insert(newId, identity, content, now).Execute(rows) == rows)
  {
    RequestsArePermanent(events, more, id);
    RunKeepsInv(events + more);
    assert Conflicts(After(events + more).db.rows, After(events).db.rows[id].identity, id);
  }
}
