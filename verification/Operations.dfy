/** The durable operation table: what each SQL statement of the queue does to one row, and the
    store that runs those statements. */
module Operations {
  import opened Domain
  import Backoff

  const LEASE_TIME: int := 60 * SECOND
  const DEFAULT_MAX_ATTEMPTS: nat := 12
  const MAX_INTEGER: int := 0x7fff_ffff

  datatype OpState = Pending | InFlight | AwaitingReconciliation | Succeeded | DeadLetter

  /** The unique key an enqueue conflicts on; an absent requester is a value like any other. */
  datatype Identity = Identity(kind: OperationKind, requestedBy: Option<Uuid>, idempotencyKey: string)

  /** What an enqueue must repeat exactly to be taken for the same request. */
  datatype Content = Content(workshop: Option<Uuid>, targetUser: Option<Uuid>, desiredEpoch: Option<int>, payload: Json)
  {
    /** What retention leaves of it. */
    function Redacted(): Content { this.(payload := REDACTED) }
  }

  const REDACTED: Json := "{\"redacted\":true}"

  datatype Row = Row(
    identity: Identity,
    content: Content,
    state: OpState,
    attempt: nat,
    maxAttempts: nat,
    nextAttemptAt: int,
    leasedBy: Option<string>,
    leaseExpiresAt: Option<int>,
    createdAt: int,
    finishedAt: Option<int>,
    failure: Option<string>,
    checkpoint: Option<Json>)
  {
    /** The table's CHECK constraints: a row is leased exactly while it is in flight. */
    predicate WellFormed() {
      && (state.InFlight? <==> leasedBy.Some?)
      && (state.InFlight? <==> leaseExpiresAt.Some?)
      && 1 <= maxAttempts <= 100
    }

    predicate Due(queue: string, now: int) {
      identity.kind.Queue() == queue &&
      match state
      case Pending | AwaitingReconciliation => nextAttemptAt <= now
      case InFlight => leaseExpiresAt.Some? && leaseExpiresAt.value < now
      case Succeeded | DeadLetter => false
    }

    /** Retention takes finished operations that are old enough, except its own kind. */
    predicate Redactable(cutoff: int) {
      && (state.Succeeded? || state.DeadLetter?)
      && !identity.kind.PrivacyRetention? && !identity.kind.PrivacyDataSubjectRequest?
      && (if finishedAt.Some? then finishedAt.value else createdAt) < cutoff
    }

    /** The guard of every statement a leaseholder runs. */
    predicate HeldBy(token: Token, now: int) {
      && state.InFlight?
      && leasedBy == Some(token.worker)
      && attempt == token.attempt
      && leaseExpiresAt.Some? && leaseExpiresAt.value > now
    }
  }

  datatype Token = Token(worker: string, attempt: nat)

  /** What a worker keeps of a lease it was granted; it may outlive the lease. */
  datatype LeasedOperation = LeasedOperation(
    id: Uuid,
    kind: OperationKind,
    content: Content,
    attempt: nat,
    maxAttempts: nat,
    leasedBy: string,
    reconciling: bool)
  {
    function Claim(): Token { Token(leasedBy, attempt) }
  }

  datatype Outcome = Success | Retry(error: IntegrationError) | Failure(error: IntegrationError) | Unknown

  datatype Verdict = Verdict(state: OpState, failure: Option<string>, delay: int, finished: bool)

  /** Where `finish` sends an operation. */
  function Judge(op: LeasedOperation, outcome: Outcome): (v: Verdict)
    ensures !v.state.InFlight?
    ensures v.finished <==> v.state.Succeeded? || v.state.DeadLetter?
    ensures v.state.Pending? ==> op.attempt < op.maxAttempts
    ensures v.state.Pending? || v.state.AwaitingReconciliation? ==>
              Backoff.RetryDelay(op.attempt) <= v.delay <= Backoff.MAX_PROVIDER_DELAY
  {
    match outcome
    case Success => Verdict(Succeeded, None, 0, true)
    case Unknown =>
      Backoff.RetryDelayMonotone(op.attempt, op.attempt);
      Verdict(AwaitingReconciliation, Some("unknown_outcome"), Backoff.RetryDelay(op.attempt), false)
    case Retry(error) =>
      if op.attempt < op.maxAttempts then
        Backoff.EffectiveDelayBounds(op.attempt, op.attempt, error);
        Verdict(Pending, Some(error.FailureClass()), Backoff.EffectiveRetryDelay(op.attempt, error), false)
      else
        Verdict(DeadLetter, Some(error.FailureClass()), 0, true)
    case Failure(error) => Verdict(DeadLetter, Some(error.FailureClass()), 0, true)
  }

  function NewRow(identity: Identity, content: Content, now: int): Row {
    Row(identity, content, Pending, 0, DEFAULT_MAX_ATTEMPTS, now, None, None, now, None, None, None)
  }

  function GrantRow(row: Row, worker: string, now: int): Row {
    row.(state := InFlight, attempt := row.attempt + 1,
         leasedBy := Some(worker), leaseExpiresAt := Some(now + LEASE_TIME))
  }

  /** An operation taken back from a lost or ambiguous attempt is marked for reconciliation. */
  function Leased(id: Uuid, row: Row, worker: string): LeasedOperation {
    LeasedOperation(id, row.identity.kind, row.content, row.attempt + 1, row.maxAttempts, worker,
                    row.state.InFlight? || row.state.AwaitingReconciliation?)
  }

  function FinishRow(row: Row, v: Verdict, now: int): Row {
    row.(state := v.state, failure := v.failure, nextAttemptAt := now + v.delay * SECOND,
         leasedBy := None, leaseExpiresAt := None,
         finishedAt := if v.finished then Some(now) else None)
  }

  function RetryRow(row: Row, now: int): Row {
    row.(state := Pending, attempt := 0, nextAttemptAt := now, failure := None, finishedAt := None)
  }

  function RedactRow(row: Row): Row {
    row.(content := row.content.Redacted(), checkpoint := None)
  }

  type Table = map<Uuid, Row>

  /** The row an insert of `identity` conflicts with. */
  predicate Conflicts(rows: Table, identity: Identity, id: Uuid) {
    id in rows && rows[id].identity == identity
  }

  ghost predicate UniqueIdentities(rows: Table) {
    forall a, b :: a in rows && b in rows && rows[a].identity == rows[b].identity ==> a == b
  }

  ghost predicate ValidTable(rows: Table) {
    UniqueIdentities(rows) && forall id :: id in rows ==> rows[id].WellFormed()
  }

  /** The statements that write the table. A leaseholder's statement carries the operation it was
      granted; `now` is the start of the statement's own transaction. `OperatorRetry` is the update inside the retry's
      transaction, as it would take effect if that commits. */
  datatype Statement =
    | Insert(id: Uuid, identity: Identity, content: Content, now: int)
    | Grant(id: Uuid, queue: string, worker: string, now: int)
    | Renew(op: LeasedOperation, now: int)
    | Checkpoint(op: LeasedOperation, checkpoint: Json, now: int)
    | Finish(op: LeasedOperation, outcome: Outcome, now: int)
    | OperatorRetry(id: Uuid, now: int)
    | Redact(id: Uuid, cutoff: int)
  {
    function Target(): Uuid {
      if Renew? || Checkpoint? || Finish? then op.id else id
    }

    predicate ByLeaseholder() { Renew? || Checkpoint? || Finish? }

    /** The `where` clause. */
    ghost predicate Applies(rows: Table) {
      if Insert? then
        id !in rows && forall k :: !Conflicts(rows, identity, k)
      else
        Target() in rows && AppliesTo(rows[Target()])
    }

    predicate AppliesTo(row: Row)
      requires !Insert?
    {
      match this
      case Grant(_, queue, _, now) => row.Due(queue, now) && row.attempt < MAX_INTEGER
      case Renew(op, now) => row.HeldBy(op.Claim(), now)
      case Checkpoint(op, _, now) => row.HeldBy(op.Claim(), now) && row.checkpoint.None?
      case Finish(op, _, now) => row.HeldBy(op.Claim(), now)
      case OperatorRetry(_, _) => row.state.DeadLetter?
      case Redact(_, cutoff) => row.Redactable(cutoff)
    }

    /** The `set` clause. */
    function Update(row: Row): Row
      requires !Insert?
    {
      match this
      case Grant(_, _, worker, now) => GrantRow(row, worker, now)
      case Renew(_, now) => row.(leaseExpiresAt := Some(now + LEASE_TIME))
      case Checkpoint(_, checkpoint, _) => row.(checkpoint := Some(checkpoint))
      case Finish(op, outcome, now) => FinishRow(row, Judge(op, outcome), now)
      case OperatorRetry(_, now) => RetryRow(row, now)
      case Redact(_, _) => RedactRow(row)
    }

    ghost function Execute(rows: Table): Table {
      if !Applies(rows) then rows
      else if Insert? then rows[id := NewRow(identity, content, now)]
      else rows[Target() := Update(rows[Target()])]
    }
  }

  /** `after` is the row of the same request: only retention may have emptied its payload. */
  predicate SameRequest(before: Row, after: Row) {
    && after.identity == before.identity && after.maxAttempts == before.maxAttempts
    && (after.content == before.content || after.content == before.content.Redacted())
  }

  /** No statement breaks the table's constraints, drops a row, or rewrites what was requested; only
      retention touches a payload, and only of an operation that has ended. */
  lemma ExecuteKeepsTable(rows: Table, s: Statement)
    requires ValidTable(rows)
    ensures ValidTable(s.Execute(rows))
    ensures forall id :: id in rows ==> id in s.Execute(rows) && SameRequest(rows[id], s.Execute(rows)[id])
    ensures forall id :: id in rows && s.Execute(rows)[id].content != rows[id].content ==>
                           s.Redact? && (rows[id].state.Succeeded? || rows[id].state.DeadLetter?)
  {
    if s.Applies(rows) && s.Insert? {
      forall k | k in rows
        ensures rows[k].identity != s.identity
      {
        assert !Conflicts(rows, s.identity, k);
      }
    }
  }

  datatype LeaseReply = Idle | Leasing(op: LeasedOperation) | AttemptOutOfRange

  /** `order by next_attempt_at, created_at` */
  predicate NoLater(a: Row, b: Row) {
    a.nextAttemptAt < b.nextAttemptAt || (a.nextAttemptAt == b.nextAttemptAt && a.createdAt <= b.createdAt)
  }

  /** The operation table as one PostgreSQL session sees it. Every method is one statement; `now`
      is the start of its transaction and `locked` the rows other transactions hold. */
  class OperationStore {
    var rows: Table
    var scan: seq<Uuid>

    ghost predicate Valid()
      reads this
    {
      && ValidTable(rows)
      && (forall id :: id in rows <==> id in scan)
    }

    constructor ()
      ensures Valid() && rows == map[]
    {
      rows, scan := map[], [];
    }

    /** Insert, or find the row of an identical earlier request; a reused key with other content
        yields no row, which the caller sees as an error. */
    method Enqueue(freshId: Uuid, identity: Identity, content: Content, now: int) returns (id: Option<Uuid>)
      requires Valid() && freshId !in rows
      modifies this
      ensures Valid()
      ensures rows == Insert(freshId, identity, content, now).Execute(old(rows))
      ensures id.Some? ==> id.value in rows && rows[id.value].identity == identity && rows[id.value].content == content
      ensures id.None? <==> exists k :: Conflicts(old(rows), identity, k) && old(rows)[k].content != content
    {
      var i := 0;
      while i < |scan|
        invariant 0 <= i <= |scan|
        invariant rows == old(rows) && scan == old(scan)
        invariant forall k :: 0 <= k < i ==> rows[scan[k]].identity != identity
      {
        if rows[scan[i]].identity == identity {
          assert Conflicts(rows, identity, scan[i]);
          id := if rows[scan[i]].content == content then Some(scan[i]) else None;
          return;
        }
        i := i + 1;
      }
      forall k | k in rows
        ensures rows[k].identity != identity
      {
        assert k in scan;
      }
      rows := rows[freshId := NewRow(identity, content, now)];
      scan := scan + [freshId];
      id := Some(freshId);
    }

    /** Grant the earliest due row that no other transaction holds. */
    method Lease(queue: string, worker: string, now: int, locked: set<Uuid>) returns (reply: LeaseReply)
      requires Valid()
      modifies this
      ensures Valid()
      ensures reply.Idle? <==> forall id :: id in old(rows) && id !in locked ==> !old(rows)[id].Due(queue, now)
      ensures !reply.Leasing? ==> rows == old(rows)
      ensures reply.Leasing? ==>
                var id := reply.op.id;
                && id in old(rows) && id !in locked
                && (forall k :: k in old(rows) && k !in locked && old(rows)[k].Due(queue, now)
                       ==> NoLater(old(rows)[id], old(rows)[k]))
                && reply.op == Leased(id, old(rows)[id], worker)
                && Grant(id, queue, worker, now).Applies(old(rows))
                && rows == Grant(id, queue, worker, now).Execute(old(rows))
    {
      var best: Option<Uuid> := None;
      var i := 0;
      while i < |scan|
        invariant 0 <= i <= |scan|
        invariant rows == old(rows) && scan == old(scan)
        invariant best.Some? ==> best.value in rows && best.value !in locked && rows[best.value].Due(queue, now)
        invariant forall k :: 0 <= k < i && scan[k] !in locked && rows[scan[k]].Due(queue, now) ==>
                                best.Some? && NoLater(rows[best.value], rows[scan[k]])
      {
        var id := scan[i];
        if id !in locked && rows[id].Due(queue, now) && (best.None? || !NoLater(rows[best.value], rows[id])) {
          best := Some(id);
        }
        i := i + 1;
      }
      assert forall id :: id in rows ==> id in scan;
      if best.None? {
        return Idle;
      }
      var row := rows[best.value];
      if row.attempt >= MAX_INTEGER {
        return AttemptOutOfRange;
      }
      rows := rows[best.value := GrantRow(row, worker, now)];
      reply := Leasing(Leased(best.value, row, worker));
    }

    method RenewLease(op: LeasedOperation, now: int) returns (renewed: bool)
      requires Valid()
      modifies this`rows
      ensures Valid()
      ensures renewed <==> Renew(op, now).Applies(old(rows))
      ensures rows == Renew(op, now).Execute(old(rows))
    {
      renewed := op.id in rows && rows[op.id].HeldBy(op.Claim(), now);
      if renewed {
        rows := rows[op.id := rows[op.id].(leaseExpiresAt := Some(now + LEASE_TIME))];
      }
    }

    /** A checkpoint is written once and only under the current lease. */
    method SaveCheckpoint(op: LeasedOperation, checkpoint: Json, now: int) returns (saved: bool)
      requires Valid()
      modifies this`rows
      ensures Valid()
      ensures saved <==> Checkpoint(op, checkpoint, now).Applies(old(rows))
      ensures rows == Checkpoint(op, checkpoint, now).Execute(old(rows))
    {
      saved := op.id in rows && rows[op.id].HeldBy(op.Claim(), now) && rows[op.id].checkpoint.None?;
      if saved {
        rows := rows[op.id := rows[op.id].(checkpoint := Some(checkpoint))];
      }
    }

    method FinishOperation(op: LeasedOperation, outcome: Outcome, now: int) returns (finished: bool)
      requires Valid()
      modifies this`rows
      ensures Valid()
      ensures finished <==> Finish(op, outcome, now).Applies(old(rows))
      ensures rows == Finish(op, outcome, now).Execute(old(rows))
    {
      finished := op.id in rows && rows[op.id].HeldBy(op.Claim(), now);
      if finished {
        rows := rows[op.id := FinishRow(rows[op.id], Judge(op, outcome), now)];
      }
    }

    /** Retention empties the payload and the checkpoint of an operation that has ended long enough ago. */
    method RedactFinished(id: Uuid, cutoff: int) returns (redacted: bool)
      requires Valid()
      modifies this`rows
      ensures Valid()
      ensures redacted <==> Redact(id, cutoff).Applies(old(rows))
      ensures rows == Redact(id, cutoff).Execute(old(rows))
      ensures redacted ==> SameRequest(old(rows)[id], rows[id]) && rows[id].state == old(rows)[id].state
    {
      redacted := id in rows && rows[id].Redactable(cutoff);
      if redacted {
        rows := rows[id := RedactRow(rows[id])];
      }
    }

    /** The update of the operator's retry takes dead letters only. */
    method RetryDeadLetter(id: Uuid, now: int) returns (retried: bool)
      requires Valid()
      modifies this`rows
      ensures Valid()
      ensures retried <==> OperatorRetry(id, now).Applies(old(rows))
      ensures rows == OperatorRetry(id, now).Execute(old(rows))
    {
      retried := id in rows && rows[id].state.DeadLetter?;
      if retried {
        rows := rows[id := RetryRow(rows[id], now)];
      }
    }
  }
}
