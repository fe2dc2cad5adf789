/** Operation queue, workers and deployment driver together, under crashes of the driver, lost and
    cancelled requests, stalled workers, takeovers and operator retries. */
module EndToEnd {
  import opened Domain
  import Ops = Operations
  import Q = OperationRuns
  import opened DriverLedger

  type RequestId = nat

  /** How far the driver has taken a request. */
  datatype Phase =
    | Received            // authenticated, nothing checked yet
    | Validated           // first lease check passed
    | Contended           // its key was taken; the entry is still to be read
    | Admitted            // its key is its own
    | Guarded             // holds the workshop's resource lock
    | Cleared             // second lease check passed, effect next
    | Withdrawing         // second lease check failed, no effect
    | Running             // the effect is under way
    | Returned(outcome: Reply)
    | Answered(reply: Reply)
    | Lost                // crashed, or dropped by its client
  {
    /** The request owns its ledger entry and has yet to settle it. */
    predicate Owning() { Admitted? || Guarded? || Cleared? || Withdrawing? || Running? || Returned? }

    predicate HoldsLock() { Guarded? || Cleared? || Withdrawing? || Running? || Returned? }

    predicate AfterStart() { Running? || Returned? }
  }

  datatype Request = Request(key: LedgerKey, workshop: Uuid, digest: string, op: Option<Ops.LeasedOperation>,
                             started: bool, phase: Phase)

  /** `position` is where in the operation history an effect was started, or a request passed its last lease
      check. */
  datatype Effect =
    | Started(request: RequestId, key: LedgerKey, position: nat)
    | Fenced(request: RequestId, op: Ops.LeasedOperation, at: int, position: nat)

  datatype System = System(
    operations: Q.World,
    ledger: Ledger,
    owners: map<LedgerKey, RequestId>,
    requests: map<RequestId, Request>,
    guards: map<Uuid, RequestId>,
    effects: seq<Effect>)

  datatype Event =
    | Operation(event: Q.Event)
    | Send(r: RequestId, key: LedgerKey, workshop: Uuid, digest: string, op: Option<Ops.LeasedOperation>)
    | Validate(r: RequestId, now: int)
    | Insert(r: RequestId)
    | Select(r: RequestId)
    | AcquireGuard(r: RequestId)
    | Revalidate(r: RequestId, now: int)
    | Withdraw(r: RequestId)
    | Start(r: RequestId)
    | Return(r: RequestId, outcome: Reply)
    | Settle(r: RequestId)
    | Fault(r: RequestId)
    | Cancel(r: RequestId)
    | Crash

  // ---------------------------------------------------------------- workers

  /** The operation kinds whose handler is one driver request. */
  function DriverAction(kind: OperationKind): Option<string> {
    match kind
    case TenantProvision => Some("provision")
    case TenantReconcile => Some("reconcile")
    case _ => None
  }

  function KeyOf(id: Uuid, kind: OperationKind, workshop: Option<Uuid>): LedgerKey {
    LedgerKey(workshop, if DriverAction(kind).Some? then DriverAction(kind).value else "", OfOperation(id))
  }

  ghost predicate HasSuccessReply(s: System, op: Ops.LeasedOperation) {
    exists r :: r in s.requests && s.requests[r].op == Some(op) && s.requests[r].phase.Answered? &&
                s.requests[r].phase.reply.Done? && s.requests[r].key == KeyOf(op.id, op.kind, op.content.workshop)
  }

  /** A worker reports a driver operation as succeeded only on the driver's success reply. */
  ghost predicate WorkerMay(s: System, e: Q.Event) {
    e.Run? && e.statement.Finish? && e.statement.outcome.Success? && DriverAction(e.statement.op.kind).Some? ==>
      HasSuccessReply(s, e.statement.op)
  }

  // ---------------------------------------------------------------- the driver

  /** The driver's own check that a lease is current; the scheduler's requests carry none. */
  predicate LeaseCurrent(rows: Ops.Table, req: Request, now: int) {
    req.op.Some? ==>
      var op := req.op.value;
      op.id in rows && rows[op.id].content.workshop == Some(req.workshop) && rows[op.id].HeldBy(op.Claim(), now)
  }

  function Put(s: System, r: RequestId, phase: Phase): System
    requires r in s.requests
  {
    s.(requests := s.requests[r := s.requests[r].(phase := phase)])
  }

  function Release(s: System, r: RequestId): System {
    s.(guards := map w | w in s.guards && s.guards[w] != r :: s.guards[w])
  }

  /** One step of request `r`, when its phase allows it. */
  ghost function Serve(s: System, e: Event): System
    requires !e.Operation? && !e.Send? && !e.Crash? && e.r in s.requests
  {
    var r := e.r;
    var req := s.requests[r];
    match e
    case Validate(_, now) =>
      if !req.phase.Received? then s
      else if LeaseCurrent(s.operations.db.rows, req, now) then Put(s, r, Validated)
      else Put(s, r, Answered(Error(UNAVAILABLE)))
    case Insert(_) =>
      if !req.phase.Validated? then s
      else if req.key in s.ledger then Put(s, r, Contended)
      else Put(s.(ledger := s.ledger[req.key := LedgerRow(req.digest, InProgress, None, None)],
                  owners := s.owners[req.key := r]), r, Admitted)
    case Select(_) =>
      if req.phase.Contended? && req.key in s.ledger then
        Put(s, r, Answered(AnswerFrom(s.ledger[req.key], req.digest)))
      else s
    case AcquireGuard(_) =>
      if req.phase.Admitted? && req.workshop !in s.guards then
        Put(s.(guards := s.guards[req.workshop := r]), r, Guarded)
      else s
    case Revalidate(_, now) =>
      if !req.phase.Guarded? then s
      else if !LeaseCurrent(s.operations.db.rows, req, now) then Put(s, r, Withdrawing)
      else Put(s.(effects := if req.op.Some?
                             then s.effects + [Fenced(r, req.op.value, now, |s.operations.log|)] else s.effects),
               r, Cleared)
    case Withdraw(_) =>
      if req.phase.Withdrawing? && req.key in s.ledger && s.ledger[req.key].state.InProgress? then
        Release(Put(s.(ledger := s.ledger[req.key := Withdrawn(s.ledger[req.key])]), r, Answered(Error(UNAVAILABLE))), r)
      else s
    case Start(_) =>
      if req.phase.Cleared? then
        s.(requests := s.requests[r := req.(phase := Running, started := true)],
           effects := s.effects + [Started(r, req.key, |s.operations.log|)])
      else s
    case Return(_, outcome) => if req.phase.Running? then Put(s, r, Returned(outcome)) else s
    case Settle(_) =>
      if req.phase.Returned? && req.key in s.ledger && s.ledger[req.key].state.InProgress? then
        Release(Put(s.(ledger := s.ledger[req.key := DriverLedger.Settled(s.ledger[req.key], req.phase.outcome)]), r,
                    Answered(req.phase.outcome)), r)
      else s
    case Fault(_) =>
      if req.phase.Answered? || req.phase.Lost? then s else Release(Put(s, r, Answered(Error(UNAVAILABLE))), r)
    case Cancel(_) =>
      if req.phase.Answered? || req.phase.Lost? then s else Release(Put(s, r, Lost), r)
  }

  function CrashAll(requests: map<RequestId, Request>): map<RequestId, Request> {
    map r | r in requests ::
      if requests[r].phase.Answered? then requests[r] else requests[r].(phase := Lost)
  }

  ghost function Next(s: System, e: Event): System {
    match e
    case Operation(event) => if WorkerMay(s, event) then s.(operations := Q.Next(s.operations, event)) else s
    case Send(r, key, workshop, digest, op) =>
      if r !in s.requests && key.workshop == Some(workshop) && (op.Some? ==> op.value in s.operations.db.issued) then
        s.(requests := s.requests[r := Request(key, workshop, digest, op, false, Received)])
      else s
    case Crash => s.(requests := CrashAll(s.requests), guards := map[])
    case _ => if e.r in s.requests then Serve(s, e) else s
  }

  ghost function Run(s: System, events: seq<Event>): System {
    if events == [] then s else Next(Run(s, events[..|events| - 1]), events[|events| - 1])
  }

  function Initial(): System {
    System(Q.World(Q.Database(map[], map[], {}), []), map[], map[], map[], map[], [])
  }

  function Starts(effects: seq<Effect>, key: LedgerKey): nat {
    if effects == [] then 0
    else
      var last := effects[|effects| - 1];
      Starts(effects[..|effects| - 1], key) + (if last.Started? && last.key == key then 1 else 0)
  }

  // ---------------------------------------------------------------- the invariant

  ghost predicate PassedFence(s: System, r: RequestId, op: Ops.LeasedOperation) {
    exists f :: f in s.effects && f.Fenced? && f.request == r && f.op == op
  }

  ghost predicate RequestOk(s: System, r: RequestId)
    requires r in s.requests
  {
    var req := s.requests[r];
    && req.key.workshop == Some(req.workshop)
    && (req.phase.Owning() || req.started ==> req.key in s.owners && s.owners[req.key] == r)
    && (req.phase.Owning() ==> req.key in s.ledger && s.ledger[req.key].state.InProgress?)
    && (req.phase.Owning() ==> (req.started <==> req.phase.AfterStart()))
    && (req.phase.HoldsLock() ==> req.workshop in s.guards && s.guards[req.workshop] == r)
    && (req.phase.Contended? ==> req.key in s.ledger)
    && ((req.phase.Cleared? || req.started) && req.op.Some? ==> PassedFence(s, r, req.op.value))
    && (req.phase.Answered? && req.phase.reply.Done? ==>
          req.key in s.ledger && s.ledger[req.key].response == Some(req.phase.reply.value))
  }

  ghost predicate KeyOk(s: System, key: LedgerKey)
    requires key in s.ledger
  {
    && s.ledger[key].WellFormed()
    && key in s.owners && s.owners[key] in s.requests && s.requests[s.owners[key]].key == key
    && (s.ledger[key].state.Succeeded? ==> s.requests[s.owners[key]].started)
    && Starts(s.effects, key) == (if s.requests[s.owners[key]].started then 1 else 0)
  }

  ghost predicate FenceOk(s: System, f: Effect) {
    f.Fenced? ==>
      && f.position <= |s.operations.log|
      && Q.Authority(s.operations.log[..f.position], f.op.id) == Some(f.op.Claim())
      && f.at < Q.Deadline(s.operations.log[..f.position], f.op.id)
  }

  ghost predicate OperationOk(s: System, id: Uuid)
    requires id in s.operations.db.rows
  {
    var row := s.operations.db.rows[id];
    row.state.Succeeded? && DriverAction(row.identity.kind).Some? ==>
      var key := KeyOf(id, row.identity.kind, row.content.workshop);
      key in s.ledger && s.ledger[key].state.Succeeded?
  }

  ghost predicate RequestsOk(s: System) { forall r :: r in s.requests ==> RequestOk(s, r) }

  ghost predicate KeysOk(s: System) { forall key :: key in s.ledger ==> KeyOk(s, key) }

  ghost predicate UnusedKeysOk(s: System) { forall key :: key !in s.ledger ==> Starts(s.effects, key) == 0 }

  ghost predicate FencesOk(s: System) { forall f :: f in s.effects ==> FenceOk(s, f) }

  ghost predicate OperationsOk(s: System) { forall id :: id in s.operations.db.rows ==> OperationOk(s, id) }

  ghost predicate Inv(s: System) {
    s.owners.Keys == s.ledger.Keys && RequestsOk(s) && KeysOk(s) && UnusedKeysOk(s) && FencesOk(s) && OperationsOk(s)
  }

  lemma StartsGrow(effects: seq<Effect>, f: Effect, key: LedgerKey)
    ensures Starts(effects + [f], key) == Starts(effects, key) + (if f.Started? && f.key == key then 1 else 0)
  {
    assert (effects + [f])[..|effects|] == effects;
  }

  // ---------------------------------------------------------------- driver steps

  /** `t` differs from `s` only in request `r` and the ledger entry and lock that belong to it. */
  ghost predicate Local(s: System, t: System, r: RequestId)
    requires r in s.requests
  {
    var key := s.requests[r].key;
    && t.operations == s.operations
    && t.requests.Keys == s.requests.Keys
    && (forall q :: q in s.requests && q != r ==> t.requests[q] == s.requests[q])
    && t.requests[r].key == key
    && t.owners.Keys == t.ledger.Keys
    && (forall k :: k in s.ledger ==> k in t.ledger && k in s.owners && k in t.owners && t.owners[k] == s.owners[k])
    && (forall k :: k in t.ledger ==> k in s.ledger || k == key)
    && (forall k :: k in s.ledger && (k != key || s.owners[k] != r || !s.ledger[k].state.InProgress?) ==>
          t.ledger[k] == s.ledger[k])
    && (forall w :: w in s.guards && s.guards[w] != r ==> w in t.guards && t.guards[w] == s.guards[w])
    && (forall k :: k != key ==> Starts(t.effects, k) == Starts(s.effects, k))
    && (forall f :: f in s.effects ==> f in t.effects)
  }

  lemma OtherRequestsStayOk(s: System, t: System, r: RequestId, q: RequestId)
    requires Inv(s) && r in s.requests && Local(s, t, r) && q in s.requests && q != r
    ensures RequestOk(t, q)
  {
    assert RequestOk(s, q);
    var k := s.requests[q].key;
    if k in s.ledger {
      assert KeyOk(s, k);
    }
  }

  lemma OtherKeysStayOk(s: System, t: System, r: RequestId, k: LedgerKey)
    requires Inv(s) && r in s.requests && Local(s, t, r) && k in t.ledger && k != s.requests[r].key
    ensures KeyOk(t, k)
  {
    assert KeyOk(s, k);
  }

  lemma OperationsStayOk(s: System, t: System, r: RequestId, id: Uuid)
    requires Inv(s) && r in s.requests && Local(s, t, r) && id in t.operations.db.rows
    ensures OperationOk(t, id)
  {
    assert OperationOk(s, id);
  }

  lemma LocalStepKeepsInv(s: System, t: System, r: RequestId)
    requires Inv(s) && r in s.requests && Local(s, t, r)
    requires RequestOk(t, r)
    requires var key := s.requests[r].key;
             if key in t.ledger then KeyOk(t, key) else Starts(t.effects, key) == 0
    requires FencesOk(t)
    ensures Inv(t)
  {
    forall q | q in t.requests
      ensures RequestOk(t, q)
    {
      if q != r {
        OtherRequestsStayOk(s, t, r, q);
      }
    }
    forall k | k in t.ledger
      ensures KeyOk(t, k)
    {
      if k != s.requests[r].key {
        OtherKeysStayOk(s, t, r, k);
      }
    }
    forall id | id in t.operations.db.rows
      ensures OperationOk(t, id)
    {
      OperationsStayOk(s, t, r, id);
    }
  }

  lemma FencesStand(s: System, t: System)
    requires FencesOk(s) && t.operations == s.operations && t.effects == s.effects
    ensures FencesOk(t)
  {
    forall f | f in t.effects
      ensures FenceOk(t, f)
    {
      assert FenceOk(s, f);
    }
  }

  lemma OperationsStand(s: System, t: System)
    requires OperationsOk(s) && t.operations == s.operations && t.ledger == s.ledger
    ensures OperationsOk(t)
  {
    forall id | id in t.operations.db.rows
      ensures OperationOk(t, id)
    {
      assert OperationOk(s, id);
    }
  }

  lemma FenceHolds(s: System, t: System, r: RequestId, now: int)
    requires Q.Inv(s.operations) && Inv(s) && r in s.requests && s.requests[r].op.Some?
    requires LeaseCurrent(s.operations.db.rows, s.requests[r], now)
    requires t.operations == s.operations
    requires t.effects == s.effects + [Fenced(r, s.requests[r].op.value, now, |s.operations.log|)]
    ensures FencesOk(t)
    ensures forall k :: Starts(t.effects, k) == Starts(s.effects, k)
  {
    var log, id := s.operations.log, s.requests[r].op.value.id;
    var fence := Fenced(r, s.requests[r].op.value, now, |log|);
    forall k
      ensures Starts(t.effects, k) == Starts(s.effects, k)
    {
      StartsGrow(s.effects, fence, k);
    }
    assert log[..|log|] == log;
    assert Q.RowMatches(s.operations.db.rows[id], Q.StoryOf(log, id));
    forall f | f in t.effects
      ensures FenceOk(t, f)
    {
      assert f in s.effects ==> FenceOk(s, f);
    }
  }

  /** Passing the second lease check, and recording it when there is a lease. */
  lemma ClearingKeepsInv(s: System, t: System, r: RequestId, now: int)
    requires Q.Inv(s.operations) && Inv(s) && r in s.requests && s.requests[r].phase.Guarded?
    requires LeaseCurrent(s.operations.db.rows, s.requests[r], now)
    requires t == Put(s, r, Cleared).(effects := t.effects)
    requires t.effects == s.effects + (if s.requests[r].op.Some?
                                       then [Fenced(r, s.requests[r].op.value, now, |s.operations.log|)] else [])
    ensures Inv(t)
  {
    var req := s.requests[r];
    assert RequestOk(s, r);
    assert KeyOk(s, req.key);
    if req.op.Some? {
      FenceHolds(s, t, r, now);
      assert Fenced(r, req.op.value, now, |s.operations.log|) in t.effects;
    } else {
      FencesStand(s, t);
    }
    ClearingIsLocal(s, t, r);
    LocalStepKeepsInv(s, t, r);
  }

  lemma ClearingIsLocal(s: System, t: System, r: RequestId)
    requires s.owners.Keys == s.ledger.Keys && r in s.requests
    requires t == Put(s, r, Cleared).(effects := t.effects) && s.effects <= t.effects
    requires forall k :: Starts(t.effects, k) == Starts(s.effects, k)
    ensures Local(s, t, r)
  {
    assert forall f :: f in s.effects ==> f in t.effects;
  }

  lemma RevalidateKeepsInv(s: System, r: RequestId, now: int)
    requires Q.Inv(s.operations) && Inv(s) && r in s.requests
    ensures Inv(Serve(s, Revalidate(r, now)))
  {
    var t, req := Serve(s, Revalidate(r, now)), s.requests[r];
    if req.phase.Guarded? {
      if LeaseCurrent(s.operations.db.rows, req, now) {
        ClearingKeepsInv(s, t, r, now);
      } else {
        assert RequestOk(s, r);
        MoveKeepsInv(s, t, r, Withdrawing);
      }
    }
  }

  lemma StartKeepsInv(s: System, r: RequestId)
    requires Inv(s) && r in s.requests
    ensures Inv(Serve(s, Start(r)))
  {
    var t, req := Serve(s, Start(r)), s.requests[r];
    assert RequestOk(s, r);
    if req.phase.Cleared? {
      assert KeyOk(s, req.key);
      forall k
        ensures Starts(t.effects, k) == Starts(s.effects, k) + (if k == req.key then 1 else 0)
      {
        StartsGrow(s.effects, Started(r, req.key, |s.operations.log|), k);
      }
      forall f | f in t.effects
        ensures FenceOk(t, f)
      {
        assert f in s.effects ==> FenceOk(s, f);
      }
      LocalStepKeepsInv(s, t, r);
    }
  }

  lemma InsertKeepsInv(s: System, r: RequestId)
    requires Inv(s) && r in s.requests
    ensures Inv(Serve(s, Insert(r)))
  {
    var t, req := Serve(s, Insert(r)), s.requests[r];
    if req.phase.Validated? {
      if req.key in s.ledger {
        MoveKeepsInv(s, t, r, Contended);
      } else {
        TakingKeepsInv(s, t, r);
      }
    }
  }

  /** Writing the first entry of a key. */
  lemma TakingKeepsInv(s: System, t: System, r: RequestId)
    requires Inv(s) && r in s.requests && s.requests[r].phase.Validated? && s.requests[r].key !in s.ledger
    requires var req := s.requests[r];
             t == Put(s.(ledger := s.ledger[req.key := LedgerRow(req.digest, InProgress, None, None)],
                         owners := s.owners[req.key := r]), r, Admitted)
    ensures Inv(t)
  {
    assert RequestOk(s, r);
    TakingIsLocal(s, t, r);
    FencesStand(s, t);
    LocalStepKeepsInv(s, t, r);
  }

  lemma TakingIsLocal(s: System, t: System, r: RequestId)
    requires s.owners.Keys == s.ledger.Keys && r in s.requests && s.requests[r].key !in s.ledger
    requires var req := s.requests[r];
             t == Put(s.(ledger := s.ledger[req.key := LedgerRow(req.digest, InProgress, None, None)],
                         owners := s.owners[req.key := r]), r, Admitted)
    ensures Local(s, t, r)
  {
  }

  ghost predicate OtherGuardsKept(s: System, t: System, r: RequestId) {
    forall w :: w in s.guards && s.guards[w] != r ==> w in t.guards && t.guards[w] == s.guards[w]
  }

  lemma ClosingIsLocal(s: System, t: System, r: RequestId, row: LedgerRow, reply: Reply)
    requires s.owners.Keys == s.ledger.Keys && r in s.requests && RequestOk(s, r) && s.requests[r].phase.Owning()
    requires s.requests[r].key in s.ledger
    requires t == Put(s.(ledger := s.ledger[s.requests[r].key := row]), r, Answered(reply)).(guards := t.guards)
    requires OtherGuardsKept(s, t, r)
    ensures Local(s, t, r)
  {
  }

  /** Settling an entry in progress, by the request that owns it. */
  lemma CloseKeepsInv(s: System, t: System, r: RequestId, row: LedgerRow, reply: Reply)
    requires Inv(s) && r in s.requests && s.requests[r].phase.Owning() && s.requests[r].key in s.ledger
    requires t == Put(s.(ledger := s.ledger[s.requests[r].key := row]), r, Answered(reply)).(guards := t.guards)
    requires OtherGuardsKept(s, t, r)
    requires row.WellFormed() && (row.state.Succeeded? ==> s.requests[r].phase.AfterStart())
    requires reply.Done? ==> row.response == Some(reply.value)
    ensures Inv(t)
  {
    assert RequestOk(s, r);
    assert KeyOk(s, s.requests[r].key);
    FencesStand(s, t);
    ClosingIsLocal(s, t, r, row, reply);
    LocalStepKeepsInv(s, t, r);
  }

  /** `t` moves request `r` on to `phase` without touching the ledger. */
  ghost predicate Moves(s: System, t: System, r: RequestId, phase: Phase)
    requires r in s.requests
  {
    var req := s.requests[r];
    && t == Put(s, r, phase).(guards := t.guards)
    && OtherGuardsKept(s, t, r)
    && (phase.Owning() ==> req.phase.Owning() && (phase.AfterStart() <==> req.phase.AfterStart()))
    && (phase.HoldsLock() ==> req.workshop in t.guards && t.guards[req.workshop] == r)
    && !phase.Cleared? && (phase.Contended? ==> req.key in s.ledger)
    && (phase.Answered? && phase.reply.Done? ==>
          req.key in s.ledger && s.ledger[req.key].response == Some(phase.reply.value))
  }

  lemma MoveIsLocal(s: System, t: System, r: RequestId, phase: Phase)
    requires s.owners.Keys == s.ledger.Keys && r in s.requests && Moves(s, t, r, phase)
    ensures Local(s, t, r)
  {
  }

  lemma MoveKeepsRequest(s: System, t: System, r: RequestId, phase: Phase)
    requires r in s.requests && RequestOk(s, r) && Moves(s, t, r, phase)
    ensures RequestOk(t, r)
  {
  }

  lemma MoveKeepsInv(s: System, t: System, r: RequestId, phase: Phase)
    requires Inv(s) && r in s.requests && Moves(s, t, r, phase)
    ensures Inv(t)
  {
    assert RequestOk(s, r);
    MoveKeepsRequest(s, t, r, phase);
    MoveIsLocal(s, t, r, phase);
    if s.requests[r].key in s.ledger {
      assert KeyOk(s, s.requests[r].key);
    }
    FencesStand(s, t);
    LocalStepKeepsInv(s, t, r);
  }

  /** The steps that leave the ledger alone. */
  predicate Passage(e: Event) { e.Validate? || e.Select? || e.AcquireGuard? || e.Return? || e.Fault? || e.Cancel? }

  lemma PassageMoves(s: System, e: Event)
    requires Passage(e) && e.r in s.requests && RequestOk(s, e.r)
    ensures Serve(s, e) == s || (e.r in Serve(s, e).requests && Moves(s, Serve(s, e), e.r, Serve(s, e).requests[e.r].phase))
  {
  }

  lemma PassageKeepsInv(s: System, e: Event)
    requires Inv(s) && Passage(e) && e.r in s.requests
    ensures Inv(Serve(s, e))
  {
    var t := Serve(s, e);
    assert RequestOk(s, e.r);
    PassageMoves(s, e);
    if t != s {
      MoveKeepsInv(s, t, e.r, t.requests[e.r].phase);
    }
  }

  lemma ClosingKeepsInv(s: System, e: Event)
    requires Inv(s) && (e.Withdraw? || e.Settle?) && e.r in s.requests
    ensures Inv(Serve(s, e))
  {
    var t, r, req := Serve(s, e), e.r, s.requests[e.r];
    assert RequestOk(s, r);
    if t != s {
      if e.Withdraw? {
        CloseKeepsInv(s, t, r, Withdrawn(s.ledger[req.key]), Error(UNAVAILABLE));
      } else {
        CloseKeepsInv(s, t, r, Settled(s.ledger[req.key], req.phase.outcome), req.phase.outcome);
      }
    }
  }

  lemma ServeKeepsInv(s: System, e: Event)
    requires Q.Inv(s.operations) && Inv(s) && !e.Operation? && !e.Send? && !e.Crash? && e.r in s.requests
    ensures Inv(Serve(s, e))
  {
    if e.Insert? {
      InsertKeepsInv(s, e.r);
    } else if e.Revalidate? {
      RevalidateKeepsInv(s, e.r, e.now);
    } else if e.Start? {
      StartKeepsInv(s, e.r);
    } else if e.Withdraw? || e.Settle? {
      ClosingKeepsInv(s, e);
    } else {
      PassageKeepsInv(s, e);
    }
  }

  // ---------------------------------------------------------------- what no step changes

  ghost predicate SameIdentity(s: System, t: System, r: RequestId) {
    && r in s.requests && r in t.requests
    && t.requests[r].key == s.requests[r].key && t.requests[r].op == s.requests[r].op
  }

  lemma PassageKeepsIdentity(s: System, e: Event, r: RequestId)
    requires Passage(e) && e.r in s.requests && r in s.requests
    ensures SameIdentity(s, Serve(s, e), r)
  {
  }

  lemma OtherServiceKeepsIdentity(s: System, e: Event, r: RequestId)
    requires e.Insert? || e.Revalidate? || e.Start? || e.Withdraw? || e.Settle?
    requires e.r in s.requests && r in s.requests
    ensures SameIdentity(s, Serve(s, e), r)
  {
  }

  lemma ServiceKeepsQueue(s: System, e: Event)
    requires !e.Operation?
    ensures Next(s, e).operations == s.operations
  {
  }

  lemma ServeKeepsEffects(s: System, e: Event, f: Effect)
    requires !e.Operation? && !e.Send? && !e.Crash? && e.r in s.requests && f in s.effects
    ensures f in Serve(s, e).effects
  {
  }

  /** Requests keep their key and lease for good, and histories are never forgotten. */
  lemma RequestsPersist(s: System, e: Event, r: RequestId)
    requires r in s.requests
    ensures SameIdentity(s, Next(s, e), r) && |s.operations.log| <= |Next(s, e).operations.log|
  {
    if !e.Operation? {
      ServiceKeepsQueue(s, e);
      if !e.Send? && !e.Crash? && e.r in s.requests {
        if Passage(e) {
          PassageKeepsIdentity(s, e, r);
        } else {
          OtherServiceKeepsIdentity(s, e, r);
        }
      }
    }
  }

  lemma EffectsPersist(s: System, e: Event, f: Effect)
    requires f in s.effects
    ensures f in Next(s, e).effects
  {
    if !e.Operation? && !e.Send? && !e.Crash? && e.r in s.requests {
      ServeKeepsEffects(s, e, f);
    }
  }

  // ---------------------------------------------------------------- everything else

  /** `t` is `s` with a request just received. */
  ghost predicate Receives(s: System, t: System, r: RequestId, req: Request) {
    && r !in s.requests && t == s.(requests := s.requests[r := req])
    && req.phase.Received? && !req.started && req.key.workshop == Some(req.workshop)
  }

  lemma ReceivingKeepsRequest(s: System, t: System, r: RequestId, req: Request, q: RequestId)
    requires Receives(s, t, r, req) && q in t.requests && (q in s.requests ==> RequestOk(s, q))
    ensures RequestOk(t, q)
  {
  }

  lemma ReceivingKeepsKey(s: System, t: System, r: RequestId, req: Request, key: LedgerKey)
    requires Receives(s, t, r, req) && key in s.ledger && KeyOk(s, key)
    ensures KeyOk(t, key)
  {
  }

  lemma ReceivingKeepsInv(s: System, t: System, r: RequestId, req: Request)
    requires Inv(s) && Receives(s, t, r, req)
    ensures Inv(t)
  {
    forall q | q in t.requests
      ensures RequestOk(t, q)
    {
      ReceivingKeepsRequest(s, t, r, req, q);
    }
    forall key | key in t.ledger
      ensures KeyOk(t, key)
    {
      ReceivingKeepsKey(s, t, r, req, key);
    }
    FencesStand(s, t);
    OperationsStand(s, t);
  }

  lemma SendKeepsInv(s: System, e: Event)
    requires Inv(s) && e.Send?
    ensures Inv(Next(s, e))
  {
    if Next(s, e) != s {
      ReceivingKeepsInv(s, Next(s, e), e.r, Request(e.key, e.workshop, e.digest, e.op, false, Received));
    }
  }

  lemma CrashKeepsRequest(s: System, q: RequestId)
    requires q in s.requests && RequestOk(s, q)
    ensures RequestOk(Next(s, Crash), q)
  {
  }

  lemma CrashKeepsKey(s: System, key: LedgerKey)
    requires key in s.ledger && KeyOk(s, key)
    ensures KeyOk(Next(s, Crash), key)
  {
  }

  lemma CrashKeepsInv(s: System)
    requires Inv(s)
    ensures Inv(Next(s, Crash))
  {
    var t := Next(s, Crash);
    forall q | q in t.requests
      ensures RequestOk(t, q)
    {
      CrashKeepsRequest(s, q);
    }
    forall key | key in t.ledger
      ensures KeyOk(t, key)
    {
      CrashKeepsKey(s, key);
    }
    FencesStand(s, t);
    OperationsStand(s, t);
  }

  /** A statement leaves an operation succeeded only if it was so before, or if it finishes it with success. */
  lemma SucceedsOnlyByFinish(rows: Ops.Table, st: Ops.Statement, id: Uuid)
    requires id in st.Execute(rows) && st.Execute(rows)[id].state.Succeeded?
    ensures id in rows
    ensures st.Execute(rows)[id].identity == rows[id].identity && st.Execute(rows)[id].content.workshop == rows[id].content.workshop
    ensures rows[id].state.Succeeded? || (st.Finish? && st.outcome.Success? && st.op.id == id && st.Applies(rows))
  {
  }

  /** A success reply that a worker got stands in the ledger. */
  lemma ReplyIsBacked(s: System, op: Ops.LeasedOperation)
    requires Inv(s) && HasSuccessReply(s, op)
    ensures var key := KeyOf(op.id, op.kind, op.content.workshop);
            key in s.ledger && s.ledger[key].state.Succeeded?
  {
    var r :| r in s.requests && s.requests[r].op == Some(op) && s.requests[r].phase.Answered? &&
             s.requests[r].phase.reply.Done? && s.requests[r].key == KeyOf(op.id, op.kind, op.content.workshop);
    assert RequestOk(s, r);
    assert KeyOk(s, s.requests[r].key);
  }

  /** An operation becomes succeeded only through a driver reply that the ledger still backs. */
  lemma SuccessIsBacked(s: System, e: Q.Event, id: Uuid)
    requires Q.Inv(s.operations) && Inv(s) && WorkerMay(s, e)
    requires id in Q.Next(s.operations, e).db.rows
    ensures OperationOk(s.(operations := Q.Next(s.operations, e)), id)
  {
    var rows := s.operations.db.rows;
    if e.Run? && Q.Enabled(s.operations.db, e) && e.statement.Execute(rows)[id].state.Succeeded? {
      SucceedsOnlyByFinish(rows, e.statement, id);
      assert OperationOk(s, id);
      if !rows[id].state.Succeeded? && DriverAction(rows[id].identity.kind).Some? {
        assert Q.Describes(e.statement.op, rows[id]);
        ReplyIsBacked(s, e.statement.op);
      }
    } else if id in rows {
      assert OperationOk(s, id);
    }
  }

  lemma OperationKeepsInv(s: System, e: Q.Event)
    requires Q.Inv(s.operations) && Inv(s)
    ensures Inv(Next(s, Operation(e)))
  {
    var t := Next(s, Operation(e));
    if WorkerMay(s, e) {
      forall q | q in t.requests
        ensures RequestOk(t, q)
      {
        assert RequestOk(s, q);
      }
      forall key | key in t.ledger
        ensures KeyOk(t, key)
      {
        assert KeyOk(s, key);
      }
      forall f | f in t.effects
        ensures FenceOk(t, f)
      {
        assert FenceOk(s, f);
        assert f.Fenced? ==> t.operations.log[..f.position] == s.operations.log[..f.position];
      }
      forall id | id in t.operations.db.rows
        ensures OperationOk(t, id)
      {
        SuccessIsBacked(s, e, id);
      }
    }
  }

  lemma EventKeepsQueueInv(s: System, e: Event)
    requires Q.Inv(s.operations)
    ensures Q.Inv(Next(s, e).operations)
  {
    if e.Operation? {
      if e.event.Run? {
        Q.StatementKeepsInv(s.operations, e.event.statement);
      } else {
        Q.LockingKeepsInv(s.operations, e.event);
      }
    } else {
      assert Next(s, e).operations == s.operations;
    }
  }

  lemma EventKeepsInv(s: System, e: Event)
    requires Q.Inv(s.operations) && Inv(s)
    ensures Inv(Next(s, e))
  {
    if e.Operation? {
      OperationKeepsInv(s, e.event);
    } else if e.Send? {
      SendKeepsInv(s, e);
    } else if e.Crash? {
      CrashKeepsInv(s);
    } else if e.r in s.requests {
      ServeKeepsInv(s, e);
    }
  }

  lemma {:induction false} RunKeepsInv(events: seq<Event>)
    ensures Q.Inv(Run(Initial(), events).operations) && Inv(Run(Initial(), events))
  {
    if events == [] {
      Q.RunKeepsInv([]);
      assert Initial().operations == Q.After([]);
    } else {
      var before := events[..|events| - 1];
      RunKeepsInv(before);
      EventKeepsInv(Run(Initial(), before), events[|events| - 1]);
      EventKeepsQueueInv(Run(Initial(), before), events[|events| - 1]);
    }
  }

  // ---------------------------------------------------------------- what the protocol guarantees

  /** In every run the effect of a key is started at most once, and never without an entry to show
      for it. */
  lemma EffectStartsAtMostOnce(events: seq<Event>, key: LedgerKey)
    ensures var s := Run(Initial(), events);
            Starts(s.effects, key) <= 1 && (Starts(s.effects, key) == 1 ==> key in s.ledger)
  {
    RunKeepsInv(events);
    var s := Run(Initial(), events);
    if key in s.ledger {
      assert KeyOk(s, key);
    }
  }

  /** All success replies for one key carry the one response the ledger keeps, whoever asked and
      however often. */
  lemma SuccessRepliesAgree(events: seq<Event>, q: RequestId, r: RequestId)
    requires var s := Run(Initial(), events);
             && q in s.requests && r in s.requests && s.requests[q].key == s.requests[r].key
             && s.requests[q].phase.Answered? && s.requests[q].phase.reply.Done?
             && s.requests[r].phase.Answered? && s.requests[r].phase.reply.Done?
    ensures var s := Run(Initial(), events);
            && s.requests[q].phase.reply == s.requests[r].phase.reply
            && s.requests[r].key in s.ledger
            && s.ledger[s.requests[r].key].response == Some(s.requests[r].phase.reply.value)
            && Starts(s.effects, s.requests[r].key) == 1
  {
    RunKeepsInv(events);
    var s := Run(Initial(), events);
    assert RequestOk(s, q) && RequestOk(s, r);
    assert KeyOk(s, s.requests[r].key);
  }

  /** An operation that the queue calls succeeded had its effect started exactly once, over all its
      attempts, generations and takeovers, and that effect reported success. */
  lemma SucceededOperationRanExactlyOnce(events: seq<Event>, id: Uuid)
    requires var rows := Run(Initial(), events).operations.db.rows;
             id in rows && rows[id].state.Succeeded? && DriverAction(rows[id].identity.kind).Some?
    ensures var s := Run(Initial(), events);
            var row := s.operations.db.rows[id];
            var key := KeyOf(id, row.identity.kind, row.content.workshop);
            Starts(s.effects, key) == 1 && key in s.ledger && s.ledger[key].state.Succeeded?
  {
    RunKeepsInv(events);
    var s := Run(Initial(), events);
    assert OperationOk(s, id);
    var key := KeyOf(id, s.operations.db.rows[id].identity.kind, s.operations.db.rows[id].content.workshop);
    assert KeyOk(s, key);
  }

  /** The driver runs one effect per workshop at a time. */
  lemma EffectsExcludeEachOther(events: seq<Event>, q: RequestId, r: RequestId)
    requires var s := Run(Initial(), events);
             && q in s.requests && r in s.requests && s.requests[q].workshop == s.requests[r].workshop
             && s.requests[q].phase.Running? && s.requests[r].phase.Running?
    ensures q == r
  {
    RunKeepsInv(events);
    var s := Run(Initial(), events);
    assert RequestOk(s, q) && RequestOk(s, r);
  }

  /** The request that owned `key` is gone and left the entry in progress: it crashed, was dropped,
      or reported an outcome nobody can vouch for. */
  ghost predicate Ambiguous(s: System, key: LedgerKey) {
    && key in s.ledger && key in s.owners && s.owners[key] in s.requests
    && s.ledger[key].state.InProgress?
    && (s.requests[s.owners[key]].phase.Answered? || s.requests[s.owners[key]].phase.Lost?)
  }

  lemma RunKeepsRequestsOk(events: seq<Event>)
    ensures RequestsOk(Run(Initial(), events))
  {
    RunKeepsInv(events);
  }

  lemma AmbiguityOutlivesService(s: System, e: Event, key: LedgerKey)
    requires !e.Operation? && !e.Send? && !e.Crash? && e.r in s.requests
    requires RequestOk(s, e.r) && Ambiguous(s, key)
    ensures Ambiguous(Serve(s, e), key)
  {
  }

  lemma AmbiguityStartsNothing(s: System, e: Event, key: LedgerKey)
    requires !e.Operation? && !e.Send? && !e.Crash? && e.r in s.requests
    requires RequestOk(s, e.r) && Ambiguous(s, key)
    ensures Starts(Serve(s, e).effects, key) == Starts(s.effects, key)
  {
    var req := s.requests[e.r];
    if e.Start? {
      StartsGrow(s.effects, Started(e.r, req.key, |s.operations.log|), key);
    } else if e.Revalidate? && req.op.Some? {
      StartsGrow(s.effects, Fenced(e.r, req.op.value, e.now, |s.operations.log|), key);
    } else {
      assert Serve(s, e).effects == s.effects;
    }
  }

  lemma AmbiguityOutlivesOthers(s: System, e: Event, key: LedgerKey)
    requires (e.Operation? || e.Send? || e.Crash?) && Ambiguous(s, key)
    ensures Ambiguous(Next(s, e), key) && Next(s, e).effects == s.effects
  {
  }

  lemma AmbiguityOutlivesEvent(s: System, e: Event, key: LedgerKey)
    requires RequestsOk(s) && Ambiguous(s, key)
    ensures Ambiguous(Next(s, e), key) && Starts(Next(s, e).effects, key) == Starts(s.effects, key)
  {
    if e.Operation? || e.Send? || e.Crash? {
      AmbiguityOutlivesOthers(s, e, key);
    } else if e.r in s.requests {
      AmbiguityOutlivesService(s, e, key);
      AmbiguityStartsNothing(s, e, key);
    }
  }

  lemma {:induction false} AmbiguityLasts(events: seq<Event>, more: seq<Event>, key: LedgerKey)
    requires Ambiguous(Run(Initial(), events), key)
    ensures Ambiguous(Run(Initial(), events + more), key)
    ensures Starts(Run(Initial(), events + more).effects, key) == Starts(Run(Initial(), events).effects, key)
    decreases |more|
  {
    if more == [] {
      assert events + more == events;
    } else {
      var rest := more[..|more| - 1];
      AmbiguityLasts(events, rest, key);
      assert (events + more)[..|events + more| - 1] == events + rest;
      RunKeepsRequestsOk(events + rest);
      AmbiguityOutlivesEvent(Run(Initial(), events + rest), more[|more| - 1], key);
    }
  }

  /** An ambiguous ending is never papered over: from then on no request starts the effect again, none
      is admitted to the key, and none is told that it succeeded. */
  lemma AmbiguityIsForever(events: seq<Event>, more: seq<Event>, key: LedgerKey, r: RequestId)
    requires Ambiguous(Run(Initial(), events), key)
    ensures var s, t := Run(Initial(), events), Run(Initial(), events + more);
            && Starts(t.effects, key) == Starts(s.effects, key)
            && (r in t.requests && t.requests[r].key == key ==>
                  !t.requests[r].phase.Owning() && !(t.requests[r].phase.Answered? && t.requests[r].phase.reply.Done?))
  {
    AmbiguityLasts(events, more, key);
    RunKeepsInv(events + more);
    var t := Run(Initial(), events + more);
    assert r in t.requests ==> RequestOk(t, r);
    assert KeyOk(t, key);
  }
}
