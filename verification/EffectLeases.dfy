/** Under which lease the driver starts an effect: the lease it checked, or one that has passed on since. */
module EffectLeases {
  import opened Domain
  import Ops = Operations
  import Q = OperationRuns
  import opened Fencing
  import opened DriverLedger
  import opened EndToEnd

  // ---------------------------------------------------------------- where effects start

  /** `check` is the lease check that request passed before the effect `start`. */
  ghost predicate CheckedBy(s: System, start: Effect, check: Effect)
    requires start.Started? && start.request in s.requests
  {
    && check in s.effects && check.Fenced? && check.request == start.request
    && s.requests[start.request].op == Some(check.op) && check.position <= start.position
  }

  ghost predicate Placed(s: System, f: Effect) {
    f.Started? ==>
      && f.request in s.requests && s.requests[f.request].key == f.key && f.position <= |s.operations.log|
      && (s.requests[f.request].op.Some? ==> exists check :: CheckedBy(s, f, check))
  }

  lemma OldEffectStaysPlaced(s: System, e: Event, f: Effect)
    requires f in s.effects && Placed(s, f)
    ensures Placed(Next(s, e), f)
  {
    if f.Started? {
      RequestsPersist(s, e, f.request);
      if s.requests[f.request].op.Some? {
        var check :| CheckedBy(s, f, check);
        EffectsPersist(s, e, check);
        assert CheckedBy(Next(s, e), f, check);
      }
    }
  }

  lemma NewEffectIsPlaced(s: System, e: Event, f: Effect)
    requires Inv(s) && f in Next(s, e).effects && f !in s.effects
    ensures Placed(Next(s, e), f)
  {
    if f.Started? {
      assert e.Start? && f.request == e.r && f == Started(e.r, s.requests[e.r].key, |s.operations.log|);
      assert RequestOk(s, e.r);
      if s.requests[e.r].op.Some? {
        var check :| check in s.effects && check.Fenced? && check.request == e.r && check.op == s.requests[e.r].op.value;
        assert FenceOk(s, check);
        assert CheckedBy(Next(s, e), f, check);
      }
    }
  }

  lemma {:induction false} EffectsArePlaced(events: seq<Event>)
    ensures forall f :: f in Run(Initial(), events).effects ==> Placed(Run(Initial(), events), f)
  {
    if events != [] {
      var before, e := Run(Initial(), events[..|events| - 1]), events[|events| - 1];
      EffectsArePlaced(events[..|events| - 1]);
      EndToEnd.RunKeepsInv(events[..|events| - 1]);
      forall f | f in Next(before, e).effects
        ensures Placed(Next(before, e), f)
      {
        if f in before.effects {
          OldEffectStaysPlaced(before, e, f);
        } else {
          NewEffectIsPlaced(before, e, f);
        }
      }
    }
  }

  lemma {:induction false} SystemRunsAreLawful(events: seq<Event>)
    ensures Lawful(Run(Initial(), events).operations.log)
  {
    if events != [] {
      var s, e := Run(Initial(), events[..|events| - 1]), events[|events| - 1];
      SystemRunsAreLawful(events[..|events| - 1]);
      EndToEnd.RunKeepsInv(events[..|events| - 1]);
      if e.Operation? {
        LawfulGrows(s.operations, e.event);
      } else {
        ServiceKeepsQueue(s, e);
      }
    }
  }

  // ---------------------------------------------------------------- the exact condition

  /** Every effect started under a lease was preceded by a check at which that lease was the latest grant and
      had not run out. */
  lemma StartedEffectsWereFenced(events: seq<Event>, start: Effect) returns (check: Effect, g: nat)
    requires var s := Run(Initial(), events);
             start in s.effects && start.Started? && start.request in s.requests && s.requests[start.request].op.Some?
    ensures var s := Run(Initial(), events);
            && CheckedBy(s, start, check) && start.position <= |s.operations.log|
            && LatestGrant(s.operations.log[..check.position], check.op.id, check.op.Claim(), g)
            && check.at < Q.Deadline(s.operations.log[..check.position], check.op.id)
  {
    EffectsArePlaced(events);
    EndToEnd.RunKeepsInv(events);
    var s := Run(Initial(), events);
    assert Placed(s, start);
    check :| CheckedBy(s, start, check);
    assert FenceOk(s, check);
    AuthorityIsLatestGrant(s.operations.log[..check.position], check.op.id, check.op.Claim());
    g :| LatestGrant(s.operations.log[..check.position], check.op.id, check.op.Claim(), g);
  }

  ghost predicate Unmoved(log: Q.Log, id: Uuid, from: nat, to: nat)
    requires to <= |log|
  {
    forall k :: from <= k < to ==> !log[k].Moves(id)
  }

  ghost predicate Unretried(log: Q.Log, id: Uuid, from: nat, to: nat)
    requires to <= |log|
  {
    forall k :: from <= k < to ==> !(log[k].Retried? && log[k].id == id)
  }

  /** Between two points of a history a grant stays the latest exactly if nothing moves the operation. */
  lemma LatestIffUnmoved(log: Q.Log, id: Uuid, token: Ops.Token, g: nat, from: nat, to: nat)
    requires from <= to <= |log| && LatestGrant(log[..from], id, token, g)
    ensures LatestGrant(log[..to], id, token, g) <==> Unmoved(log, id, from, to)
  {
    if LatestGrant(log[..to], id, token, g) {
      forall k | from <= k < to
        ensures !log[k].Moves(id)
      {
        assert log[..to][k] == log[k];
      }
    } else if Unmoved(log, id, from, to) {
      forall k | g < k < to
        ensures !log[..to][k].Moves(id)
      {
        assert k < from ==> log[..from][k] == log[..to][k];
      }
    }
  }

  lemma NotRegained(log: Q.Log, g: nat, from: nat, to: nat, r: nat, n: nat)
    requires g < from <= to <= |log| && log[g].Granted?
    requires LatestGrant(log[..from], log[g].id, log[g].token, g) && Unretried(log, log[g].id, from, to)
    ensures !Regained(log, g, to, r, n)
  {
    if g < r < from {
      assert log[..from][r] == log[r];
    }
  }

  lemma MovedLosesAuthority(log: Q.Log, g: nat, from: nat, to: nat, lost: nat)
    requires Lawful(log) && g < from <= lost < to <= |log| && log[g].Granted?
    requires LatestGrant(log[..from], log[g].id, log[g].token, g) && Unretried(log, log[g].id, from, to)
    requires log[lost].Moves(log[g].id)
    ensures Q.Authority(log[..to], log[g].id) != Some(log[g].token)
  {
    LostTokenNeedsNewGeneration(log, g, lost, to);
    forall r, n
      ensures !Regained(log, g, to, r, n)
    {
      NotRegained(log, g, from, to, r, n);
    }
  }

  /** Unless an operator retry intervenes, the token is authoritative at the second point exactly then. */
  lemma AuthorityIffUnmoved(log: Q.Log, id: Uuid, token: Ops.Token, g: nat, from: nat, to: nat)
    requires Lawful(log) && from <= to <= |log| && LatestGrant(log[..from], id, token, g)
    ensures Unmoved(log, id, from, to) ==> Q.Authority(log[..to], id) == Some(token)
    ensures Unretried(log, id, from, to) ==> (Q.Authority(log[..to], id) == Some(token) <==> Unmoved(log, id, from, to))
  {
    if Unmoved(log, id, from, to) {
      LatestIffUnmoved(log, id, token, g, from, to);
      AuthorityIsLatestGrant(log[..to], id, token);
    } else if Unretried(log, id, from, to) {
      var lost :| from <= lost < to && log[lost].Moves(id);
      assert log[..from][g] == log[g];
      MovedLosesAuthority(log, g, from, to, lost);
    }
  }

  /** In every run an effect starts under the very lease its request was checked with exactly if nothing moved the
      operation between the check and the start; and, unless an operator retry took effect in between, exactly then
      its token is still authoritative. */
  lemma EffectStartsUnderItsLeaseIff(events: seq<Event>, start: Effect, check: Effect, g: nat)
    requires var s := Run(Initial(), events);
             && start in s.effects && start.Started? && start.request in s.requests && CheckedBy(s, start, check)
             && start.position <= |s.operations.log|
             && LatestGrant(s.operations.log[..check.position], check.op.id, check.op.Claim(), g)
    ensures var log, id, token := Run(Initial(), events).operations.log, check.op.id, check.op.Claim();
            var still := Unmoved(log, id, check.position, start.position);
            && (LatestGrant(log[..start.position], id, token, g) <==> still)
            && (still ==> Q.Authority(log[..start.position], id) == Some(token))
            && (Unretried(log, id, check.position, start.position) ==>
                  (Q.Authority(log[..start.position], id) == Some(token) <==> still))
  {
    SystemRunsAreLawful(events);
    var log := Run(Initial(), events).operations.log;
    LatestIffUnmoved(log, check.op.id, check.op.Claim(), g, check.position, start.position);
    AuthorityIffUnmoved(log, check.op.id, check.op.Claim(), g, check.position, start.position);
  }

  // ---------------------------------------------------------------- in time means under the lease

  predicate InOrder(a: Q.Entry, b: Q.Entry) { a.Ended? || b.Ended? || a.at <= b.at }

  /** One clock for all sessions: what was written later carries no earlier time. */
  ghost predicate OneClock(log: Q.Log) {
    forall a, b :: 0 <= a < b < |log| ==> InOrder(log[a], log[b])
  }

  ghost predicate WrittenBy(log: Q.Log, from: nat, to: nat, now: int)
    requires to <= |log|
  {
    forall k :: from <= k < to ==> log[k].Ended? || log[k].at <= now
  }

  ghost predicate Unfinished(log: Q.Log, id: Uuid, from: nat, to: nat)
    requires to <= |log|
  {
    forall k :: from <= k < to ==> !(log[k].Finished? && log[k].id == id)
  }

  /** With one clock a lease in force was given, or renewed, no later than anything that follows. */
  lemma {:induction false} DeadlineIsRecent(log: Q.Log, id: Uuid, j: nat, k: nat)
    requires OneClock(log) && j <= k < |log| && !log[k].Ended? && Q.Authority(log[..j], id).Some?
    ensures Q.Deadline(log[..j], id) <= log[k].at + Ops.LEASE_TIME
    decreases j
  {
    assert j > 0;
    StoryAt(log, j, id);
    assert InOrder(log[j - 1], log[k]);
    if !((log[j - 1].Granted? || log[j - 1].Extended?) && log[j - 1].id == id) {
      DeadlineIsRecent(log, id, j - 1, k);
    }
  }

  /** Until the deadline that was read at one point nothing but its holder's own finish moves the operation, and
      the deadline only moves away. */
  lemma {:induction false} UnmovedUntilDeadline(log: Q.Log, id: Uuid, from: nat, until: nat, now: int)
    requires Lawful(log) && OneClock(log) && from <= until <= |log| && Q.Authority(log[..from], id).Some?
    requires Unfinished(log, id, from, until) && WrittenBy(log, from, until, now) && now <= Q.Deadline(log[..from], id)
    ensures Unmoved(log, id, from, until) && Q.Authority(log[..until], id) == Q.Authority(log[..from], id)
    ensures Q.Deadline(log[..from], id) <= Q.Deadline(log[..until], id)
    decreases until
  {
    if from < until {
      var k := until - 1;
      UnmovedUntilDeadline(log, id, from, k, now);
      StoryAt(log, until, id);
      assert Justified(log[..k], log[k]);
      if !log[k].Ended? {
        DeadlineIsRecent(log, id, k, k);
      }
    }
  }

  /** With one clock an effect that starts by the deadline its check has read, and before its worker has finished
      the operation, starts under its lease: the takeover that could come between waits for that deadline. */
  lemma EffectStartsInTime(events: seq<Event>, start: Effect, check: Effect, now: int)
    requires var s := Run(Initial(), events);
             && start in s.effects && start.Started? && start.request in s.requests && CheckedBy(s, start, check)
             && start.position <= |s.operations.log|
    requires var log := Run(Initial(), events).operations.log;
             && OneClock(log) && WrittenBy(log, check.position, start.position, now)
             && Unfinished(log, check.op.id, check.position, start.position)
             && now <= Q.Deadline(log[..check.position], check.op.id)
    ensures var log, id := Run(Initial(), events).operations.log, check.op.id;
            && Unmoved(log, id, check.position, start.position)
            && Q.Authority(log[..start.position], id) == Some(check.op.Claim())
            && now <= Q.Deadline(log[..start.position], id)
  {
    SystemRunsAreLawful(events);
    EndToEnd.RunKeepsInv(events);
    var s := Run(Initial(), events);
    assert FenceOk(s, check);
    UnmovedUntilDeadline(s.operations.log, check.op.id, check.position, start.position, now);
  }

  // ---------------------------------------------------------------- when the lease has passed on

  /** The check and the start are two steps: a request that passed the check still starts its effect after
      another worker has taken the operation over. The ledger, not the lease, keeps that effect single. */
  lemma ClearedRequestStartsAfterTakeover(s: System, r: RequestId, worker: string, now: int)
    requires r in s.requests && s.requests[r].phase.Cleared? && s.requests[r].op.Some?
    requires var id, rows := s.requests[r].op.value.id, s.operations.db.rows;
             && id in rows && rows[id].state.InFlight? && rows[id].leaseExpiresAt.Some? && rows[id].leaseExpiresAt.value < now
             && id !in s.operations.db.locks && s.requests[r].op.value.attempt <= rows[id].attempt < Ops.MAX_INTEGER
    ensures var op, row := s.requests[r].op.value, s.operations.db.rows[s.requests[r].op.value.id];
            var taken := Next(s, Operation(Q.Run(Ops.Grant(op.id, row.identity.kind.Queue(), worker, now))));
            var t := Next(taken, Start(r));
            && t.requests[r].phase.Running? && Starts(t.effects, t.requests[r].key) == Starts(s.effects, t.requests[r].key) + 1
            && Q.Authority(t.operations.log, op.id) == Some(Ops.Token(worker, row.attempt + 1)) != Some(op.Claim())
  {
    var op := s.requests[r].op.value;
    var row := s.operations.db.rows[op.id];
    var grant := Q.Run(Ops.Grant(op.id, row.identity.kind.Queue(), worker, now));
    assert Q.Enabled(s.operations.db, grant);
    Q.StoryGrows(s.operations.log, Q.Record(s.operations.db, grant)[0], op.id);
    var taken := Next(s, Operation(grant));
    StartsGrow(s.effects, Started(r, s.requests[r].key, |taken.operations.log|), s.requests[r].key);
  }

  lemma RunOne(events: seq<Event>, e: Event)
    ensures Run(Initial(), events + [e]) == Next(Run(Initial(), events), e)
  {
    assert (events + [e])[..|events|] == events;
  }

  /** One provisioning operation, granted to one worker at time 0, and nothing else. */
  ghost predicate FreshlyGranted(s: System, op: Ops.LeasedOperation) {
    && op in s.operations.db.issued && op.id in s.operations.db.rows && s.operations.db.locks == map[]
    && s.operations.db.rows[op.id].HeldBy(op.Claim(), 1) && op.attempt == 1
    && s.operations.db.rows[op.id].leaseExpiresAt == Some(Ops.LEASE_TIME)
    && op.content.workshop.Some? && s.operations.db.rows[op.id].content == op.content
    && s.requests == map[] && s.ledger == map[] && s.guards == map[]
  }

  lemma InsertThenGrant(identity: Ops.Identity, content: Ops.Content, worker: string)
    requires content.workshop.Some?
    ensures var inserted := Next(Initial(), Operation(Q.Run(Ops.Insert(1, identity, content, 0))));
            var granted := Next(inserted, Operation(Q.Run(Ops.Grant(1, identity.kind.Queue(), worker, 0))));
            FreshlyGranted(granted, Ops.Leased(1, Ops.NewRow(identity, content, 0), worker))
  {
    var inserted := Next(Initial(), Operation(Q.Run(Ops.Insert(1, identity, content, 0))));
    assert inserted.operations.db == Q.Database(map[1 := Ops.NewRow(identity, content, 0)], map[], {});
  }

  lemma GrantOne(identity: Ops.Identity, content: Ops.Content, worker: string)
    returns (events: seq<Event>, op: Ops.LeasedOperation)
    requires content.workshop.Some?
    ensures FreshlyGranted(Run(Initial(), events), op)
  {
    var insert := Operation(Q.Run(Ops.Insert(1, identity, content, 0)));
    var grant := Operation(Q.Run(Ops.Grant(1, identity.kind.Queue(), worker, 0)));
    InsertThenGrant(identity, content, worker);
    RunOne([], insert);
    assert [] + [insert] == [insert];
    RunOne([insert], grant);
    events, op := [insert] + [grant], Ops.Leased(1, Ops.NewRow(identity, content, 0), worker);
  }

  /** The way of an undisturbed request up to its second lease check. */
  lemma ClearOne(s: System, op: Ops.LeasedOperation, key: LedgerKey, digest: string)
    requires FreshlyGranted(s, op) && key.workshop == op.content.workshop
    ensures var sent := Next(s, Send(0, key, op.content.workshop.value, digest, Some(op)));
            var inserted := Next(Next(sent, Validate(0, 1)), Insert(0));
            var t := Next(Next(inserted, AcquireGuard(0)), Revalidate(0, 1));
            && t.operations == s.operations && 0 in t.requests && t.requests[0].phase.Cleared? && t.requests[0].op == Some(op)
  {
    var sent := Next(s, Send(0, key, op.content.workshop.value, digest, Some(op)));
    assert sent.requests[0].phase.Received?;
    var validated := Next(sent, Validate(0, 1));
    assert validated.requests[0].phase.Validated?;
    var inserted := Next(validated, Insert(0));
    assert inserted.requests[0].phase.Admitted?;
    var guarded := Next(inserted, AcquireGuard(0));
    assert guarded.requests[0].phase.Guarded?;
  }

  lemma ClearRun(before: seq<Event>, op: Ops.LeasedOperation, key: LedgerKey) returns (events: seq<Event>)
    requires FreshlyGranted(Run(Initial(), before), op) && key.workshop == op.content.workshop
    ensures var s, t := Run(Initial(), before), Run(Initial(), events);
            && t.operations == s.operations && 0 in t.requests && t.requests[0].phase.Cleared? && t.requests[0].op == Some(op)
  {
    ClearOne(Run(Initial(), before), op, key, "");
    events := before + [Send(0, key, op.content.workshop.value, "", Some(op))];
    RunOne(before, Send(0, key, op.content.workshop.value, "", Some(op)));
    RunOne(events, Validate(0, 1));
    events := events + [Validate(0, 1)];
    RunOne(events, Insert(0));
    events := events + [Insert(0)];
    RunOne(events, AcquireGuard(0));
    events := events + [AcquireGuard(0)];
    RunOne(events, Revalidate(0, 1));
    events := events + [Revalidate(0, 1)];
  }

  /** And such runs exist: whatever is asked for, an effect may be started by a request whose lease has passed to
      another worker. */
  lemma EffectMayStartAfterTakeover(identity: Ops.Identity, content: Ops.Content, first: string, second: string)
    returns (events: seq<Event>, op: Ops.LeasedOperation)
    requires content.workshop.Some? && DriverAction(identity.kind).Some?
    ensures var t := Run(Initial(), events);
            && 0 in t.requests && t.requests[0].op == Some(op) && t.requests[0].phase.Running?
            && Starts(t.effects, t.requests[0].key) == 1
            && Q.Authority(t.operations.log, op.id) == Some(Ops.Token(second, 2)) != Some(op.Claim())
  {
    events, op := GrantOne(identity, content, first);
    events := ClearRun(events, op, KeyOf(op.id, op.kind, op.content.workshop));
    var cleared, now := Run(Initial(), events), Ops.LEASE_TIME + 1;
    ClearedRequestStartsAfterTakeover(cleared, 0, second, now);
    var queue := cleared.operations.db.rows[op.id].identity.kind.Queue();
    var takeover := Operation(Q.Run(Ops.Grant(op.id, queue, second, now)));
    RunOne(events, takeover);
    RunOne(events + [takeover], Start(0));
    events := events + [takeover] + [Start(0)];
    EffectStartsAtMostOnce(events, cleared.requests[0].key);
  }
}
