/** The statements of the driver on its ledger, and the steps of the whole system they make. */
module DriverStore {
  import opened Domain
  import Q = OperationRuns
  import opened DriverLedger
  import opened EndToEnd

  ghost predicate Sound(s: System) { Q.Inv(s.operations) && Inv(s) }

  lemma StepIsSound(s: System, e: Event)
    requires Sound(s)
    ensures Sound(Next(s, e))
  {
    EventKeepsInv(s, e);
    EventKeepsQueueInv(s, e);
  }

  /** Taking an unused key. */
  lemma NewKey(s: System, r: RequestId)
    requires Inv(s) && r in s.requests && s.requests[r].phase.Validated? && s.requests[r].key !in s.ledger
    ensures var req, t := s.requests[r], Next(s, Insert(r));
            && t.ledger == s.ledger[req.key := LedgerRow(req.digest, InProgress, None, None)]
            && r in t.requests && t.requests[r].phase.Admitted? && Starts(t.effects, req.key) == 0
  {
  }

  lemma Contends(s: System, r: RequestId)
    requires r in s.requests && s.requests[r].phase.Validated? && s.requests[r].key in s.ledger
    ensures Next(s, Insert(r)) == Put(s, r, Contended)
  {
  }

  lemma Reads(s: System, r: RequestId)
    requires r in s.requests && s.requests[r].phase.Contended? && s.requests[r].key in s.ledger
    ensures Next(s, Select(r)) == Put(s, r, Answered(AnswerFrom(s.ledger[s.requests[r].key], s.requests[r].digest)))
  {
  }

  /** Meeting a key that is taken. */
  lemma TakenKey(s: System, r: RequestId)
    requires Inv(s) && r in s.requests && s.requests[r].phase.Validated? && s.requests[r].key in s.ledger
    ensures var req, t := s.requests[r], Next(Next(s, Insert(r)), Select(r));
            && t.ledger == s.ledger && r in t.requests
            && t.requests[r].phase == Answered(AnswerFrom(s.ledger[req.key], req.digest)) && t.effects == s.effects
            && (t.requests[r].phase.reply.Done? ==> Starts(t.effects, req.key) == 1)
  {
    assert KeyOk(s, s.requests[r].key);
    Contends(s, r);
    Reads(Next(s, Insert(r)), r);
  }

  lemma OwnEntry(s: System, r: RequestId)
    requires Inv(s) && r in s.requests && s.requests[r].phase.Owning()
    ensures var key := s.requests[r].key;
            && key in s.ledger && s.ledger[key].state.InProgress? && key in s.owners && s.owners[key] == r
            && (!s.requests[r].phase.AfterStart() ==> Starts(s.effects, key) == 0)
  {
    assert RequestOk(s, r);
    assert KeyOk(s, s.requests[r].key);
  }

  lemma SettleStep(s: System, r: RequestId)
    requires Inv(s) && r in s.requests && s.requests[r].phase.Returned?
    ensures var req, t := s.requests[r], Next(s, Event.Settle(r));
            && req.key in s.ledger && s.ledger[req.key].state.InProgress? && req.key in t.ledger
            && t.ledger == s.ledger[req.key := Settled(s.ledger[req.key], req.phase.outcome)]
            && r in t.requests && t.requests[r].phase == Answered(req.phase.outcome)
            && (req.phase.outcome.Error? && !ClientError(req.phase.outcome.status) ==> Ambiguous(t, req.key))
  {
    OwnEntry(s, r);
  }

  lemma WithdrawStep(s: System, r: RequestId)
    requires Inv(s) && r in s.requests && s.requests[r].phase.Withdrawing?
    ensures var req, t := s.requests[r], Next(s, Event.Withdraw(r));
            && req.key in s.ledger && s.ledger[req.key].state.InProgress?
            && t.ledger == s.ledger[req.key := Withdrawn(s.ledger[req.key])]
            && Starts(t.effects, req.key) == 0
  {
    OwnEntry(s, r);
  }

  /** What the same request is told once an effect has ended: its success, a final rejection, or that nobody knows. */
  function SettledAnswer(outcome: Reply): Reply {
    if outcome.Done? then outcome else Error(if ClientError(outcome.status) then UNPROCESSABLE else UNAVAILABLE)
  }

  /** The ledger table; `system` is the world the driver works in. */
  class LedgerStore {
    var rows: Ledger
    ghost var system: System

    ghost predicate Valid()
      reads this
    {
      rows == system.ledger && Sound(system)
    }

    constructor ()
      ensures Valid() && system == Initial()
    {
      RunKeepsInv([]);
      rows, system := map[], Initial();
    }

    /** Take the key, or answer from whoever took it before. Only a key whose effect was never started is new, and
        a success is answered only with the response of an effect that was started once. */
    method Admit(ghost r: RequestId, key: LedgerKey, digest: string) returns (admission: Admission)
      requires Valid() && r in system.requests && system.requests[r].phase.Validated?
      requires system.requests[r].key == key && system.requests[r].digest == digest
      modifies this
      ensures Valid() && r in system.requests
      ensures system == if admission.New? then Next(old(system), Insert(r))
                        else Next(Next(old(system), Insert(r)), Select(r))
      ensures admission.New? ==> system.requests[r].phase.Admitted? && Starts(system.effects, key) == 0
      ensures admission.Answer? ==> system.requests[r].phase == Answered(admission.reply)
      ensures admission.Answer? && admission.reply.Done? ==> Starts(system.effects, key) == 1
    {
      StepIsSound(system, Insert(r));
      if key !in rows {
        NewKey(system, r);
        rows := rows[key := LedgerRow(digest, InProgress, None, None)];
        system := Next(system, Insert(r));
        return New;
      }
      StepIsSound(Next(system, Insert(r)), Select(r));
      TakenKey(system, r);
      admission := Answer(AnswerFrom(rows[key], digest));
      system := Next(Next(system, Insert(r)), Select(r));
    }

    /** The update of an entry in progress. */
    method Update(key: LedgerKey, state: EntryState, response: Option<Json>, safeError: Option<string>) returns (changed: bool)
      modifies this`rows
      ensures changed <==> key in old(rows) && old(rows)[key].state.InProgress?
      ensures rows == if changed then old(rows)[key := LedgerRow(old(rows)[key].digest, state, response, safeError)] else old(rows)
    {
      changed := key in rows && rows[key].state.InProgress?;
      if changed {
        rows := rows[key := rows[key].(state := state, response := response, safeError := safeError)];
      }
    }

    /** The end of an effect. The entry is still there for its owner, whatever happened meanwhile; from then on a
        success is replayed to the same request, a rejection is final, and any other outcome is ambiguous. */
    method Settle(ghost r: RequestId, key: LedgerKey, outcome: Reply) returns (changed: bool)
      requires Valid() && r in system.requests && system.requests[r].phase == Returned(outcome) && system.requests[r].key == key
      modifies this
      ensures changed && Valid() && r in system.requests && key in rows
      ensures system == Next(old(system), Event.Settle(r))
      ensures system.requests[r].phase == Answered(outcome)
      ensures AnswerFrom(rows[key], rows[key].digest) == SettledAnswer(outcome)
      ensures outcome.Error? && !ClientError(outcome.status) ==> Ambiguous(system, key)
    {
      SettleStep(system, r);
      StepIsSound(system, Event.Settle(r));
      match outcome {
        case Done(value) => changed := Update(key, Succeeded, Some(value), None);
        case Error(status) =>
          if 400 <= status < 500 {
            changed := Update(key, Failed, None, Some("request_rejected"));
          } else {
            changed := Update(key, InProgress, None, Some(OUTCOME_UNKNOWN));
          }
      }
      system := Next(system, Event.Settle(r));
    }

    /** A request whose lease was lost before its effect gives its key up for good, without an effect. */
    method Withdraw(ghost r: RequestId, key: LedgerKey) returns (changed: bool)
      requires Valid() && r in system.requests && system.requests[r].phase.Withdrawing? && system.requests[r].key == key
      modifies this
      ensures changed && Valid() && key in rows
      ensures system == Next(old(system), Event.Withdraw(r))
      ensures AnswerFrom(rows[key], rows[key].digest) == Error(UNPROCESSABLE) && Starts(system.effects, key) == 0
    {
      WithdrawStep(system, r);
      StepIsSound(system, Event.Withdraw(r));
      changed := Update(key, Failed, None, Some("control_operation_lease_lost"));
      system := Next(system, Event.Withdraw(r));
    }
  }
}
