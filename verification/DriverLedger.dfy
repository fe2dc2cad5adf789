/** The deployment driver's idempotency ledger. */
module DriverLedger {
  import opened Domain

  /** The requests of a lease are keyed by its operation; other callers choose their own key. */
  datatype IdempotencyKey = OfOperation(operation: Uuid) | Named(text: string)

  /** A tenant action is scoped by its workshop, a fleet release by none. */
  datatype LedgerKey = LedgerKey(workshop: Option<Uuid>, action: string, idempotencyKey: IdempotencyKey)

  datatype EntryState = InProgress | Succeeded | Failed

  datatype LedgerRow = LedgerRow(digest: string, state: EntryState, response: Option<Json>, safeError: Option<string>)
  {
    /** CHECK: a response is kept for successes only. */
    predicate WellFormed() { state.Succeeded? <==> response.Some? }
  }

  type Ledger = map<LedgerKey, LedgerRow>

  const CONFLICT: nat := 409
  const UNPROCESSABLE: nat := 422
  const UNAVAILABLE: nat := 503
  const OUTCOME_UNKNOWN := "runtime_outcome_unknown"

  datatype Reply = Done(value: Json) | Error(status: nat)

  predicate ClientError(status: nat) { 400 <= status < 500 }

  /** What a request meets when its key is already taken. */
  function AnswerFrom(row: LedgerRow, digest: string): Reply {
    if row.digest != digest then Error(CONFLICT)
    else
      match row.state
      case Succeeded => (match row.response
                         case Some(value) => Done(value)
                         case None => Error(UNAVAILABLE))
      case InProgress => Error(if row.safeError == Some(OUTCOME_UNKNOWN) then UNAVAILABLE else CONFLICT)
      case Failed => Error(UNPROCESSABLE)
  }

  /** How the ledger remembers the reply of an effect. A reply that is neither a success nor a plain
      rejection may hide an effect that happened, so the entry stays in progress. */
  function Settled(row: LedgerRow, reply: Reply): LedgerRow {
    match reply
    case Done(value) => row.(state := Succeeded, response := Some(value), safeError := None)
    case Error(status) =>
      if ClientError(status) then row.(state := Failed, response := None, safeError := Some("request_rejected"))
      else row.(state := InProgress, response := None, safeError := Some(OUTCOME_UNKNOWN))
  }

  /** An admitted request whose operation lease was lost before any effect. */
  function Withdrawn(row: LedgerRow): LedgerRow {
    row.(state := Failed, response := None, safeError := Some("control_operation_lease_lost"))
  }

  datatype Admission = New | Answer(reply: Reply)
}
