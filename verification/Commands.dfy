/** Command admission: one row per idempotency key, what a request meets there, and how it ends. */
module Commands {
  import opened Domain

  datatype CommandKey = CommandKey(actor: Uuid, scope: string, kind: string, idempotencyKey: string)

  /** `digest` stands for the SHA-256 of the canonical request. */
  datatype Command = Command(key: CommandKey, digest: string, expectedVersion: Option<int>)

  datatype CommandState = Admitted | Completed

  datatype CommandRow = CommandRow(
    id: Uuid,
    digest: string,
    expectedVersion: Option<int>,
    state: CommandState,
    operationId: Option<Uuid>,
    responseStatus: Option<int>,
    responseBody: Option<Json>,
    resultRef: Option<string>)

  datatype CommandResult = CommandResult(operationId: Option<Uuid>, status: nat, body: Option<Json>, resultRef: Option<string>)
  {
    /** The table's CHECK constraints: a plausible HTTP status, and not both a body and a reference. */
    predicate Storable() { 100 <= status <= 599 && (body.None? || resultRef.None?) }
  }

  datatype Admission =
    | New(id: Uuid)
    | Replay(id: Uuid, result: CommandResult)
    | InProgress(id: Uuid, operationId: Option<Uuid>)
    | InvalidKey
    | PayloadMismatch

  predicate KeyChar(c: char) {
    'a' <= c <= 'z' || 'A' <= c <= 'Z' || '0' <= c <= '9' || c in {'.', '_', ':', '/', '-'}
  }

  predicate ValidIdempotencyKey(value: string) {
    1 <= |value| <= 255 && forall c :: c in value ==> KeyChar(c)
  }

  function Fresh(id: Uuid, command: Command): CommandRow {
    CommandRow(id, command.digest, command.expectedVersion, Admitted, None, None, None, None)
  }

  /** The stored status, or 500 should it be missing or no u16. */
  function StatusOf(row: CommandRow): nat {
    match row.responseStatus
    case Some(status) => if 0 <= status < 0x1_0000 then status else 500
    case None => 500
  }

  /** The row was admitted for the same request. */
  predicate SameRequest(row: CommandRow, command: Command) {
    row.digest == command.digest && row.expectedVersion == command.expectedVersion
  }

  /** What an existing row answers. */
  function AnswerFrom(row: CommandRow, command: Command): Admission {
    if !SameRequest(row, command) then PayloadMismatch
    else if row.state.Completed? then
      Replay(row.id, CommandResult(row.operationId, StatusOf(row), row.responseBody, row.resultRef))
    else InProgress(row.id, row.operationId)
  }

  function Complete(row: CommandRow, result: CommandResult): CommandRow {
    row.(state := Completed, operationId := result.operationId, responseStatus := Some(result.status),
         responseBody := result.body, resultRef := result.resultRef)
  }

  /** Completing and then asking again gives back exactly what was stored. */
  lemma ReplayRoundTrip(row: CommandRow, command: Command, result: CommandResult)
    requires SameRequest(row, command) && result.Storable()
    ensures AnswerFrom(Complete(row, result), command) == Replay(row.id, result)
  {
  }
}
