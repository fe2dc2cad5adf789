/** What a worker makes of a handler's result: terminal compensation and the reported outcome. */
module WorkerOutcome {
  import opened Domain
  import opened Operations

  /** A handler result; `None` is success. */
  type Result = Option<IntegrationError>

  function OutcomeOf(result: Result): Outcome {
    match result
    case None => Success
    case Some(UnknownOutcome) => Unknown
    case Some(error) => if error.Retryable() then Retry(error) else Failure(error)
  }

  /** Where the queue puts the operation when the worker reports `result`. */
  function EndState(op: LeasedOperation, result: Result): OpState {
    Judge(op, OutcomeOf(result)).state
  }

  predicate FailureIsTerminal(error: IntegrationError, attempt: int, maxAttempts: int) {
    !error.UnknownOutcome? && (!error.Retryable() || attempt >= maxAttempts)
  }

  predicate GivesUp(error: IntegrationError, attempt: int, maxAttempts: int) {
    !error.Retryable() || attempt >= maxAttempts
  }

  /** Kinds that undo or record something when they are given up. */
  predicate HasCompensation(kind: OperationKind) {
    kind in {TenantLifecycle, OdooReleaseAdopt, WebshopOnboardingReconcile, WebshopDomainReconcile,
             WebshopEmailDomainReconcile, ModuleEnable}
  }

  /** The part of a worker's turn between the handler and `finish`. `cleanup` is what the kind's own
      compensation returns when it is called. */
  method Conclude(op: LeasedOperation, queue: string, moduleKey: bool, handled: Result, cleanup: Result)
    returns (result: Result, compensated: bool)
    ensures compensated ==> op.kind.ContractValid(queue, op.content.workshop) && handled.Some? && HasCompensation(op.kind)
    ensures !op.kind.ContractValid(queue, op.content.workshop) ==> EndState(op, result).DeadLetter?
    // no dead letter without an attempt to compensate, which at worst found the contract drifted
    ensures op.kind.ContractValid(queue, op.content.workshop) && HasCompensation(op.kind) &&
            (op.kind.ModuleEnable? ==> moduleKey) && EndState(op, result).DeadLetter? ==>
              compensated && (cleanup.None? || cleanup == Some(ContractDrift))
    // a compensation that fails otherwise leaves the operation to reconciliation
    ensures compensated && cleanup.Some? && cleanup != Some(ContractDrift) ==> EndState(op, result) == AwaitingReconciliation
    ensures compensated && cleanup == Some(ContractDrift) ==> EndState(op, result) == DeadLetter
    // otherwise the handler's own result is reported
    ensures op.kind.ContractValid(queue, op.content.workshop) && (!compensated || cleanup.None?) ==> result == handled
    ensures op.kind.ContractValid(queue, op.content.workshop) && handled.Some? ==>
              (compensated <==> Compensates(op, moduleKey, handled.value))
  {
    var contractValid := op.kind.ContractValid(queue, op.content.workshop);
    result := if contractValid then handled else Some(ContractDrift);
    compensated := false;
    var cleanupError: Result := None;
    if contractValid && op.kind.TenantLifecycle? && result.Some? && GivesUp(result.value, op.attempt, op.maxAttempts)
       && op.content.workshop.Some? {
      compensated, cleanupError := true, cleanup;
    }
    if contractValid && op.kind.OdooReleaseAdopt? && result.Some?
       && FailureIsTerminal(result.value, op.attempt, op.maxAttempts) {
      compensated, cleanupError := true, cleanup;
    }
    if contractValid && op.kind.WebshopOnboardingReconcile? && result.Some?
       && GivesUp(result.value, op.attempt, op.maxAttempts) {
      compensated, cleanupError := true, cleanup;
    }
    if contractValid && op.kind.WebshopDomainReconcile? && result.Some?
       && FailureIsTerminal(result.value, op.attempt, op.maxAttempts) && op.content.workshop.Some? {
      compensated, cleanupError := true, cleanup;
    }
    if contractValid && op.kind.WebshopEmailDomainReconcile? && result.Some?
       && GivesUp(result.value, op.attempt, op.maxAttempts) {
      compensated, cleanupError := true, cleanup;
    }
    if contractValid && op.kind.ModuleEnable? && result.Some? && GivesUp(result.value, op.attempt, op.maxAttempts)
       && op.content.workshop.Some? && moduleKey {
      compensated, cleanupError := true, cleanup;
    }
    if cleanupError.Some? {
      result := Some(if cleanupError.value.ContractDrift? then ContractDrift else UnknownOutcome);
    }
  }

  /** Whether a contract-valid operation is compensated after `error`. */
  predicate Compensates(op: LeasedOperation, moduleKey: bool, error: IntegrationError) {
    match op.kind
    case OdooReleaseAdopt | WebshopDomainReconcile => FailureIsTerminal(error, op.attempt, op.maxAttempts)
    case TenantLifecycle | WebshopOnboardingReconcile | WebshopEmailDomainReconcile =>
      GivesUp(error, op.attempt, op.maxAttempts)
    case ModuleEnable => GivesUp(error, op.attempt, op.maxAttempts) && moduleKey
    case _ => false
  }

  /** Releases and web shop domains are compensated exactly when the queue would bury the error; the
      other kinds are compensated for that, and also for an unknown outcome once the attempts are
      used up, although the queue then still reconciles; `module.enable` only names its module. */
  lemma CompensationAgreesWithDeadLetter(op: LeasedOperation, moduleKey: bool, error: IntegrationError)
    requires HasCompensation(op.kind)
    ensures op.kind in {OdooReleaseAdopt, WebshopDomainReconcile} ==>
              (Compensates(op, moduleKey, error) <==> EndState(op, Some(error)).DeadLetter?)
    ensures op.kind !in {OdooReleaseAdopt, WebshopDomainReconcile} && (op.kind.ModuleEnable? ==> moduleKey) ==>
              (Compensates(op, moduleKey, error) <==>
                 EndState(op, Some(error)).DeadLetter? || (error.UnknownOutcome? && op.attempt >= op.maxAttempts))
    ensures op.kind.ModuleEnable? && !moduleKey ==> !Compensates(op, moduleKey, error)
  {
  }

  // ---------------------------------------------------------------- driver replies

  /** HTTP status of the driver to provider error. */
  function Classify(status: nat): IntegrationError {
    if status in {400, 409, 422} then Rejected
    else if status in {401, 403} then Unauthorized
    else if status == 404 then NotFound
    else if status == 429 then RateLimited(None)
    else if 500 <= status <= 599 then Unavailable
    else ContractDrift
  }

  predicate Inconclusive(action: string, status: nat, errorCode: Option<string>) {
    action == "release" && status == 503 && errorCode == Some("release_reconciliation_inconclusive")
  }

  function ClassifyDriverResponse(action: string, status: nat, errorCode: Option<string>): IntegrationError {
    if Inconclusive(action, status, errorCode) then UnknownOutcome else Classify(status)
  }

  /** Where a failed driver reply sends the operation: an inconclusive release waits for reconciliation, at any
      attempt; rate limits and server errors are tried again while the budget lasts; all else is buried. */
  lemma DriverReplyDecidesEndState(op: LeasedOperation, action: string, status: nat, errorCode: Option<string>)
    ensures var end := EndState(op, Some(ClassifyDriverResponse(action, status, errorCode)));
            var transient := status == 429 || 500 <= status <= 599;
            && (end.AwaitingReconciliation? <==> Inconclusive(action, status, errorCode))
            && (end.Pending? <==> transient && !Inconclusive(action, status, errorCode) && op.attempt < op.maxAttempts)
            && (end.DeadLetter? <==> !Inconclusive(action, status, errorCode) && !(transient && op.attempt < op.maxAttempts))
  {
  }
}
