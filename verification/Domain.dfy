/** Values shared by every component: identifiers, provider errors and operation kinds. */
module Domain {

  datatype Option<+T> = None | Some(value: T)

  type Uuid = nat

  /** The nil UUID, which never names a workshop. */
  const NIL_UUID: Uuid := 0

  /** A JSON value, identified by its canonical text. */
  type Json = string

  /** Timestamps are microseconds, the resolution PostgreSQL stores. */
  const SECOND: int := 1_000_000

  datatype IntegrationError =
    | Unauthorized
    | NotFound
    | Rejected
    | RateLimited(retryAfterSeconds: Option<nat>)
    | Unavailable
    | UnknownOutcome
    | ContractDrift
    | TooLarge
  {
    predicate Retryable() {
      RateLimited? || Unavailable? || UnknownOutcome?
    }

    function RetryAfter(): Option<nat> {
      if RateLimited? then retryAfterSeconds else None
    }

    function FailureClass(): string {
      match this
      case Unauthorized => "unauthorized"
      case NotFound => "not_found"
      case Rejected => "rejected"
      case RateLimited(_) => "rate_limited"
      case Unavailable => "upstream_unavailable"
      case UnknownOutcome => "unknown_outcome"
      case ContractDrift => "contract_drift"
      case TooLarge => "document_too_large"
    }
  }

  datatype OperationKind =
    | TenantProvision
    | MembershipReconcile
    | EntitlementApply
    | InvoiceCapture
    | InventoryCaptureExtract
    | TenantReconcile
    | TenantLifecycle
    | EmailDelivery
    | ModuleEnable
    | ModuleRestrict
    | OdooReleaseAdopt
    | PrivacyRetention
    | PrivacyDataSubjectRequest
    | WebshopDomainReconcile
    | WebshopEmailDomainReconcile
    | WebshopOnboardingReconcile
  {
    predicate RequiresWorkshop() {
      !(OdooReleaseAdopt? || PrivacyRetention? || PrivacyDataSubjectRequest?)
    }

    function Queue(): string {
      match this
      case TenantProvision => "tenant-provisioning"
      case MembershipReconcile => "membership-provisioning"
      case EntitlementApply => "membership-provisioning"
      case InvoiceCapture => "invoice-capture"
      case InventoryCaptureExtract => "inventory-capture"
      case TenantReconcile => "tenant-reconciliation"
      case TenantLifecycle => "tenant-lifecycle"
      case EmailDelivery => "email-delivery"
      case ModuleEnable => "tenant-reconciliation"
      case ModuleRestrict => "tenant-reconciliation"
      case OdooReleaseAdopt => "release-adoption"
      case PrivacyRetention => "privacy-operations"
      case PrivacyDataSubjectRequest => "privacy-operations"
      case WebshopDomainReconcile => "tenant-reconciliation"
      case WebshopEmailDomainReconcile => "tenant-reconciliation"
      case WebshopOnboardingReconcile => "tenant-reconciliation"
    }

    /** An operation runs only from its own queue and in the scope its kind calls for. */
    predicate ContractValid(queue: string, workshop: Option<Uuid>) {
      queue == Queue() &&
      if RequiresWorkshop() then workshop.Some? && workshop.value != NIL_UUID else workshop.None?
    }
  }
}
