/** The entities of contracts/models.py and api/store.py that the stores hold. */
module Model {
  import opened Wrappers

  /** A metadata value: absent, a string, a number or boolean (0 is falsy), or a list or
      object, which cannot be looked up in a dict. */
  datatype Json = NoValue | Str(text: string) | Num(number: int) | Compound(empty: bool)

  /** Python's truth of a value. */
  predicate Given(v: Json) {
    match v
    case NoValue => false
    case Str(text) => text != ""
    case Num(number) => number != 0
    case Compound(empty) => !empty
  }

  predicate Hashable(v: Json) {
    !v.Compound?
  }

  /** What an Optional[str] field accepts. */
  predicate Textual(v: Json) {
    v.NoValue? || v.Str?
  }

  function TextOf(v: Json): Option<string> {
    if v.Str? then Some(v.text) else None
  }

  /** The twelve per-record lifecycle states, and any other string a record may be given. */
  datatype Lifecycle =
    | INGESTED | CLASSIFYING | AUDITING
    | PENDING_REVIEW | ESCALATED | PENDING_ADMIN_REVIEW | PENDING_COSIGN
    | RESOLVED_RECORD | FAILED_RECORD | BLOCKED_RECORD | REJECTED_RECORD | CLOSED
    | OtherState(name: string)

  /** A record's `final_status`; `Unlisted` is any string outside the seven terminal statuses. */
  datatype FinalStatus =
    | COMPLETE | FAIL_TO_HUMAN | MANUAL_REVIEW_REQUIRED | BLOCKED_STATUS
    | REJECTED_STATUS | COMPLETE_WITH_CHILDREN | AUDIT_CONTEXT_MISSING
    | Unlisted(name: string)

  /** STATUS_TO_LIFECYCLE.get(final_status or "", "INGESTED"). */
  function LifecycleOf(finalStatus: Option<FinalStatus>): Lifecycle {
    match finalStatus
    case None => INGESTED
    case Some(COMPLETE) => RESOLVED_RECORD
    case Some(FAIL_TO_HUMAN) => FAILED_RECORD
    case Some(MANUAL_REVIEW_REQUIRED) => PENDING_REVIEW
    case Some(BLOCKED_STATUS) => BLOCKED_RECORD
    case Some(REJECTED_STATUS) => REJECTED_RECORD
    case Some(COMPLETE_WITH_CHILDREN) => RESOLVED_RECORD
    case Some(AUDIT_CONTEXT_MISSING) => FAILED_RECORD
    case Some(Unlisted(_)) => INGESTED
  }

  /** The listed case statuses, and any other string an update may store. */
  datatype CaseStatus =
    | OPEN_AGENT_PROCESSING | OPEN_AWAITING_HUMAN | OPEN_AWAITING_BUYER | OPEN_AWAITING_ERP
    | RESOLVED | FAILED | BLOCKED
    | OtherStatus(name: string)

  /** TERMINAL_CASE_STATUSES. */
  predicate Terminal(s: CaseStatus) {
    s == RESOLVED || s == FAILED || s == BLOCKED
  }

  /** The routing fields of an inbound event; `meta...` are its metadata entries. Origin and
      channel count only as strings, so None covers every other value. */
  datatype OrderEvent = OrderEvent(
    orderId: string, eventType: string, retailerId: Option<string>,
    metaOrigin: Option<string>, metaChannel: Option<string>,
    metaCustomerPo: Json, metaSalesOrder: Json, metaEdi: Json, metaEmail: Json)

  /** A record's persisted `original_event`; `Malformed` fails validation. */
  datatype Payload = Missing | Malformed | Event(event: OrderEvent)

  /** A row of the exceptions table: one child of an order case. */
  datatype ChildCase = ChildCase(
    id: string, tenantId: string, parentCaseId: Option<string>,
    lifecycle: Lifecycle, finalStatus: Option<FinalStatus>, intent: Option<string>,
    supergroup: Option<string>, intentCode: Option<string>,
    originalEvent: Payload, createdAt: int, updatedAt: int)

  datatype OrderCase = OrderCase(
    caseId: string, tenantId: string, origin: string, channel: string,
    supergroup: Option<string>, customerPo: Option<string>,
    openedAt: int, closedAt: Option<int>, updatedAt: int,
    status: CaseStatus, tier: int, summary: Option<string>,
    pendingOverride: Option<string>)

  /** One row of the classification history; `childCaseId` is None for a case-level row. */
  datatype ClassificationEvent = ClassificationEvent(
    caseId: string, childCaseId: Option<string>, supergroup: string,
    intentCode: Option<string>, classifiedBy: string, classifierType: string)

  const NEEDS_TRIAGE := "SG_NEEDS_TRIAGE"
}
