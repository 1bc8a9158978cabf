/** The rows of agentd's Core database and the checks on what callers hand to it. */
module StoreTypes {
  import opened GoTypes
  import opened Utf8

  const MAX_ID_BYTES := 256
  const MAX_TARGET_ID_BYTES := 128
  const MAX_REVISION_BYTES := 160
  const MAX_SESSION_REF_BYTES := 512
  const SHA256_HEX_BYTES := 64
  const MAX_TEXT_BYTES := 32768
  const MAX_CLAIM_LIMIT := 20
  const MAX_DEADLINE_MS := 253402300799999
  const NS_PER_MS := 1_000_000
  const NS_PER_SECOND := 1_000_000_000
  const MAX_LEASE_NS := 600 * NS_PER_SECOND
  const MAX_RETRY_NS := 3600 * NS_PER_SECOND

  // ---- Rows ----

  datatype RunState = Queued | Dispatching | Running | Completed | Failed | Cancelled | Interrupted

  datatype FailureCode =
    | TargetUnavailable | RevisionMismatch | InvalidSession | PolicyDenied | DeadlineExceeded
    | OutputLimit | RunnerFailed | ProtocolViolation | RuntimeInterrupted | InternalFailure
    | UnlistedFailure(code: Str)

  /** The six columns that scope a session; equal keys address the same sessions row. */
  datatype SessionKey = SessionKey(
    binding: Str, connector: Str, actor: Str, conversation: Str, targetId: Str, targetRevision: Str)

  /** What IngestTextRun writes once and no later statement assigns. */
  datatype Origin = Origin(
    scope: SessionKey, eventId: Str, message: Str, policyRevision: Str, input: Str, createdAt: int)

  /** A NULL dispatch token reads back as the empty string. */
  datatype Run = Run(
    origin: Origin, state: RunState,
    dispatchToken: Str, dispatchExpires: Option<int>, attempts: nat,
    prepared: bool, startSession: Option<Str>, startDeadline: int,
    output: Option<Str>, failure: Option<FailureCode>, resultSession: Option<Str>, updatedAt: int)

  datatype Receipt = Receipt(hash: Str, hashVersion: int, runId: Str, occurredAt: int, receivedAt: int)

  datatype DeliveryState = Pending | Leased | Delivered | PermanentFailed

  datatype DeliveryFailure =
    TemporaryFailure | RateLimited | RecipientUnavailable | ContentRejected | NotAuthorized | ConnectorInternal

  datatype Delivery = Delivery(
    runId: Str, text: Str, state: DeliveryState, leaseToken: Str, leaseExpires: Option<int>,
    attempts: nat, availableAt: int, providerRef: Str, failure: Option<DeliveryFailure>,
    createdAt: int, updatedAt: int)

  datatype Session = Session(ref: Str, updatedAt: int)

  /** The primary key of inbound_events. */
  datatype EventKey = EventKey(connector: Str, event: Str)

  datatype DB = DB(
    runs: map<Str, Run>, receipts: map<EventKey, Receipt>, horizons: map<Str, int>,
    deliveries: map<Str, Delivery>, sessions: map<SessionKey, Session>)

  const EMPTY_DB := DB(map[], map[], map[], map[], map[])

  /** AdmissionOptions and the retry base; durations are in nanoseconds. */
  datatype Config = Config(
    acceptWindow: int, receiptWindow: int, futureSkew: int,
    maxReceipts: int, maxQueued: int, maxNonterminal: int, maxPending: int, maxInputBytes: int,
    retryDelay: int)

  // ---- Inputs and results ----

  datatype IngestInput = IngestInput(
    connector: Str, eventId: Str, payloadHash: Str, legacyHash: Str, actor: Str,
    conversation: Str, message: Str, occurredAt: int, text: Str)

  datatype Authorization = Authorization(targetId: Str, targetRevision: Str, binding: Str, policyRevision: Str)

  datatype PrepareInput = PrepareInput(runId: Str, token: Str, session: Option<Str>, deadline: int)

  datatype PreparedStart = PreparedStart(session: Option<Str>, deadline: int)

  datatype FinishInput = FinishInput(
    runId: Str, token: Str, state: RunState, output: Str, failure: Option<FailureCode>, resultSession: Str)

  datatype DeliveryInput = DeliveryInput(id: Str, text: Str)

  datatype DeliveryOutcome = OutcomeDelivered | OutcomeRetry | OutcomePermanentFailure

  datatype CompleteInput = CompleteInput(
    connector: Str, deliveryId: Str, token: Str, outcome: DeliveryOutcome,
    providerRef: Str, failure: Option<DeliveryFailure>)

  datatype Error =
    | Invalid | Conflict | NotFound | DispatchLost | StartUnprepared | LeaseLost | InvalidTransition
    | EventExpired | QuotaExceeded | SessionScopeBusy | NotAuthorizedEvent | Internal

  // ---- Row predicates ----

  predicate Terminal(s: RunState) { s in {Completed, Failed, Cancelled, Interrupted} }

  predicate Live(r: Run) { !Terminal(r.state) }

  predicate Active(r: Run) { r.state == Dispatching || r.state == Running }

  predicate Resolved(d: Delivery) { d.state == Delivered || d.state == PermanentFailed }

  // ---- Input checks ----

  predicate ValidIdentifier(s: Str, max: nat) {
    0 < |s| <= max && ValidUtf8(s) && NoSpaceOrControl(s)
  }

  predicate ValidText(s: Str, allowEmpty: bool) {
    ValidUtf8(s) && |s| <= MAX_TEXT_BYTES && (allowEmpty || !AllSpace(s)) && 0 !in s
  }

  predicate ValidSessionRef(s: Str) {
    0 < |s| <= MAX_SESSION_REF_BYTES
    && forall i :: 0 <= i < |s| ==> Alphanumeric(s[i]) || s[i] in {0x2D, 0x5F, 0x2E, 0x7E}
  }

  predicate ValidSha256Hex(s: Str) {
    |s| == SHA256_HEX_BYTES && forall i :: 0 <= i < |s| ==> 0x30 <= s[i] <= 0x39 || 0x61 <= s[i] <= 0x66
  }

  predicate ValidIngest(i: IngestInput) {
    ValidIdentifier(i.connector, MAX_ID_BYTES) && ValidIdentifier(i.eventId, MAX_ID_BYTES)
    && ValidIdentifier(i.actor, MAX_ID_BYTES) && ValidIdentifier(i.conversation, MAX_ID_BYTES)
    && ValidIdentifier(i.message, MAX_ID_BYTES) && i.occurredAt > 0 && ValidText(i.text, false)
  }

  predicate ValidAuthorization(a: Authorization) {
    ValidIdentifier(a.targetId, MAX_TARGET_ID_BYTES) && ValidIdentifier(a.targetRevision, MAX_REVISION_BYTES)
    && ValidSha256Hex(a.binding) && ValidSha256Hex(a.policyRevision)
  }

  predicate ValidSessionKey(k: SessionKey) {
    ValidSha256Hex(k.binding) && ValidIdentifier(k.connector, MAX_ID_BYTES)
    && ValidIdentifier(k.actor, MAX_ID_BYTES) && ValidIdentifier(k.conversation, MAX_ID_BYTES)
    && ValidIdentifier(k.targetId, MAX_TARGET_ID_BYTES) && ValidIdentifier(k.targetRevision, MAX_REVISION_BYTES)
  }

  /** The deadline is given in Unix milliseconds; a year outside 1970-9999 is out of range. */
  predicate ValidPrepare(i: PrepareInput, now: int) {
    ValidIdentifier(i.runId, MAX_ID_BYTES) && ValidIdentifier(i.token, MAX_ID_BYTES)
    && (i.session.Some? ==> ValidSessionRef(i.session.value))
    && 0 <= i.deadline <= MAX_DEADLINE_MS && i.deadline > now
  }

  predicate ValidFinish(i: FinishInput) {
    ValidIdentifier(i.runId, MAX_ID_BYTES) && ValidIdentifier(i.token, MAX_ID_BYTES)
    && match i.state {
      case Completed =>
        i.failure.None? && ValidText(i.output, true) && (i.resultSession != [] ==> ValidSessionRef(i.resultSession))
      case Failed =>
        i.output == [] && i.resultSession == [] && i.failure.Some?
        && !i.failure.value.UnlistedFailure? && !i.failure.value.RuntimeInterrupted?
      case Cancelled => i.output == [] && i.failure.None? && i.resultSession == []
      case Interrupted => i.output == [] && i.resultSession == [] && i.failure == Some(RuntimeInterrupted)
      case _ => false
    }
  }

  predicate ValidDelivery(d: DeliveryInput) { ValidIdentifier(d.id, MAX_ID_BYTES) && ValidText(d.text, false) }

  predicate Retryable(f: DeliveryFailure) { f in {TemporaryFailure, RateLimited, ConnectorInternal} }

  predicate Permanent(f: DeliveryFailure) {
    f in {RecipientUnavailable, ContentRejected, NotAuthorized, ConnectorInternal}
  }

  predicate ValidCompletion(i: CompleteInput) {
    ValidIdentifier(i.connector, MAX_ID_BYTES) && ValidIdentifier(i.deliveryId, MAX_ID_BYTES)
    && ValidIdentifier(i.token, MAX_ID_BYTES)
    && match i.outcome {
      case OutcomeDelivered => ValidIdentifier(i.providerRef, MAX_ID_BYTES) && i.failure.None?
      case OutcomeRetry => i.providerRef == [] && i.failure.Some? && Retryable(i.failure.value)
      case OutcomePermanentFailure => i.providerRef == [] && i.failure.Some? && Permanent(i.failure.value)
    }
  }

  predicate ValidLease(ns: int) { NS_PER_SECOND <= ns <= MAX_LEASE_NS }

  /** validateAdmissionOptions, without the page limit, and the bounds Open puts on the retry delay. */
  predicate ValidConfig(c: Config) {
    NS_PER_SECOND <= c.acceptWindow <= 30 * 86400 * NS_PER_SECOND
    && c.acceptWindow < c.receiptWindow <= 365 * 86400 * NS_PER_SECOND
    && 0 <= c.futureSkew <= 86400 * NS_PER_SECOND
    && 1 <= c.maxReceipts <= 1_000_000_000 && 1 <= c.maxQueued <= 1_000_000_000
    && 1 <= c.maxNonterminal <= 1_000_000_000 && 1 <= c.maxPending <= 1_000_000_000
    && c.maxQueued <= c.maxNonterminal
    && MAX_TEXT_BYTES <= c.maxInputBytes <= 0x100_0000_0000
    && NS_PER_SECOND <= c.retryDelay <= MAX_RETRY_NS
  }
}
