/**
 Each Core store transaction as a function from the committed rows to the committed rows and the
 caller's result. The clock reading, the tokens and Run IDs drawn, the authorizer's answer and the
 page pressure are inputs. A transaction that rolls back returns the rows it was given.
 */
module StoreSteps {
  import opened GoTypes
  import opened StoreTypes
  import opened Ordering

  // ---- Queries ----

  function ReceiptsOf(receipts: map<EventKey, Receipt>, c: Str): set<EventKey> {
    set k | k in receipts && k.connector == c
  }

  function RunsOf(runs: map<Str, Run>, c: Str): set<Str> { set r | r in runs && runs[r].origin.scope.connector == c }

  function QueuedOf(runs: map<Str, Run>, c: Str): set<Str> {
    set r | r in runs && runs[r].origin.scope.connector == c && runs[r].state == Queued
  }

  function LiveOf(runs: map<Str, Run>, c: Str): set<Str> {
    set r | r in runs && runs[r].origin.scope.connector == c && Live(runs[r])
  }

  /** text_deliveries JOIN runs, filtered by connector and unresolved state. */
  function UnresolvedOf(runs: map<Str, Run>, deliveries: map<Str, Delivery>, c: Str): set<Str> {
    set d | d in deliveries && deliveries[d].runId in runs
            && runs[deliveries[d].runId].origin.scope.connector == c && !Resolved(deliveries[d])
  }

  /** SUM(length(input_text)) over some Runs. */
  ghost function InputBytes(runs: map<Str, Run>, ids: set<Str>): (n: nat)
    requires ids <= runs.Keys
    decreases ids
  {
    if ids == {} then 0
    else
      var r :| r in ids;
      |runs[r].origin.input| + InputBytes(runs, ids - {r})
  }

  predicate ScopeBusy(runs: map<Str, Run>, scope: SessionKey) {
    exists r :: r in runs && Live(runs[r]) && runs[r].origin.scope == scope
  }

  function CurrentRef(sessions: map<SessionKey, Session>, scope: SessionKey): Option<Str> {
    if scope in sessions then Some(sessions[scope].ref) else None
  }

  predicate HasReceipt(receipts: map<EventKey, Receipt>, run: Str) {
    exists k :: k in receipts && receipts[k].runId == run
  }

  predicate HasDelivery(deliveries: map<Str, Delivery>, run: Str) {
    exists d :: d in deliveries && deliveries[d].runId == run
  }

  // ---- Ingest ----

  datatype IngestResult = Created(runId: Str) | Duplicate(run: Run, id: Str) | IngestRefused(error: Error)

  datatype IngestStep = IngestStep(db: DB, result: IngestResult)

  /** What the environment answers during one admission. */
  datatype IngestEnv = IngestEnv(now: int, auth: Option<Authorization>, pagesFull: bool, newRunId: Option<Str>)

  /** timeFromMillis(now).Add(offset).UnixMilli(), rounding toward the past. */
  function ShiftMillis(now: int, offsetNs: int): int { (now * NS_PER_MS + offsetNs) / NS_PER_MS }

  function Cutoff(cfg: Config, now: int): int {
    var c := ShiftMillis(now, -cfg.receiptWindow);
    if c < 0 then 0 else c
  }

  function AdvanceHorizon(horizons: map<Str, int>, c: Str, cutoff: int): (h: map<Str, int>)
    ensures c in h && h[c] >= cutoff && h.Keys == horizons.Keys + {c}
    ensures forall k :: k in horizons ==> h[k] >= horizons[k] && (k != c ==> h[k] == horizons[k])
  {
    if c in horizons && cutoff <= horizons[c] then horizons else horizons[c := cutoff]
  }

  /** A terminal Run of connector c that no receipt names any more. */
  predicate Compactable(runs: map<Str, Run>, receipts: map<EventKey, Receipt>, c: Str, run: Str) {
    run in runs && runs[run].origin.scope.connector == c && Terminal(runs[run].state) && !HasReceipt(receipts, run)
  }

  function KeepReceipts(receipts: map<EventKey, Receipt>, c: Str, horizon: int): map<EventKey, Receipt> {
    map k | k in receipts && !(k.connector == c && receipts[k].occurredAt <= horizon) :: receipts[k]
  }

  function KeepDeliveries(db: DB, receipts: map<EventKey, Receipt>, c: Str): map<Str, Delivery> {
    map d | d in db.deliveries
            && !(Resolved(db.deliveries[d]) && Compactable(db.runs, receipts, c, db.deliveries[d].runId))
      :: db.deliveries[d]
  }

  function KeepRuns(db: DB, receipts: map<EventKey, Receipt>, deliveries: map<Str, Delivery>, c: Str): map<Str, Run> {
    map r | r in db.runs && !(Compactable(db.runs, receipts, c, r) && !HasDelivery(deliveries, r)) :: db.runs[r]
  }

  /** evictInboundReceipts. */
  function Evict(cfg: Config, db: DB, c: Str, now: int): DB {
    var horizons := AdvanceHorizon(db.horizons, c, Cutoff(cfg, now));
    var receipts := KeepReceipts(db.receipts, c, horizons[c]);
    var deliveries := KeepDeliveries(db, receipts, c);
    DB(KeepRuns(db, receipts, deliveries, c), receipts, horizons, deliveries, db.sessions)
  }

  /** checkInboundCapacity admits one more event carrying the given number of input bytes. */
  ghost predicate HasCapacity(cfg: Config, db: DB, c: Str, bytes: nat, pagesFull: bool) {
    |ReceiptsOf(db.receipts, c)| < cfg.maxReceipts && |QueuedOf(db.runs, c)| < cfg.maxQueued
    && |LiveOf(db.runs, c)| < cfg.maxNonterminal && |UnresolvedOf(db.runs, db.deliveries, c)| < cfg.maxPending
    && InputBytes(db.runs, RunsOf(db.runs, c)) <= cfg.maxInputBytes - bytes && !pagesFull
  }

  function NewRun(i: IngestInput, a: Authorization, now: int): Run {
    Run(
      Origin(SessionKey(a.binding, i.connector, i.actor, i.conversation, a.targetId, a.targetRevision),
             i.eventId, i.message, a.policyRevision, i.text, now),
      Queued, [], None, 0, false, None, 0, None, None, None, now)
  }

  /** A receipt found by key decides alone: the same payload returns its Run, another payload conflicts. */
  function Replay(before: DB, db: DB, i: IngestInput): IngestStep
    requires EventKey(i.connector, i.eventId) in db.receipts
  {
    var receipt := db.receipts[EventKey(i.connector, i.eventId)];
    if receipt.hashVersion !in {1, 2} then IngestStep(before, IngestRefused(Internal))
    else if receipt.hash != (if receipt.hashVersion == 1 then i.legacyHash else i.payloadHash) then
      IngestStep(db, IngestRefused(Conflict))
    else if receipt.runId !in db.runs then IngestStep(before, IngestRefused(Internal))
    else IngestStep(db, Duplicate(db.runs[receipt.runId], receipt.runId))
  }

  /** The admission checks on an event without a retained receipt; db is the state after eviction. */
  ghost function Admit(cfg: Config, before: DB, db: DB, i: IngestInput, env: IngestEnv): IngestStep
    requires i.connector in db.horizons
  {
    if i.occurredAt > ShiftMillis(env.now, cfg.futureSkew) || i.occurredAt <= db.horizons[i.connector]
       || i.occurredAt < ShiftMillis(env.now, -cfg.acceptWindow)
    then IngestStep(db, IngestRefused(EventExpired))
    else if env.auth.None? then IngestStep(db, IngestRefused(NotAuthorizedEvent))
    else if !ValidAuthorization(env.auth.value) then IngestStep(before, IngestRefused(Invalid))
    else
      var run := NewRun(i, env.auth.value, env.now);
      if ScopeBusy(db.runs, run.origin.scope) then IngestStep(db, IngestRefused(SessionScopeBusy))
      else if !HasCapacity(cfg, db, i.connector, |i.text|, env.pagesFull) then IngestStep(db, IngestRefused(QuotaExceeded))
      else if env.newRunId.None? then IngestStep(db, IngestRefused(Internal))
      else if !ValidIdentifier(env.newRunId.value, MAX_ID_BYTES) then IngestStep(before, IngestRefused(Invalid))
      else if env.newRunId.value in db.runs then IngestStep(before, IngestRefused(Conflict))
      else
        var receipt := Receipt(i.payloadHash, 2, env.newRunId.value, i.occurredAt, env.now);
        IngestStep(
          db.(runs := db.runs[env.newRunId.value := run],
              receipts := db.receipts[EventKey(i.connector, i.eventId) := receipt]),
          Created(env.newRunId.value))
  }

  ghost function Ingest(cfg: Config, db: DB, i: IngestInput, env: IngestEnv): IngestStep {
    if !ValidIngest(i) || env.now <= 0 then IngestStep(db, IngestRefused(Invalid))
    else
      var evicted := Evict(cfg, db, i.connector, env.now);
      if EventKey(i.connector, i.eventId) in evicted.receipts then Replay(db, evicted, i)
      else Admit(cfg, db, evicted, i, env)
  }

  // ---- Dispatch ----

  /** When a lease taken now runs out. */
  function LeaseEnd(now: int, leaseNs: int): int { now + leaseNs / NS_PER_MS }

  function Release(run: Run, now: int): Run {
    if run.state == Dispatching && run.dispatchExpires.Some? && run.dispatchExpires.value <= now
    then run.(state := Queued, dispatchToken := [], dispatchExpires := None, updatedAt := now)
    else run
  }

  function ReleaseExpired(runs: map<Str, Run>, now: int): map<Str, Run> { map r | r in runs :: Release(runs[r], now) }

  /** ORDER BY created_at_ms, id over the runs table. */
  function QueueRanks(runs: map<Str, Run>): (ranks: map<Str, Rank>)
    ensures Ranking(ranks) && ranks.Keys == runs.Keys
  {
    map r | r in runs :: Rank(runs[r].origin.createdAt, 0, r)
  }

  function QueuedIds(runs: map<Str, Run>): set<Str> { set r | r in runs && runs[r].state == Queued }

  /** SELECT ... WHERE state = 'queued' ORDER BY created_at_ms, id LIMIT 1. */
  function QueueHead(runs: map<Str, Run>): (h: Option<Str>)
    ensures h.None? <==> QueuedIds(runs) == {}
    ensures h.Some? ==> h.value in QueuedIds(runs) && IsFirst(QueueRanks(runs), QueuedIds(runs), h.value)
  {
    if QueuedIds(runs) == {} then None else Some(First(QueueRanks(runs), QueuedIds(runs)))
  }

  datatype ClaimResult = NothingToClaim | Claimed(id: Str, run: Run) | ClaimFailed(error: Error)

  datatype ClaimStep = ClaimStep(db: DB, result: ClaimResult)

  function ClaimedRun(run: Run, token: Str, expires: int, now: int): Run {
    run.(state := Dispatching, dispatchToken := token, dispatchExpires := Some(expires),
         attempts := run.attempts + 1, updatedAt := now)
  }

  /** ClaimQueuedRun: expired dispatches are requeued, then an active Run anywhere gates the queue. */
  function Claim(db: DB, leaseNs: int, token: Option<Str>, now: int): ClaimStep {
    if !ValidLease(leaseNs) || now <= 0 then ClaimStep(db, ClaimFailed(Invalid))
    else
      var released := db.(runs := ReleaseExpired(db.runs, now));
      if exists r :: r in released.runs && Active(released.runs[r]) then ClaimStep(released, NothingToClaim)
      else
        var head := QueueHead(released.runs);
        if head.None? then ClaimStep(released, NothingToClaim)
        else if token.None? then ClaimStep(db, ClaimFailed(Internal))
        else if !ValidIdentifier(token.value, MAX_ID_BYTES) || LeaseEnd(now, leaseNs) > MAX_INT64 then
          ClaimStep(db, ClaimFailed(Invalid))
        else
          var run := ClaimedRun(released.runs[head.value], token.value, LeaseEnd(now, leaseNs), now);
          ClaimStep(released.(runs := released.runs[head.value := run]), Claimed(head.value, run))
  }

  datatype PrepareResult = Prepared(start: PreparedStart) | PrepareFailed(error: Error)

  datatype PrepareStep = PrepareStep(db: DB, result: PrepareResult)

  predicate HoldsDispatch(run: Run, token: Str, now: int) {
    run.state == Dispatching && run.dispatchToken == token
    && run.dispatchExpires.Some? && run.dispatchExpires.value > now
  }

  function StartOf(run: Run): PreparedStart { PreparedStart(run.startSession, run.startDeadline) }

  /** PrepareRunStart: the first preparation under a live dispatch freezes the start, later ones read it. */
  function Prepare(db: DB, i: PrepareInput, now: int): PrepareStep {
    if now <= 0 || !ValidPrepare(i, now) then PrepareStep(db, PrepareFailed(Invalid))
    else if i.runId !in db.runs then PrepareStep(db, PrepareFailed(NotFound))
    else
      var run := db.runs[i.runId];
      if !HoldsDispatch(run, i.token, now) then PrepareStep(db, PrepareFailed(DispatchLost))
      else if run.prepared then PrepareStep(db, Prepared(StartOf(run)))
      else if CurrentRef(db.sessions, run.origin.scope) != i.session then PrepareStep(db, PrepareFailed(Conflict))
      else
        var prepared := run.(prepared := true, startSession := i.session, startDeadline := i.deadline, updatedAt := now);
        PrepareStep(db.(runs := db.runs[i.runId := prepared]), Prepared(StartOf(prepared)))
  }

  datatype UnitResult = Done | Refused(error: Error)

  datatype UnitStep = UnitStep(db: DB, result: UnitResult)

  /** MarkRunRunning. */
  function MarkRunning(db: DB, id: Str, token: Str, now: int): UnitStep {
    if !ValidIdentifier(id, MAX_ID_BYTES) || !ValidIdentifier(token, MAX_ID_BYTES) || now <= 0 then
      UnitStep(db, Refused(Invalid))
    else if id !in db.runs then UnitStep(db, Refused(NotFound))
    else
      var run := db.runs[id];
      if run.dispatchToken != token then UnitStep(db, Refused(DispatchLost))
      else if run.state == Running then UnitStep(db, Done)
      else if run.state != Dispatching then UnitStep(db, Refused(InvalidTransition))
      else if !HoldsDispatch(run, token, now) then UnitStep(db, Refused(DispatchLost))
      else if !run.prepared then UnitStep(db, Refused(StartUnprepared))
      else UnitStep(db.(runs := db.runs[id := run.(state := Running, dispatchExpires := None, updatedAt := now)]), Done)
  }

  // ---- Finish ----

  /** sameFinish: the stored terminal result is the one supplied again. */
  predicate SameFinish(run: Run, i: FinishInput) {
    run.state == i.state
    && match i.state {
      case Completed =>
        run.output == Some(i.output) && run.failure.None?
        && run.resultSession == (if i.resultSession == [] then None else Some(i.resultSession))
      case Failed => run.output.None? && run.failure.Some? && run.failure == i.failure
      case Interrupted => run.output.None? && run.failure.Some? && run.failure == i.failure
      case Cancelled => run.output.None? && run.failure.None?
      case _ => false
    }
  }

  function FinishedRun(run: Run, i: FinishInput, now: int): Run {
    run.(state := i.state, dispatchExpires := None,
         output := if i.state == Completed then Some(i.output) else None,
         failure := i.failure,
         resultSession := if i.resultSession == [] then None else Some(i.resultSession),
         updatedAt := now)
  }

  function NewDelivery(run: Str, text: Str, now: int): Delivery {
    Delivery(run, text, Pending, [], None, 0, now, [], None, now, now)
  }

  /** insertDeliveryTx: a repeated reply is a no-op, a different reply for the same Run or ID conflicts. */
  function InsertDelivery(cfg: Config, db: DB, run: Str, reply: DeliveryInput, now: int): (s: UnitStep)
    requires run in db.runs
  {
    if reply.id in db.deliveries && db.deliveries[reply.id].runId in db.runs then
      if db.deliveries[reply.id].runId == run && db.deliveries[reply.id].text == reply.text
      then UnitStep(db, Done) else UnitStep(db, Refused(Conflict))
    else if HasDelivery(db.deliveries, run) then
      if exists d :: d in db.deliveries && db.deliveries[d].runId == run && db.deliveries[d].text == reply.text
      then UnitStep(db, Done) else UnitStep(db, Refused(Conflict))
    else if |UnresolvedOf(db.runs, db.deliveries, db.runs[run].origin.scope.connector)| >= cfg.maxPending then UnitStep(db, Refused(QuotaExceeded))
    else UnitStep(db.(deliveries := db.deliveries[reply.id := NewDelivery(run, reply.text, now)]), Done)
  }

  /** The run row and the session row that a first finish writes. */
  function CommitTerminal(db: DB, run: Run, i: FinishInput, now: int): DB {
    db.(runs := db.runs[i.runId := FinishedRun(run, i, now)],
        sessions := if i.resultSession == [] then db.sessions
                    else db.sessions[run.origin.scope := Session(i.resultSession, now)])
  }

  /** FinishRun: state, session and reply commit together or not at all. */
  function Finish(cfg: Config, db: DB, i: FinishInput, reply: Option<DeliveryInput>, now: int): UnitStep {
    if !ValidFinish(i) || now <= 0 then UnitStep(db, Refused(Invalid))
    else if i.runId !in db.runs then UnitStep(db, Refused(NotFound))
    else
      var run := db.runs[i.runId];
      if run.dispatchToken != i.token then UnitStep(db, Refused(DispatchLost))
      else if !run.prepared then UnitStep(db, Refused(StartUnprepared))
      else if reply.Some? && !ValidDelivery(reply.value) then UnitStep(db, Refused(Invalid))
      else if Terminal(run.state) && !SameFinish(run, i) then UnitStep(db, Refused(Conflict))
      else if run.state == Queued then UnitStep(db, Refused(InvalidTransition))
      else if run.state == Dispatching && !HoldsDispatch(run, i.token, now) then UnitStep(db, Refused(DispatchLost))
      else
        var finished := if Terminal(run.state) then db else CommitTerminal(db, run, i, now);
        if reply.None? then UnitStep(finished, Done)
        else
          var inserted := InsertDelivery(cfg, finished, i.runId, reply.value, now);
          if inserted.result.Done? then inserted else UnitStep(db, inserted.result)
  }

  // ---- Outbox ----

  predicate OwnedBy(db: DB, d: Str, c: Str) {
    d in db.deliveries && db.deliveries[d].runId in db.runs
    && db.runs[db.deliveries[d].runId].origin.scope.connector == c
  }

  function ReleaseLease(d: Delivery, now: int): Delivery {
    if d.state == Leased && d.leaseExpires.Some? && d.leaseExpires.value <= now
    then d.(state := Pending, leaseToken := [], leaseExpires := None, updatedAt := now)
    else d
  }

  function ReleaseLeases(db: DB, c: Str, now: int): map<Str, Delivery> {
    map d | d in db.deliveries :: if OwnedBy(db, d, c) then ReleaseLease(db.deliveries[d], now) else db.deliveries[d]
  }

  predicate Claimable(db: DB, d: Str, c: Str, now: int) {
    OwnedBy(db, d, c) && db.deliveries[d].state == Pending && db.deliveries[d].availableAt <= now
  }

  /** ORDER BY available_at_ms, created_at_ms, id over the text_deliveries table. */
  function ClaimRanks(deliveries: map<Str, Delivery>): (ranks: map<Str, Rank>)
    ensures Ranking(ranks) && ranks.Keys == deliveries.Keys
  {
    map d | d in deliveries :: Rank(deliveries[d].availableAt, deliveries[d].createdAt, d)
  }

  function ClaimableIds(db: DB, c: Str, now: int): set<Str> { set d | d in db.deliveries && Claimable(db, d, c, now) }

  function LeaseDelivery(d: Delivery, token: Str, expires: int, now: int): Delivery {
    d.(state := Leased, leaseToken := token, leaseExpires := Some(expires), attempts := d.attempts + 1, updatedAt := now)
  }

  /** Leases ids in order, one drawn token each. */
  function LeaseAll(deliveries: map<Str, Delivery>, ids: seq<Str>, tokens: seq<Str>, expires: int, now: int): (r: map<Str, Delivery>)
    requires |ids| <= |tokens| && forall i :: 0 <= i < |ids| ==> ids[i] in deliveries
    ensures r.Keys == deliveries.Keys
    decreases |ids|
  {
    if |ids| == 0 then deliveries
    else
      var n := |ids| - 1;
      var before := LeaseAll(deliveries, ids[..n], tokens, expires, now);
      before[ids[n] := LeaseDelivery(before[ids[n]], tokens[n], expires, now)]
  }

  datatype LeaseResult = LeasedBatch(ids: seq<Str>) | LeaseFailed(error: Error)

  datatype LeaseStep = LeaseStep(db: DB, result: LeaseResult)

  function ClaimBatch(db: DB, c: Str, now: int, limit: nat): (ids: seq<Str>)
    ensures forall i :: 0 <= i < |ids| ==> ids[i] in db.deliveries
  {
    FirstN(ClaimRanks(db.deliveries), ClaimableIds(db, c, now), limit)
  }

  /** One of the first n tokens drawn is not a valid identifier. */
  predicate BadToken(tokens: seq<Str>, n: nat) {
    exists i :: 0 <= i < n && i < |tokens| && !ValidIdentifier(tokens[i], MAX_ID_BYTES)
  }

  /** The loop over the selected IDs, in a transaction that began with db and has released expired leases. */
  function LeaseIds(db: DB, released: DB, ids: seq<Str>, tokens: seq<Str>, expires: int, now: int): LeaseStep
    requires forall i :: 0 <= i < |ids| ==> ids[i] in released.deliveries
  {
    if BadToken(tokens, |ids|) then LeaseStep(db, LeaseFailed(Invalid))
    else if |tokens| < |ids| then LeaseStep(db, LeaseFailed(Internal))
    else LeaseStep(released.(deliveries := LeaseAll(released.deliveries, ids, tokens, expires, now)), LeasedBatch(ids))
  }

  /** The transaction of a delivery claim: release expired leases, select, lease each. */
  function LeaseReleased(db: DB, c: Str, limit: nat, tokens: seq<Str>, expires: int, now: int): LeaseStep {
    var released := db.(deliveries := ReleaseLeases(db, c, now));
    LeaseIds(db, released, ClaimBatch(released, c, now, limit), tokens, expires, now)
  }

  /** ClaimTextDeliveries; tokens are the tokens drawn, and drawing fails once they run out. */
  function Lease(db: DB, c: Str, limit: int, leaseNs: int, tokens: seq<Str>, now: int): LeaseStep {
    if !ValidIdentifier(c, MAX_ID_BYTES) || !(1 <= limit <= MAX_CLAIM_LIMIT) || !ValidLease(leaseNs) || now <= 0
       || LeaseEnd(now, leaseNs) > MAX_INT64
    then LeaseStep(db, LeaseFailed(Invalid))
    else
      LeaseReleased(db, c, limit, tokens, LeaseEnd(now, leaseNs), now)
  }

  function BackoffLoop(delay: int, current: int, attempt: int): int
    decreases attempt - current
  {
    if current < attempt && delay < MAX_RETRY_NS then
      if delay > MAX_RETRY_NS / 2 then MAX_RETRY_NS else BackoffLoop(delay * 2, current + 1, attempt)
    else if delay > MAX_RETRY_NS then MAX_RETRY_NS else delay
  }

  /** When a retried delivery becomes claimable again; int64 addition wraps. */
  function RetryAt(cfg: Config, attempts: nat, now: int): int {
    Wrap64(now + BackoffLoop(cfg.retryDelay, 1, attempts) / NS_PER_MS)
  }

  /** CompleteDelivery. */
  function Complete(cfg: Config, db: DB, i: CompleteInput, now: int): UnitStep {
    if now <= 0 || !ValidCompletion(i) then UnitStep(db, Refused(Invalid))
    else if !OwnedBy(db, i.deliveryId, i.connector) then UnitStep(db, Refused(NotFound))
    else
      var d := db.deliveries[i.deliveryId];
      if d.leaseToken != i.token then UnitStep(db, Refused(LeaseLost))
      else if d.state != Leased then
        if RepeatsCompletion(d, i) then UnitStep(db, Done) else UnitStep(db, Refused(Conflict))
      else if d.leaseExpires.None? || d.leaseExpires.value <= now then UnitStep(db, Refused(LeaseLost))
      else if i.outcome.OutcomeRetry? && RetryAt(cfg, d.attempts, now) <= now then UnitStep(db, Refused(Invalid))
      else UnitStep(db.(deliveries := db.deliveries[i.deliveryId := CompletedDelivery(cfg, d, i, now)]), Done)
  }

  /** The completion already recorded is the one supplied again. */
  predicate RepeatsCompletion(d: Delivery, i: CompleteInput) {
    match d.state
    case Delivered => i.outcome.OutcomeDelivered? && d.providerRef == i.providerRef
    case PermanentFailed => i.outcome.OutcomePermanentFailure? && d.failure == i.failure
    case Pending => i.outcome.OutcomeRetry? && d.failure == i.failure
    case Leased => false
  }

  function CompletedDelivery(cfg: Config, d: Delivery, i: CompleteInput, now: int): Delivery {
    match i.outcome
    case OutcomeDelivered =>
      d.(state := Delivered, leaseExpires := None, providerRef := i.providerRef, failure := None, updatedAt := now)
    case OutcomeRetry =>
      d.(state := Pending, leaseExpires := None, availableAt := RetryAt(cfg, d.attempts, now),
         failure := i.failure, updatedAt := now)
    case OutcomePermanentFailure =>
      d.(state := PermanentFailed, leaseExpires := None, failure := i.failure, updatedAt := now)
  }

  // ---- Offline maintenance ----

  datatype ResetResult = ResetDone | ResetNotFound | ResetRefMismatch | ResetRefused(error: Error)

  datatype ResetStep = ResetStep(db: DB, result: ResetResult)

  /** MaintenanceStore.ResetSession. */
  function Reset(db: DB, key: SessionKey, expected: Str): ResetStep {
    if !ValidSessionKey(key) || !ValidSessionRef(expected) then ResetStep(db, ResetRefused(Invalid))
    else if ScopeBusy(db.runs, key) then ResetStep(db, ResetRefused(SessionScopeBusy))
    else if key !in db.sessions then ResetStep(db, ResetNotFound)
    else if db.sessions[key].ref != expected then ResetStep(db, ResetRefMismatch)
    else ResetStep(db.(sessions := map k | k in db.sessions && k != key :: db.sessions[k]), ResetDone)
  }
}
