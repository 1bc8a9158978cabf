/**
 Exactly what each call on the outbox and the sessions answers and writes, told from the rows it finds,
 column by column.
 */
module OutboxVerdicts {
  import opened GoTypes
  import opened Ordering
  import opened StoreTypes
  import opened StoreSteps
  import opened StoreInvariant
  import opened StoreOutbox

  // ---- Replies ----

  /** Delivery d answers the Run, with this text, and nothing else does. */
  ghost predicate Answers(deliveries: map<Str, Delivery>, d: Str, run: Str, text: Str) {
    && d in deliveries && deliveries[d].runId == run && deliveries[d].text == text
    && forall e :: e in deliveries && deliveries[e].runId == run ==> e == d
  }

  ghost predicate Answered(deliveries: map<Str, Delivery>, run: Str, text: Str) { exists d :: Answers(deliveries, d, run, text) }

  /** The reply's ID belongs to another reply, or the Run has been answered otherwise. */
  ghost predicate Clashes(db: DB, run: Str, reply: DeliveryInput) {
    || (reply.id in db.deliveries && (db.deliveries[reply.id].runId != run || db.deliveries[reply.id].text != reply.text))
    || exists d :: d in db.deliveries && db.deliveries[d].runId == run && db.deliveries[d].text != reply.text
  }

  /** Deliveries of connector c that are still to be sent. */
  ghost function ToSend(db: DB, c: Str): set<Str> {
    set d | d in db.deliveries && OwnedBy(db, d, c) && db.deliveries[d].state in {Pending, Leased}
  }

  lemma ToSendIsUnresolved(db: DB, c: Str)
    ensures ToSend(db, c) == UnresolvedOf(db.runs, db.deliveries, c)
  {
  }

  /** The reply would be a new one, and its connector has as many deliveries to send as it may. */
  ghost predicate Full(cfg: Config, db: DB, run: Str, reply: DeliveryInput) {
    && reply.id !in db.deliveries && (forall d :: d in db.deliveries ==> db.deliveries[d].runId != run) && run in db.runs
    && |ToSend(db, db.runs[run].origin.scope.connector)| >= cfg.maxPending
  }

  /** A row never leased, claimable from its creation on. */
  predicate Unsent(d: Delivery, now: int) {
    && d.state == Pending && d.availableAt == now && d.createdAt == now && d.attempts == 0
    && d.leaseToken == [] && d.leaseExpires.None? && d.providerRef == [] && d.failure.None?
  }

  /** A reply that is in ends up as the Run's one answer, newly unsent if it was not there; every other delivery stays. */
  ghost predicate Inserts(cfg: Config, db: DB, run: Str, reply: DeliveryInput, now: int, step: UnitStep) {
    && (step.result.Done? <==> !Clashes(db, run, reply) && !Full(cfg, db, run, reply))
    && (step.result.Done? ==> Answered(step.db.deliveries, run, reply.text))
    && (step.result.Refused? ==> step.db == db)
    && (step.result == Refused(Conflict) <==> Clashes(db, run, reply))
    && (step.result == Refused(QuotaExceeded) <==> Full(cfg, db, run, reply))
    && step.db == db.(deliveries := step.db.deliveries)
    && (forall d :: d in db.deliveries ==> d in step.db.deliveries && step.db.deliveries[d] == db.deliveries[d])
    && (forall d :: d in step.db.deliveries ==> d in db.deliveries || (d == reply.id && Unsent(step.db.deliveries[d], now)))
  }

  lemma InsertVerdict(cfg: Config, db: DB, run: Str, reply: DeliveryInput, now: int, step: UnitStep)
    requires DeliveriesLinked(db.runs, db.deliveries) && run in db.runs && step == InsertDelivery(cfg, db, run, reply, now)
    ensures Inserts(cfg, db, run, reply, now, step)
  {
    ToSendIsUnresolved(db, db.runs[run].origin.scope.connector);
    if reply.id in db.deliveries && db.deliveries[reply.id].runId == run && db.deliveries[reply.id].text == reply.text {
      assert Answers(db.deliveries, reply.id, run, reply.text);
    } else if HasDelivery(db.deliveries, run) {
      var d :| d in db.deliveries && db.deliveries[d].runId == run;
      if db.deliveries[d].text == reply.text { assert Answers(db.deliveries, d, run, reply.text); }
    } else if step.result.Done? {
      assert Answers(step.db.deliveries, reply.id, run, reply.text);
    }
  }

  // ---- Claims ----

  /** When a lease taken now runs out, counted in whole milliseconds. */
  function RunsOut(now: int, leaseNs: int): int { now + leaseNs / NS_PER_MS }

  /** The lease ran out by now. */
  predicate LeaseLapsed(d: Delivery, now: int) { d.state == Leased && d.leaseExpires.Some? && d.leaseExpires.value <= now }

  /** A delivery of connector c that nobody holds at this time and that may be sent. */
  ghost predicate Due(db: DB, d: Str, c: Str, now: int) {
    && d in db.deliveries && db.deliveries[d].runId in db.runs && db.runs[db.deliveries[d].runId].origin.scope.connector == c
    && (db.deliveries[d].state == Pending || LeaseLapsed(db.deliveries[d], now)) && db.deliveries[d].availableAt <= now
  }

  /** Delivery d goes before delivery e: available earlier, then created earlier, then the smaller ID. */
  ghost predicate Before(deliveries: map<Str, Delivery>, d: Str, e: Str)
    requires d in deliveries && e in deliveries
  {
    || deliveries[d].availableAt < deliveries[e].availableAt
    || (deliveries[d].availableAt == deliveries[e].availableAt
        && (deliveries[d].createdAt < deliveries[e].createdAt
            || (deliveries[d].createdAt == deliveries[e].createdAt && Less(d, e))))
  }

  /** The first due deliveries, in order, as many as the limit allows. */
  ghost predicate DueBatch(db: DB, c: Str, now: int, limit: int, ids: seq<Str>) {
    && |ids| <= limit
    && (forall n :: 0 <= n < |ids| ==> Due(db, ids[n], c, now))
    && (forall m, n :: 0 <= m < n < |ids| ==> Before(db.deliveries, ids[m], ids[n]))
    && (forall d :: Due(db, d, c, now) && d !in ids ==> |ids| == limit && forall n :: 0 <= n < |ids| ==> Before(db.deliveries, ids[n], d))
  }

  predicate LeaseArguments(c: Str, limit: int, leaseNs: int, now: int, expires: int) {
    ValidIdentifier(c, MAX_ID_BYTES) && 1 <= limit <= MAX_CLAIM_LIMIT && ValidLease(leaseNs) && now > 0 && expires <= MAX_INT64
  }

  predicate GoodTokens(tokens: seq<Str>, n: nat) { n <= |tokens| && forall k :: 0 <= k < n ==> ValidIdentifier(tokens[k], MAX_ID_BYTES) }

  /** The columns that no claim touches. */
  predicate SameMessage(before: Delivery, after: Delivery) {
    && after.runId == before.runId && after.text == before.text && after.createdAt == before.createdAt
    && after.availableAt == before.availableAt && after.providerRef == before.providerRef && after.failure == before.failure
  }

  predicate HandedOut(before: Delivery, after: Delivery, token: Str, expires: int) {
    && SameMessage(before, after) && after.state == Leased && after.leaseToken == token && after.leaseExpires == Some(expires)
    && after.attempts == before.attempts + 1
  }

  predicate TakenBack(before: Delivery, after: Delivery) {
    && SameMessage(before, after) && after.state == Pending && after.leaseToken == [] && after.leaseExpires.None?
    && after.attempts == before.attempts
  }

  /** A row that the claim does not return: its lapsed lease is taken back if it is the connector's, and it is left alone otherwise. */
  ghost predicate LeftOver(db: DB, d: Str, c: Str, now: int, after: Delivery)
    requires d in db.deliveries
  {
    if OwnedBy(db, d, c) && LeaseLapsed(db.deliveries[d], now) then TakenBack(db.deliveries[d], after) else after == db.deliveries[d]
  }

  ghost predicate LeasesRows(db: DB, c: Str, ids: seq<Str>, tokens: seq<Str>, expires: int, now: int, after: DB) {
    && after == db.(deliveries := after.deliveries) && after.deliveries.Keys == db.deliveries.Keys && |ids| <= |tokens|
    && (forall n :: 0 <= n < |ids| ==> ids[n] in db.deliveries && HandedOut(db.deliveries[ids[n]], after.deliveries[ids[n]], tokens[n], expires))
    && (forall d :: d in db.deliveries && d !in ids ==> LeftOver(db, d, c, now, after.deliveries[d]))
  }

  /**
   The claim returns the first due deliveries, each leased under its own token with one attempt more. It fails,
   changing nothing, exactly when its arguments are bad or the tokens drawn do not suffice for that batch.
   */
  ghost predicate LeasesOut(db: DB, c: Str, limit: int, leaseNs: int, tokens: seq<Str>, now: int, expires: int, step: LeaseStep) {
    match step.result
    case LeasedBatch(ids) =>
      && LeaseArguments(c, limit, leaseNs, now, expires) && DueBatch(db, c, now, limit, ids) && GoodTokens(tokens, |ids|)
      && LeasesRows(db, c, ids, tokens, expires, now, step.db)
    case LeaseFailed(error) =>
      && step.db == db && error in {Invalid, Internal}
      && (LeaseArguments(c, limit, leaseNs, now, expires) ==> exists ids :: DueBatch(db, c, now, limit, ids) && !GoodTokens(tokens, |ids|))
  }

  lemma DueIsClaimable(db: DB, c: Str, now: int, released: DB, d: Str)
    requires released == db.(deliveries := ReleaseLeases(db, c, now))
    ensures Due(db, d, c, now) <==> d in ClaimableIds(released, c, now)
  {
  }

  lemma ReleasedRow(db: DB, c: Str, now: int, d: Str)
    requires d in db.deliveries
    ensures d in ReleaseLeases(db, c, now) && LeftOver(db, d, c, now, ReleaseLeases(db, c, now)[d])
    ensures SameMessage(db.deliveries[d], ReleaseLeases(db, c, now)[d]) && ReleaseLeases(db, c, now)[d].attempts == db.deliveries[d].attempts
  {
  }

  lemma RanksAreBefore(db: DB, c: Str, now: int, released: map<Str, Delivery>, d: Str, e: Str)
    requires released == ReleaseLeases(db, c, now) && d in db.deliveries && e in db.deliveries
    ensures RankLess(ClaimRanks(released)[d], ClaimRanks(released)[e]) <==> Before(db.deliveries, d, e)
  {
    ReleasedRow(db, c, now, d);
    ReleasedRow(db, c, now, e);
  }

  lemma BatchIsDue(db: DB, c: Str, now: int, limit: nat, released: DB, ids: seq<Str>)
    requires released == db.(deliveries := ReleaseLeases(db, c, now)) && ids == ClaimBatch(released, c, now, limit)
    ensures DueBatch(db, c, now, limit, ids)
  {
    var ranks, claimable := ClaimRanks(released.deliveries), ClaimableIds(released, c, now);
    FirstNIsOrdered(ranks, claimable, limit);
    forall n | 0 <= n < |ids| ensures Due(db, ids[n], c, now) { DueIsClaimable(db, c, now, released, ids[n]); }
    forall m, n | 0 <= m < n < |ids| ensures Before(db.deliveries, ids[m], ids[n]) {
      RanksAreBefore(db, c, now, released.deliveries, ids[m], ids[n]);
    }
    forall d | Due(db, d, c, now) && d !in ids ensures |ids| == limit && forall n :: 0 <= n < |ids| ==> Before(db.deliveries, ids[n], d) {
      DueIsClaimable(db, c, now, released, d);
      forall n | 0 <= n < |ids| ensures Before(db.deliveries, ids[n], d) { RanksAreBefore(db, c, now, released.deliveries, ids[n], d); }
    }
  }

  lemma BatchIsLeased(db: DB, c: Str, ids: seq<Str>, tokens: seq<Str>, expires: int, now: int, released: map<Str, Delivery>, after: DB)
    requires released == ReleaseLeases(db, c, now) && |ids| <= |tokens| && forall n :: 0 <= n < |ids| ==> ids[n] in released
    requires forall m, n :: 0 <= m < n < |ids| ==> ids[m] != ids[n]
    requires after == db.(deliveries := LeaseAll(released, ids, tokens, expires, now))
    ensures LeasesRows(db, c, ids, tokens, expires, now, after)
  {
    LeaseAllRows(released, ids, tokens, expires, now);
    forall d | d in db.deliveries ensures d !in ids ==> LeftOver(db, d, c, now, after.deliveries[d]) { ReleasedRow(db, c, now, d); }
    forall n | 0 <= n < |ids| ensures HandedOut(db.deliveries[ids[n]], after.deliveries[ids[n]], tokens[n], expires) {
      ReleasedRow(db, c, now, ids[n]);
    }
  }

  /** No row goes before itself, so a batch holds no row twice. */
  lemma BatchIsDistinct(db: DB, c: Str, now: int, limit: int, ids: seq<Str>, m: nat, n: nat)
    requires DueBatch(db, c, now, limit, ids) && m < n < |ids|
    ensures ids[m] != ids[n]
  {
    assert Before(db.deliveries, ids[m], ids[n]);
    LessIsTotal(ids[m], ids[m]);
  }

  lemma TransactionLeases(db: DB, c: Str, limit: nat, tokens: seq<Str>, expires: int, now: int, step: LeaseStep)
    requires step == LeaseReleased(db, c, limit, tokens, expires, now)
    ensures match step.result
      case LeasedBatch(ids) => DueBatch(db, c, now, limit, ids) && GoodTokens(tokens, |ids|) && LeasesRows(db, c, ids, tokens, expires, now, step.db)
      case LeaseFailed(error) => step.db == db && error in {Invalid, Internal} && exists ids :: DueBatch(db, c, now, limit, ids) && !GoodTokens(tokens, |ids|)
  {
    var released := db.(deliveries := ReleaseLeases(db, c, now));
    var ids := ClaimBatch(released, c, now, limit);
    BatchIsDue(db, c, now, limit, released, ids);
    if step.result.LeasedBatch? {
      forall m, n | 0 <= m < n < |ids| ensures ids[m] != ids[n] { BatchIsDistinct(db, c, now, limit, ids, m, n); }
      BatchIsLeased(db, c, ids, tokens, expires, now, released.deliveries, step.db);
    }
  }

  lemma LeaseVerdict(db: DB, c: Str, limit: int, leaseNs: int, tokens: seq<Str>, now: int, expires: int, step: LeaseStep)
    requires step == Lease(db, c, limit, leaseNs, tokens, now) && expires == RunsOut(now, leaseNs)
    ensures LeasesOut(db, c, limit, leaseNs, tokens, now, expires, step)
  {
    LeaseSplits(db, c, limit, leaseNs, tokens, now, expires, step);
    if LeaseArguments(c, limit, leaseNs, now, expires) { TransactionLeases(db, c, limit, tokens, expires, now, step); }
  }

  // ---- Completions ----

  /** The row records the outcome that the completion reports. */
  predicate RecordsOutcome(d: Delivery, i: CompleteInput) {
    match i.outcome
    case OutcomeDelivered => d.state == Delivered && d.providerRef == i.providerRef
    case OutcomeRetry => d.state == Pending && d.failure == i.failure
    case OutcomePermanentFailure => d.state == PermanentFailed && d.failure == i.failure
  }

  /** The row after a completion of its lease; only a retry moves the time it is available. */
  predicate Resolves(cfg: Config, before: Delivery, i: CompleteInput, now: int, after: Delivery) {
    && RecordsOutcome(after, i) && after.leaseToken == before.leaseToken && after.leaseExpires.None?
    && after.attempts == before.attempts && after.runId == before.runId && after.text == before.text && after.createdAt == before.createdAt
    && after.availableAt == (if i.outcome.OutcomeRetry? then RetryAt(cfg, before.attempts, now) else before.availableAt)
    && (after.providerRef == if i.outcome.OutcomeDelivered? then i.providerRef else before.providerRef)
    && after.failure == i.failure
  }

  /** The completion comes under the row's own token. */
  ghost predicate Presents(db: DB, i: CompleteInput) {
    OwnedBy(db, i.deliveryId, i.connector) && db.deliveries[i.deliveryId].leaseToken == i.token
  }

  /** A completion of a live lease resolves the row; one repeated is accepted exactly if the row records it, and conflicts otherwise. */
  ghost predicate CompletesAs(cfg: Config, db: DB, i: CompleteInput, now: int, step: UnitStep) {
    var ok, d := now > 0 && ValidCompletion(i), i.deliveryId;
    && (step.result == Refused(NotFound) <==> ok && !OwnedBy(db, d, i.connector))
    && (step.result == Refused(Conflict) <==> ok && Presents(db, i) && db.deliveries[d].state != Leased && !RecordsOutcome(db.deliveries[d], i))
    && (step.result == Refused(LeaseLost) <==>
          ok && OwnedBy(db, d, i.connector) && (db.deliveries[d].leaseToken != i.token
            || (db.deliveries[d].state == Leased && (db.deliveries[d].leaseExpires.None? || db.deliveries[d].leaseExpires.value <= now))))
    && (step.result.Done? <==> ok && Presents(db, i) && (RecordsOutcome(db.deliveries[d], i) || LeaseCompletes(cfg, db.deliveries[d], i, now)))
    && (step.result.Refused? ==> step.db == db)
    && (step.result.Done? ==>
          if db.deliveries[d].state != Leased then step.db == db
          else step.db == db.(deliveries := step.db.deliveries) && d in step.db.deliveries
               && step.db.deliveries == db.deliveries[d := step.db.deliveries[d]] && Resolves(cfg, db.deliveries[d], i, now, step.db.deliveries[d]))
  }

  /** The lease is live, and a retry has a time to go to. */
  predicate LeaseCompletes(cfg: Config, d: Delivery, i: CompleteInput, now: int) {
    && d.state == Leased && d.leaseExpires.Some? && d.leaseExpires.value > now
    && (i.outcome.OutcomeRetry? ==> RetryAt(cfg, d.attempts, now) > now)
  }

  lemma CompletedResolves(cfg: Config, d: Delivery, i: CompleteInput, now: int)
    requires ValidCompletion(i) && d.providerRef == []
    ensures Resolves(cfg, d, i, now, CompletedDelivery(cfg, d, i, now))
  {
  }

  lemma CompleteVerdict(cfg: Config, db: DB, i: CompleteInput, now: int, step: UnitStep)
    requires DeliveryShapes(db.deliveries) && step == Complete(cfg, db, i, now)
    ensures CompletesAs(cfg, db, i, now, step)
  {
    if ValidCompletion(i) && i.deliveryId in db.deliveries && db.deliveries[i.deliveryId].state == Leased {
      CompletedResolves(cfg, db.deliveries[i.deliveryId], i, now);
    }
  }

  /** A batch of this limit returns delivery d exactly if it is due and not behind a full batch of others. */
  ghost predicate Offered(db: DB, d: Str, limit: int, ids: seq<Str>, due: bool) {
    && (!due ==> d !in ids)
    && (due && d !in ids ==>
          && |ids| == limit && d in db.deliveries
          && (forall n :: 0 <= n < |ids| ==> ids[n] in db.deliveries && Before(db.deliveries, ids[n], d)))
  }

  /**
   A delivery whose retry was accepted comes back through the claims: a claim of its connector returns it at no
   time before the retry time, and from then on returns it, or as many deliveries as it may, all of them before it.
   */
  lemma RetriedComesBack(cfg: Config, db: DB, i: CompleteInput, now: int, at: int, retried: DB,
                         limit: int, leaseNs: int, tokens: seq<Str>, later: int, batch: LeaseStep)
    requires ValidConfig(cfg) && 0 < now <= MAX_INT64 && i.outcome.OutcomeRetry? && HoldsLease(db, i, now)
    requires at == now + RetryDelay(cfg, db.deliveries[i.deliveryId].attempts) <= MAX_INT64 && retried == Complete(cfg, db, i, now).db
    requires batch == Lease(retried, i.connector, limit, leaseNs, tokens, later) && batch.result.LeasedBatch?
    ensures Offered(retried, i.deliveryId, limit, batch.result.ids, at <= later)
  {
    RetryBecomesClaimable(cfg, db, i, now, later);
    assert Due(retried, i.deliveryId, i.connector, later) <==> at <= later;
    LeaseVerdict(retried, i.connector, limit, leaseNs, tokens, later, RunsOut(later, leaseNs), batch);
    BatchOffers(retried, i.deliveryId, i.connector, later, limit, batch.result.ids);
  }

  lemma BatchOffers(db: DB, d: Str, c: Str, now: int, limit: int, ids: seq<Str>)
    requires DueBatch(db, c, now, limit, ids)
    ensures Offered(db, d, limit, ids, Due(db, d, c, now))
  {
    if d in ids { var n :| 0 <= n < |ids| && ids[n] == d; }
  }

  // ---- Offline maintenance ----

  /** Some Run that has not ended works in this scope. */
  ghost predicate InUse(runs: map<Str, Run>, key: SessionKey) { exists r :: r in runs && Live(runs[r]) && runs[r].origin.scope == key }

  /** The session goes exactly when it is the expected one of a scope where no Run is live; every other session stays. */
  ghost predicate Resets(db: DB, key: SessionKey, expected: Str, step: ResetStep) {
    var ok := ValidSessionKey(key) && ValidSessionRef(expected);
    && (step.result == ResetRefused(SessionScopeBusy) <==> ok && InUse(db.runs, key))
    && (step.result == ResetNotFound <==> ok && !InUse(db.runs, key) && CurrentRef(db.sessions, key).None?)
    && (step.result == ResetRefMismatch <==>
          ok && !InUse(db.runs, key) && CurrentRef(db.sessions, key).Some? && CurrentRef(db.sessions, key) != Some(expected))
    && (step.result.ResetDone? <==> ok && !InUse(db.runs, key) && CurrentRef(db.sessions, key) == Some(expected))
    && CurrentRef(step.db.sessions, key) == (if step.result.ResetDone? then None else CurrentRef(db.sessions, key))
    && (forall k :: k != key ==> CurrentRef(step.db.sessions, k) == CurrentRef(db.sessions, k))
    && step.db == db.(sessions := step.db.sessions)
  }

  lemma ResetVerdict(db: DB, key: SessionKey, expected: Str, step: ResetStep)
    requires step == Reset(db, key, expected)
    ensures Resets(db, key, expected, step)
  {
  }
}
