/**
 Exactly what each transaction on the Runs answers and writes, told from the rows it finds, column by column.
 */
module StoreVerdicts {
  import opened GoTypes
  import opened Ordering
  import opened StoreTypes
  import opened StoreSteps
  import opened StoreInvariant
  import opened StoreHistory
  import opened StoreReplies
  import opened OutboxVerdicts

  // ---- Eviction and replay ----

  /** The Run is of connector c, has ended, and nothing refers to it but resolved deliveries. */
  ghost predicate Spent(db: DB, receipts: map<EventKey, Receipt>, c: Str, r: Str) {
    && r in db.runs && db.runs[r].origin.scope.connector == c && Terminal(db.runs[r].state) && !HasReceipt(receipts, r)
    && forall d :: d in db.deliveries && db.deliveries[d].runId == r ==> Resolved(db.deliveries[d])
  }

  /** The horizon moves to the last millisecond that the receipt window leaves out, but never back and never before zero. */
  ghost predicate HorizonAt(cfg: Config, horizons: map<Str, int>, c: Str, now: int, h: int) {
    var edge := now * NS_PER_MS - cfg.receiptWindow;
    && (h + 1) * NS_PER_MS > edge && h >= 0 && (c in horizons ==> h >= horizons[c])
    && (h == 0 || (c in horizons && h == horizons[c]) || h * NS_PER_MS <= edge)
  }

  lemma EvictedHorizon(cfg: Config, horizons: map<Str, int>, c: Str, now: int)
    ensures HorizonAt(cfg, horizons, c, now, AdvanceHorizon(horizons, c, Cutoff(cfg, now))[c])
  {
  }

  /** Eviction drops exactly the receipts up to the horizon, then exactly the spent Runs, each with its delivery. */
  ghost predicate Evicts(cfg: Config, db: DB, c: Str, now: int, after: DB) {
    && Shrinks(db, after) && c in after.horizons
    && HorizonAt(cfg, db.horizons, c, now, after.horizons[c])
    && (forall k :: k in after.horizons && k != c ==> k in db.horizons && after.horizons[k] == db.horizons[k])
    && (forall k :: k in db.receipts ==> (k in after.receipts <==> k.connector != c || db.receipts[k].occurredAt > after.horizons[c]))
    && (forall r :: r in db.runs ==> (r in after.runs <==> !Spent(db, after.receipts, c, r)))
    && (forall d :: d in db.deliveries ==> (d in after.deliveries <==> db.deliveries[d].runId in after.runs))
  }

  lemma SpentRunGoes(cfg: Config, db: DB, c: Str, now: int, after: DB, r: Str)
    requires DeliveriesLinked(db.runs, db.deliveries) && after == Evict(cfg, db, c, now) && r in db.runs
    ensures r in after.runs <==> !Spent(db, after.receipts, c, r)
  {
    if Compactable(db.runs, after.receipts, c, r) && HasDelivery(after.deliveries, r) {
      var d :| d in after.deliveries && after.deliveries[d].runId == r;
      assert !Resolved(db.deliveries[d]);
    }
    if r !in after.runs {
      forall d | d in db.deliveries && db.deliveries[d].runId == r ensures Resolved(db.deliveries[d]) {
        assert d in after.deliveries ==> HasDelivery(after.deliveries, r);
      }
    }
  }

  lemma DeliveryGoesWithItsRun(cfg: Config, db: DB, c: Str, now: int, after: DB, d: Str)
    requires DeliveriesLinked(db.runs, db.deliveries) && after == Evict(cfg, db, c, now) && d in db.deliveries
    ensures d in after.deliveries <==> db.deliveries[d].runId in after.runs
  {
    EvictionIsTogether(cfg, db, c, now);
    if d in after.deliveries { assert HasDelivery(after.deliveries, db.deliveries[d].runId); }
  }

  lemma EvictVerdict(cfg: Config, db: DB, c: Str, now: int, after: DB)
    requires DeliveriesLinked(db.runs, db.deliveries) && after == Evict(cfg, db, c, now)
    ensures Evicts(cfg, db, c, now, after)
  {
    EvictedHorizon(cfg, db.horizons, c, now);
    EvictShrinks(cfg, db, c, now);
    forall r | r in db.runs ensures r in after.runs <==> !Spent(db, after.receipts, c, r) { SpentRunGoes(cfg, db, c, now, after, r); }
    forall d | d in db.deliveries ensures d in after.deliveries <==> db.deliveries[d].runId in after.runs {
      DeliveryGoesWithItsRun(cfg, db, c, now, after, d);
    }
  }

  /** A receipt speaks for the event it was written for: its own payload finds that event's Run, another conflicts. */
  ghost predicate Replays(begun: DB, db: DB, i: IngestInput, step: IngestStep) {
    var k := EventKey(i.connector, i.eventId);
    && k in db.receipts
    && var receipt := db.receipts[k];
       if receipt.hashVersion != 1 && receipt.hashVersion != 2 then step == IngestStep(begun, IngestRefused(Internal))
       else
         && step.db == db
         && (step.result == IngestRefused(Conflict) || step.result.Duplicate?)
         && (step.result.Duplicate? <==> receipt.hash == if receipt.hashVersion == 1 then i.legacyHash else i.payloadHash)
         && (step.result.Duplicate? ==>
               && step.result.id == receipt.runId && receipt.runId in db.runs && step.result.run == db.runs[receipt.runId]
               && step.result.run.origin.eventId == i.eventId && step.result.run.origin.scope.connector == i.connector)
  }

  lemma ReplayVerdict(begun: DB, db: DB, i: IngestInput)
    requires ReceiptsLinked(db.runs, db.receipts, db.horizons) && EventKey(i.connector, i.eventId) in db.receipts
    ensures Replays(begun, db, i, Replay(begun, db, i))
  {
  }

  // ---- Admission ----

  /** The limits that one more admission may use up. */
  ghost predicate WithinLimits(cfg: Config, db: DB, c: Str) {
    && |ReceiptsOf(db.receipts, c)| <= cfg.maxReceipts && |QueuedOf(db.runs, c)| <= cfg.maxQueued
    && |LiveOf(db.runs, c)| <= cfg.maxNonterminal && InputBytes(db.runs, RunsOf(db.runs, c)) <= cfg.maxInputBytes
  }

  /** The event lies outside the window that the clock and the horizon leave; the clock is compared in nanoseconds. */
  ghost predicate OutOfWindow(cfg: Config, db: DB, i: IngestInput, now: int)
    requires i.connector in db.horizons
  {
    || i.occurredAt * NS_PER_MS > now * NS_PER_MS + cfg.futureSkew
    || (i.occurredAt + 1) * NS_PER_MS <= now * NS_PER_MS - cfg.acceptWindow
    || i.occurredAt <= db.horizons[i.connector]
  }

  lemma ShiftIsExact(now: int, offset: int, t: int)
    ensures t > ShiftMillis(now, offset) <==> t * NS_PER_MS > now * NS_PER_MS + offset
    ensures t < ShiftMillis(now, offset) <==> (t + 1) * NS_PER_MS <= now * NS_PER_MS + offset
  {
  }

  /** The six columns of a session are those of this event under this authorization. */
  predicate InScope(k: SessionKey, i: IngestInput, a: Authorization) {
    && k.binding == a.binding && k.connector == i.connector && k.actor == i.actor && k.conversation == i.conversation
    && k.targetId == a.targetId && k.targetRevision == a.targetRevision
  }

  /** A Run that has not ended works for the same actor in the same conversation, under the same binding and target. */
  ghost predicate Occupied(runs: map<Str, Run>, i: IngestInput, a: Authorization) {
    exists r :: r in runs && Live(runs[r]) && InScope(runs[r].origin.scope, i, a)
  }

  /** One more event fits every limit of its connector. */
  ghost predicate HasRoom(cfg: Config, db: DB, i: IngestInput, pagesFull: bool) {
    var own := set r | r in db.runs && db.runs[r].origin.scope.connector == i.connector;
    && |set k | k in db.receipts && k.connector == i.connector| + 1 <= cfg.maxReceipts
    && |set r | r in own && db.runs[r].state == Queued| + 1 <= cfg.maxQueued
    && |set r | r in own && db.runs[r].state in {Queued, Dispatching, Running}| + 1 <= cfg.maxNonterminal
    && |ToSend(db, i.connector)| + 1 <= cfg.maxPending
    && InputBytes(db.runs, own) + |i.text| <= cfg.maxInputBytes && !pagesFull
  }

  lemma RoomIsCapacity(cfg: Config, db: DB, i: IngestInput, pagesFull: bool)
    ensures HasRoom(cfg, db, i, pagesFull) <==> HasCapacity(cfg, db, i.connector, |i.text|, pagesFull)
  {
    var c := i.connector;
    var own := set r | r in db.runs && db.runs[r].origin.scope.connector == c;
    assert own == RunsOf(db.runs, c);
    assert (set k | k in db.receipts && k.connector == c) == ReceiptsOf(db.receipts, c);
    assert (set r | r in own && db.runs[r].state == Queued) == QueuedOf(db.runs, c);
    assert (set r | r in own && db.runs[r].state in {Queued, Dispatching, Running}) == LiveOf(db.runs, c);
    ToSendIsUnresolved(db, c);
  }

  /** The event may come in as far as its time and the authorizer say. */
  ghost predicate Welcome(cfg: Config, db: DB, i: IngestInput, env: IngestEnv)
    requires i.connector in db.horizons
  {
    !OutOfWindow(cfg, db, i, env.now) && env.auth.Some? && ValidAuthorization(env.auth.value)
  }

  /** A queued Run as no claim has seen it yet. */
  predicate Unclaimed(run: Run) {
    && run.state == Queued && run.dispatchToken == [] && run.dispatchExpires.None? && run.attempts == 0 && !run.prepared
    && run.startSession.None? && run.output.None? && run.failure.None? && run.resultSession.None?
  }

  /** The Run made from the event joins the store with its receipt, and nothing else changes. */
  ghost predicate Joins(db: DB, after: DB, a: Admission) {
    && a.runId !in db.runs && a.runId in after.runs && after.runs == db.runs[a.runId := after.runs[a.runId]]
    && MadeFrom(after.runs[a.runId], a) && Unclaimed(after.runs[a.runId])
    && after.receipts == db.receipts[EventKey(a.event.connector, a.event.eventId)
                                     := Receipt(a.event.payloadHash, 2, a.runId, a.event.occurredAt, a.at)]
    && after.deliveries == db.deliveries && after.sessions == db.sessions && after.horizons == db.horizons
  }

  /**
   Admission of an event without a receipt; db is the store after eviction, begun the one before. Each answer has its
   exact condition. A created Run is made from its event, has its scope for itself, and leaves the connector within
   its limits; a refusal commits the eviction alone, or undoes it when something invalid was handed in.
   */
  ghost predicate Admits(cfg: Config, begun: DB, db: DB, i: IngestInput, env: IngestEnv, step: IngestStep)
    requires i.connector in db.horizons
  {
    var welcome := Welcome(cfg, db, i, env);
    && (step.result == IngestRefused(EventExpired) <==> OutOfWindow(cfg, db, i, env.now))
    && (step.result == IngestRefused(NotAuthorizedEvent) <==> !OutOfWindow(cfg, db, i, env.now) && env.auth.None?)
    && (step.result == IngestRefused(SessionScopeBusy) <==> welcome && Occupied(db.runs, i, env.auth.value))
    && (step.result == IngestRefused(QuotaExceeded) <==>
          welcome && !Occupied(db.runs, i, env.auth.value) && !HasRoom(cfg, db, i, env.pagesFull))
    && (step.result.Created? <==>
          welcome && !Occupied(db.runs, i, env.auth.value) && HasRoom(cfg, db, i, env.pagesFull)
          && env.newRunId.Some? && ValidIdentifier(env.newRunId.value, MAX_ID_BYTES) && env.newRunId.value !in db.runs)
    && !step.result.Duplicate?
    && (step.result.IngestRefused? ==> step.db == if step.result.error in {Invalid, Conflict} then begun else db)
    && (step.result.Created? ==>
          && Some(step.result.runId) == env.newRunId && Joins(db, step.db, Admission(i, env.auth.value, env.now, step.result.runId))
          && WithinLimits(cfg, step.db, i.connector))
  }

  lemma OccupiedIsBusy(runs: map<Str, Run>, i: IngestInput, a: Authorization, now: int)
    ensures ScopeBusy(runs, NewRun(i, a, now).origin.scope) <==> Occupied(runs, i, a)
  {
  }

  lemma AdmitAnswers(cfg: Config, begun: DB, db: DB, i: IngestInput, env: IngestEnv, step: IngestStep, welcome: bool)
    requires i.connector in db.horizons && step == Admit(cfg, begun, db, i, env) && welcome == Welcome(cfg, db, i, env)
    ensures step.result == IngestRefused(EventExpired) <==> OutOfWindow(cfg, db, i, env.now)
    ensures step.result == IngestRefused(NotAuthorizedEvent) <==> !OutOfWindow(cfg, db, i, env.now) && env.auth.None?
    ensures step.result == IngestRefused(SessionScopeBusy) <==> welcome && Occupied(db.runs, i, env.auth.value)
    ensures step.result == IngestRefused(QuotaExceeded) <==>
          welcome && !Occupied(db.runs, i, env.auth.value) && !HasRoom(cfg, db, i, env.pagesFull)
    ensures step.result.Created? <==>
          welcome && !Occupied(db.runs, i, env.auth.value) && HasRoom(cfg, db, i, env.pagesFull)
          && env.newRunId.Some? && ValidIdentifier(env.newRunId.value, MAX_ID_BYTES) && env.newRunId.value !in db.runs
    ensures !step.result.Duplicate?
    ensures step.result.IngestRefused? ==> step.db == if step.result.error in {Invalid, Conflict} then begun else db
    ensures step.result.Created? ==> Some(step.result.runId) == env.newRunId && step.db == AddRun(db, i, env.auth.value, step.result.runId, env.now)
  {
    ShiftIsExact(env.now, cfg.futureSkew, i.occurredAt);
    ShiftIsExact(env.now, -cfg.acceptWindow, i.occurredAt);
    if env.auth.Some? { OccupiedIsBusy(db.runs, i, env.auth.value, env.now); }
    RoomIsCapacity(cfg, db, i, env.pagesFull);
  }

  lemma OneMoreRun(runs: map<Str, Run>, id: Str, run: Run, c: Str, after: map<Str, Run>)
    requires id !in runs && run.state == Queued && run.origin.scope.connector == c && after == runs[id := run]
    ensures |QueuedOf(after, c)| <= |QueuedOf(runs, c)| + 1 && |LiveOf(after, c)| <= |LiveOf(runs, c)| + 1
  {
    assert QueuedOf(after, c) == QueuedOf(runs, c) + {id};
    assert LiveOf(after, c) == LiveOf(runs, c) + {id};
  }

  lemma AddedWithinLimits(cfg: Config, db: DB, i: IngestInput, a: Authorization, id: Str, now: int, after: DB)
    requires id !in db.runs && HasRoom(cfg, db, i, false) && after == AddRun(db, i, a, id, now)
    ensures WithinLimits(cfg, after, i.connector)
  {
    RoomIsCapacity(cfg, db, i, false);
    OneMoreRun(db.runs, id, NewRun(i, a, now), i.connector, after.runs);
    AddRunToBytes(db.runs, id, NewRun(i, a, now), i.connector);
    AddReceiptCount(db.receipts, EventKey(i.connector, i.eventId), Receipt(i.payloadHash, 2, id, i.occurredAt, now), i.connector);
  }

  lemma AddedJoins(db: DB, i: IngestInput, a: Authorization, id: Str, now: int, after: DB)
    requires id !in db.runs && after == AddRun(db, i, a, id, now)
    ensures Joins(db, after, Admission(i, a, now, id))
  {
  }

  lemma AdmitVerdict(cfg: Config, begun: DB, db: DB, i: IngestInput, env: IngestEnv, step: IngestStep)
    requires i.connector in db.horizons && step == Admit(cfg, begun, db, i, env)
    ensures Admits(cfg, begun, db, i, env, step)
  {
    AdmitAnswers(cfg, begun, db, i, env, step, Welcome(cfg, db, i, env));
    if step.result.Created? {
      AddedWithinLimits(cfg, db, i, env.auth.value, step.result.runId, env.now, step.db);
      AddedJoins(db, i, env.auth.value, step.result.runId, env.now, step.db);
    }
  }

  /** An ingest evicts; then the event's receipt decides, or the admission of a new event does. */
  ghost predicate IngestsAs(cfg: Config, db: DB, i: IngestInput, env: IngestEnv, evicted: DB, step: IngestStep) {
    if !ValidIngest(i) || env.now <= 0 then step == IngestStep(db, IngestRefused(Invalid))
    else
      && Evicts(cfg, db, i.connector, env.now, evicted)
      && if EventKey(i.connector, i.eventId) in evicted.receipts then Replays(db, evicted, i, step)
         else Admits(cfg, db, evicted, i, env, step)
  }

  lemma IngestVerdict(cfg: Config, db: DB, i: IngestInput, env: IngestEnv, evicted: DB, step: IngestStep)
    requires LinksInv(db) && evicted == Evict(cfg, db, i.connector, env.now) && step == Ingest(cfg, db, i, env)
    ensures IngestsAs(cfg, db, i, env, evicted, step)
  {
    EvictVerdict(cfg, db, i.connector, env.now, evicted);
    EvictKeepsLinks(cfg, db, i.connector, env.now);
    if ValidIngest(i) && env.now > 0 {
      if EventKey(i.connector, i.eventId) in evicted.receipts { ReplayVerdict(db, evicted, i); }
      else { AdmitVerdict(cfg, db, evicted, i, env, step); }
    }
  }

  // ---- Claims ----

  /** The dispatch ran out by now. */
  predicate Lapsed(run: Run, now: int) { run.state == Dispatching && run.dispatchExpires.Some? && run.dispatchExpires.value <= now }

  /** The columns that no claim touches. */
  predicate SameWork(before: Run, after: Run) {
    && after.origin == before.origin && after.prepared == before.prepared && after.startSession == before.startSession
    && after.startDeadline == before.startDeadline && after.output == before.output && after.failure == before.failure
    && after.resultSession == before.resultSession
  }

  /** A lapsed dispatch is queued again, without its token; any other row stays. */
  predicate Relined(before: Run, after: Run, now: int) {
    if Lapsed(before, now) then
      && SameWork(before, after) && after.state == Queued && after.dispatchToken == [] && after.dispatchExpires.None?
      && after.attempts == before.attempts
    else after == before
  }

  predicate Taken(before: Run, after: Run, token: Str, expires: int) {
    && SameWork(before, after) && after.state == Dispatching && after.dispatchToken == token && after.dispatchExpires == Some(expires)
    && after.attempts == before.attempts + 1
  }

  /** Nothing is active but lapsed dispatches, and something waits. */
  ghost predicate CanClaim(runs: map<Str, Run>, now: int) {
    && (forall r :: r in runs && Active(runs[r]) ==> Lapsed(runs[r], now))
    && (exists r :: r in runs && Waits(runs[r], now))
  }

  predicate Waits(run: Run, now: int) { run.state == Queued || Lapsed(run, now) }

  /** Run r was created before Run q, or at the same time under the smaller ID. */
  predicate Older(runs: map<Str, Run>, r: Str, q: Str)
    requires r in runs && q in runs
  {
    runs[r].origin.createdAt < runs[q].origin.createdAt || (runs[r].origin.createdAt == runs[q].origin.createdAt && Less(r, q))
  }

  /** This Run is the store's one active Run. */
  ghost predicate SoleActive(runs: map<Str, Run>, id: Str) { forall r :: r in runs ==> (Active(runs[r]) <==> r == id) }

  /** Lapsed dispatches are queued again, and the Run claimed is the oldest of all that wait, now the only active one. */
  ghost predicate TakesOldest(runs: map<Str, Run>, token: Str, expires: int, now: int, id: Str, after: map<Str, Run>) {
    && after.Keys == runs.Keys && id in runs && Waits(runs[id], now) && Taken(runs[id], after[id], token, expires)
    && (forall r :: r in runs && r != id ==> Relined(runs[r], after[r], now))
    && (forall r :: r in runs && r != id && Waits(runs[r], now) ==> Older(runs, id, r))
    && SoleActive(after, id)
  }

  /** Each answer of a claim and its exact condition; end is when a lease taken now runs out. */
  ghost predicate Claims(db: DB, leaseNs: int, token: Option<Str>, now: int, end: int, step: ClaimStep) {
    var ok := ValidLease(leaseNs) && now > 0;
    && step.db == db.(runs := step.db.runs)
    && (step.result.NothingToClaim? <==> ok && !CanClaim(db.runs, now))
    && (step.result.Claimed? <==> ok && CanClaim(db.runs, now) && token.Some? && ValidIdentifier(token.value, MAX_ID_BYTES) && end <= MAX_INT64)
    && (step.result == ClaimFailed(Internal) <==> ok && CanClaim(db.runs, now) && token.None?)
    && (step.result.ClaimFailed? ==> step.db == db && step.result.error in {Invalid, Internal})
    && (step.result.NothingToClaim? ==>
          step.db.runs.Keys == db.runs.Keys && forall r :: r in db.runs ==> Relined(db.runs[r], step.db.runs[r], now))
    && (step.result.Claimed? ==>
          && step.result.id in step.db.runs && step.db.runs[step.result.id] == step.result.run
          && TakesOldest(db.runs, token.value, end, now, step.result.id, step.db.runs))
  }

  lemma ReleasedIsRelined(run: Run, now: int)
    ensures Relined(run, Release(run, now), now)
    ensures Release(run, now).state == Queued <==> Waits(run, now)
    ensures Active(Release(run, now)) <==> Active(run) && !Lapsed(run, now)
    ensures Release(run, now).origin == run.origin && SameWork(run, Release(run, now)) && Release(run, now).attempts == run.attempts
  {
  }

  lemma ReleasedRuns(runs: map<Str, Run>, now: int, released: map<Str, Run>)
    requires released == ReleaseExpired(runs, now)
    ensures released.Keys == runs.Keys && forall r :: r in runs ==> Relined(runs[r], released[r], now)
    ensures CanClaim(runs, now) <==> (forall r :: r in released ==> !Active(released[r])) && QueueHead(released).Some?
  {
    forall r | r in runs
      ensures Relined(runs[r], released[r], now) && (released[r].state == Queued <==> Waits(runs[r], now))
      ensures Active(released[r]) <==> Active(runs[r]) && !Lapsed(runs[r], now)
    {
      ReleasedIsRelined(runs[r], now);
    }
    if r :| r in runs && Waits(runs[r], now) { assert r in QueuedIds(released); }
    if QueueHead(released).Some? { assert Waits(runs[QueueHead(released).value], now); }
  }

  lemma HeadIsOldest(runs: map<Str, Run>, now: int, released: map<Str, Run>, id: Str, r: Str)
    requires released == ReleaseExpired(runs, now) && QueueHead(released) == Some(id)
    requires r in runs && Waits(runs[r], now) && r != id
    ensures id in runs && Older(runs, id, r)
  {
    ReleasedIsRelined(runs[r], now);
    assert r in QueuedIds(released);
    ReleasedIsRelined(runs[id], now);
    assert RankLess(QueueRanks(released)[id], QueueRanks(released)[r]);
  }

  lemma HeadIsTaken(runs: map<Str, Run>, token: Str, expires: int, now: int, released: map<Str, Run>, id: Str, after: map<Str, Run>)
    requires released == ReleaseExpired(runs, now) && QueueHead(released) == Some(id) && (forall r :: r in released ==> !Active(released[r]))
    requires after == released[id := ClaimedRun(released[id], token, expires, now)]
    ensures TakesOldest(runs, token, expires, now, id, after)
  {
    ReleasedRuns(runs, now, released);
    HeadRow(runs, token, expires, now, released, id);
    forall r | r in runs && r != id && Waits(runs[r], now) ensures Older(runs, id, r) { HeadIsOldest(runs, now, released, id, r); }
  }

  lemma HeadRow(runs: map<Str, Run>, token: Str, expires: int, now: int, released: map<Str, Run>, id: Str)
    requires released == ReleaseExpired(runs, now) && QueueHead(released) == Some(id)
    ensures id in runs && Waits(runs[id], now) && Taken(runs[id], ClaimedRun(released[id], token, expires, now), token, expires)
  {
    ReleasedIsRelined(runs[id], now);
  }

  lemma ClaimAnswers(db: DB, leaseNs: int, token: Option<Str>, now: int, released: map<Str, Run>, end: int, free: bool, step: ClaimStep)
    requires released == ReleaseExpired(db.runs, now) && step == Claim(db, leaseNs, token, now) && end == LeaseEnd(now, leaseNs)
    requires free == ((forall r :: r in released ==> !Active(released[r])) && QueueHead(released).Some?)
    ensures var ok := ValidLease(leaseNs) && now > 0;
      && (step.result.NothingToClaim? <==> ok && !free)
      && (step.result.Claimed? <==> ok && free && token.Some? && ValidIdentifier(token.value, MAX_ID_BYTES) && end <= MAX_INT64)
      && (step.result == ClaimFailed(Internal) <==> ok && free && token.None?)
      && (step.result.ClaimFailed? ==> step.db == db && step.result.error in {Invalid, Internal})
      && (step.result.NothingToClaim? ==> step.db == db.(runs := released))
      && (step.result.Claimed? ==>
            && QueueHead(released) == Some(step.result.id) && step.result.run == ClaimedRun(released[step.result.id], token.value, end, now)
            && step.db == db.(runs := released[step.result.id := step.result.run]))
  {
  }

  lemma ClaimVerdict(db: DB, leaseNs: int, token: Option<Str>, now: int, end: int, step: ClaimStep)
    requires step == Claim(db, leaseNs, token, now) && end == RunsOut(now, leaseNs)
    ensures Claims(db, leaseNs, token, now, end, step)
  {
    var released := ReleaseExpired(db.runs, now);
    ReleasedRuns(db.runs, now, released);
    ClaimAnswers(db, leaseNs, token, now, released, end, CanClaim(db.runs, now), step);
    if step.result.Claimed? { HeadIsTaken(db.runs, token.value, end, now, released, step.result.id, step.db.runs); }
  }

  // ---- Preparation and marking ----

  /** The worker holds the Run under this token, and its lease is live. */
  predicate Held(run: Run, token: Str, now: int) {
    run.state == Dispatching && run.dispatchToken == token && run.dispatchExpires.Some? && now < run.dispatchExpires.value
  }

  /** The row with the start frozen as given. */
  predicate Freezes(before: Run, after: Run, i: PrepareInput) {
    && after.prepared && after.startSession == i.session && after.startDeadline == i.deadline
    && after.origin == before.origin && after.state == before.state && after.dispatchToken == before.dispatchToken
    && after.dispatchExpires == before.dispatchExpires && after.attempts == before.attempts
    && after.output == before.output && after.failure == before.failure && after.resultSession == before.resultSession
  }

  /** The first preparation under a live lease freezes the start it is given if the session is current; a later one reads it. */
  ghost predicate PreparesAs(db: DB, i: PrepareInput, now: int, step: PrepareStep) {
    var ok, id := now > 0 && ValidPrepare(i, now), i.runId;
    && (step.result == PrepareFailed(Invalid) <==> !ok)
    && (step.result == PrepareFailed(NotFound) <==> ok && id !in db.runs)
    && (step.result == PrepareFailed(DispatchLost) <==> ok && id in db.runs && !Held(db.runs[id], i.token, now))
    && (step.result == PrepareFailed(Conflict) <==>
          ok && id in db.runs && Held(db.runs[id], i.token, now) && !db.runs[id].prepared
          && CurrentRef(db.sessions, db.runs[id].origin.scope) != i.session)
    && (step.result.Prepared? <==>
          ok && id in db.runs && Held(db.runs[id], i.token, now)
          && (db.runs[id].prepared || CurrentRef(db.sessions, db.runs[id].origin.scope) == i.session))
    && (step.result.PrepareFailed? ==> step.db == db)
    && (step.result.Prepared? ==>
          && step.db == db.(runs := step.db.runs) && id in step.db.runs && step.db.runs == db.runs[id := step.db.runs[id]]
          && if db.runs[id].prepared then
               step.db == db && step.result.start == PreparedStart(db.runs[id].startSession, db.runs[id].startDeadline)
             else Freezes(db.runs[id], step.db.runs[id], i) && step.result.start == PreparedStart(i.session, i.deadline))
  }

  lemma PrepareVerdict(db: DB, i: PrepareInput, now: int, step: PrepareStep)
    requires step == Prepare(db, i, now)
    ensures PreparesAs(db, i, now, step)
  {
  }

  /** The mark is accepted of a prepared Run under a live lease, and again once it runs; it changes the state alone. */
  ghost predicate MarksAs(db: DB, id: Str, token: Str, now: int, step: UnitStep) {
    var ok := ValidIdentifier(id, MAX_ID_BYTES) && ValidIdentifier(token, MAX_ID_BYTES) && now > 0;
    && (step.result == Refused(Invalid) <==> !ok)
    && (step.result == Refused(NotFound) <==> ok && id !in db.runs)
    && (step.result == Refused(InvalidTransition) <==> ok && id in db.runs && db.runs[id].dispatchToken == token && !Active(db.runs[id]))
    && (step.result == Refused(StartUnprepared) <==> ok && id in db.runs && Held(db.runs[id], token, now) && !db.runs[id].prepared)
    && (step.result.Done? <==>
          ok && id in db.runs && db.runs[id].dispatchToken == token
          && (db.runs[id].state == Running || (Held(db.runs[id], token, now) && db.runs[id].prepared)))
    && (step.result.Refused? ==> step.db == db)
    && (step.result.Done? ==>
          && step.db == db.(runs := step.db.runs) && id in step.db.runs && step.db.runs == db.runs[id := step.db.runs[id]]
          && step.db.runs[id].state == Running && SameWork(db.runs[id], step.db.runs[id])
          && step.db.runs[id].dispatchToken == token && step.db.runs[id].attempts == db.runs[id].attempts
          && (db.runs[id].state == Running ==> step.db == db) && (db.runs[id].state != Running ==> step.db.runs[id].dispatchExpires.None?))
  }

  lemma MarkVerdict(db: DB, id: Str, token: Str, now: int, step: UnitStep)
    requires step == MarkRunning(db, id, token, now)
    ensures MarksAs(db, id, token, now, step)
  {
  }

  // ---- Finish ----

  /** The row says what the finish says, in every column of the outcome. */
  predicate Records(run: Run, i: FinishInput) {
    && run.state == i.state && run.output == (if i.state == Completed then Some(i.output) else None)
    && run.failure == i.failure && run.resultSession == (if i.resultSession == [] then None else Some(i.resultSession))
  }

  /** On the rows a store can hold, comparing the columns that matter for the state compares them all. */
  lemma SameFinishIsRecorded(run: Run, i: FinishInput)
    requires RunShape(run) && ValidFinish(i)
    ensures SameFinish(run, i) <==> Records(run, i)
  {
  }

  /** The Run, under the caller's token and prepared, has not ended and is not out of its lease; or it has ended just so. */
  predicate MayEnd(run: Run, i: FinishInput, now: int) {
    && run.dispatchToken == i.token && run.prepared
    && (run.state == Running || Held(run, i.token, now) || (Terminal(run.state) && Records(run, i)))
  }

  /** What ends the Run: its row records the outcome and keeps the rest. */
  predicate EndsRow(before: Run, i: FinishInput, after: Run) {
    && Records(after, i) && after.dispatchExpires.None? && after.dispatchToken == before.dispatchToken && after.origin == before.origin
    && after.attempts == before.attempts && after.prepared == before.prepared
    && after.startSession == before.startSession && after.startDeadline == before.startDeadline
  }

  /** The session of the Run's scope becomes the one the finish brings, if it brings one; no other changes. */
  ghost predicate AdvancesSession(sessions: map<SessionKey, Session>, scope: SessionKey, i: FinishInput, after: map<SessionKey, Session>) {
    forall k :: CurrentRef(after, k) == if k == scope && i.resultSession != [] then Some(i.resultSession) else CurrentRef(sessions, k)
  }

  /** The finish passes every check before the Run's own state is looked at. */
  ghost predicate Presentable(db: DB, i: FinishInput, reply: Option<DeliveryInput>, now: int) {
    && ValidFinish(i) && now > 0 && i.runId in db.runs && db.runs[i.runId].dispatchToken == i.token && db.runs[i.runId].prepared
    && (reply.Some? ==> ValidDelivery(reply.value))
  }

  /** Each answer of FinishRun and its exact condition. */
  ghost predicate FinishAnswers(cfg: Config, db: DB, i: FinishInput, reply: Option<DeliveryInput>, now: int, result: UnitResult) {
    var shown, id := Presentable(db, i, reply, now), i.runId;
    && (result == Refused(NotFound) <==> ValidFinish(i) && now > 0 && id !in db.runs)
    && (result == Refused(StartUnprepared) <==>
          ValidFinish(i) && now > 0 && id in db.runs && db.runs[id].dispatchToken == i.token && !db.runs[id].prepared)
    && (result == Refused(DispatchLost) <==>
          || (ValidFinish(i) && now > 0 && id in db.runs && db.runs[id].dispatchToken != i.token)
          || (shown && db.runs[id].state == Dispatching && !Held(db.runs[id], i.token, now)))
    && (result == Refused(Conflict) <==>
          shown && ((Terminal(db.runs[id].state) && !Records(db.runs[id], i))
                    || (MayEnd(db.runs[id], i, now) && reply.Some? && Clashes(db, id, reply.value))))
    && (result == Refused(QuotaExceeded) <==> shown && MayEnd(db.runs[id], i, now) && reply.Some? && Full(cfg, db, id, reply.value))
    && (result.Done? <==>
          shown && MayEnd(db.runs[id], i, now) && (reply.Some? ==> !Clashes(db, id, reply.value) && !Full(cfg, db, id, reply.value)))
  }

  /** What an accepted finish writes: the outcome and the session once, and the reply if one came along. */
  ghost predicate FinishWrites(db: DB, i: FinishInput, reply: Option<DeliveryInput>, now: int, after: DB)
    requires i.runId in db.runs
  {
    var id := i.runId;
    && after.receipts == db.receipts && after.horizons == db.horizons && id in after.runs
    && after.runs == db.runs[id := after.runs[id]]
    && (if Terminal(db.runs[id].state) then after.runs == db.runs && after.sessions == db.sessions
        else EndsRow(db.runs[id], i, after.runs[id]) && AdvancesSession(db.sessions, db.runs[id].origin.scope, i, after.sessions))
    && (reply.None? ==> after.deliveries == db.deliveries)
    && (reply.Some? ==> Answered(after.deliveries, id, reply.value.text))
    && (forall d :: d in db.deliveries ==> d in after.deliveries && after.deliveries[d] == db.deliveries[d])
    && (forall d :: d in after.deliveries ==> d in db.deliveries || (reply.Some? && d == reply.value.id && Unsent(after.deliveries[d], now)))
  }

  ghost predicate FinishesAs(cfg: Config, db: DB, i: FinishInput, reply: Option<DeliveryInput>, now: int, step: UnitStep) {
    && FinishAnswers(cfg, db, i, reply, now, step.result)
    && (if step.result.Done? then i.runId in db.runs && FinishWrites(db, i, reply, now, step.db) else step.db == db)
  }

  lemma EndedRow(run: Run, i: FinishInput, now: int)
    requires ValidFinish(i)
    ensures EndsRow(run, i, FinishedRun(run, i, now))
  {
  }

  /** Ending a Run neither answers it nor makes room or takes it. */
  lemma EndingLeavesReplies(cfg: Config, db: DB, i: FinishInput, now: int, mid: DB, reply: DeliveryInput)
    requires i.runId in db.runs && mid == CommitTerminal(db, db.runs[i.runId], i, now)
    ensures Clashes(mid, i.runId, reply) <==> Clashes(db, i.runId, reply)
    ensures Full(cfg, mid, i.runId, reply) <==> Full(cfg, db, i.runId, reply)
  {
    var c := db.runs[i.runId].origin.scope.connector;
    assert ToSend(mid, c) == ToSend(db, c);
  }

  /** What a finish that passes every check comes to, before the reply. */
  lemma FinishDecides(cfg: Config, db: DB, i: FinishInput, reply: Option<DeliveryInput>, now: int, mid: DB, step: UnitStep)
    requires RunShapes(db.runs) && Presentable(db, i, reply, now) && step == Finish(cfg, db, i, reply, now)
    requires mid == if Terminal(db.runs[i.runId].state) then db else CommitTerminal(db, db.runs[i.runId], i, now)
    ensures var run := db.runs[i.runId];
      if MayEnd(run, i, now) then
        step == if reply.None? then UnitStep(mid, Done)
                else (var inserted := InsertDelivery(cfg, mid, i.runId, reply.value, now);
                      if inserted.result.Done? then inserted else UnitStep(db, inserted.result))
      else step == UnitStep(db, Refused(if Terminal(run.state) then Conflict else if run.state == Queued then InvalidTransition else DispatchLost))
  {
    SameFinishIsRecorded(db.runs[i.runId], i);
  }

  lemma FinishUndecided(cfg: Config, db: DB, i: FinishInput, reply: Option<DeliveryInput>, now: int, step: UnitStep)
    requires step == Finish(cfg, db, i, reply, now) && !Presentable(db, i, reply, now)
    ensures step == UnitStep(db, Refused(
      if !ValidFinish(i) || now <= 0 then Invalid else if i.runId !in db.runs then NotFound
      else if db.runs[i.runId].dispatchToken != i.token then DispatchLost
      else if !db.runs[i.runId].prepared then StartUnprepared else Invalid))
  {
  }

  lemma MidIsEnded(cfg: Config, db: DB, i: FinishInput, now: int, mid: DB)
    requires Inv(cfg, db) && ValidFinish(i) && i.runId in db.runs && MayEnd(db.runs[i.runId], i, now)
    requires mid == if Terminal(db.runs[i.runId].state) then db else CommitTerminal(db, db.runs[i.runId], i, now)
    ensures DeliveriesLinked(mid.runs, mid.deliveries) && i.runId in mid.runs
    ensures FinishWrites(db, i, None, now, mid)
  {
    EndedRow(db.runs[i.runId], i, now);
    if Live(db.runs[i.runId]) { CommitTerminalKeepsInv(cfg, db, i, now); }
  }

  lemma ReplyIsWritten(cfg: Config, db: DB, i: FinishInput, reply: DeliveryInput, now: int, mid: DB, inserted: UnitStep)
    requires i.runId in db.runs && FinishWrites(db, i, None, now, mid) && Inserts(cfg, mid, i.runId, reply, now, inserted) && inserted.result.Done?
    ensures FinishWrites(db, i, Some(reply), now, inserted.db)
  {
  }

  lemma FinishVerdict(cfg: Config, db: DB, i: FinishInput, reply: Option<DeliveryInput>, now: int, step: UnitStep)
    requires Inv(cfg, db) && step == Finish(cfg, db, i, reply, now)
    ensures FinishesAs(cfg, db, i, reply, now, step)
  {
    if !Presentable(db, i, reply, now) {
      FinishUndecided(cfg, db, i, reply, now, step);
    } else {
      var mid := if Terminal(db.runs[i.runId].state) then db else CommitTerminal(db, db.runs[i.runId], i, now);
      FinishDecides(cfg, db, i, reply, now, mid, step);
      if MayEnd(db.runs[i.runId], i, now) {
        MidIsEnded(cfg, db, i, now, mid);
        if reply.Some? {
          if Live(db.runs[i.runId]) { EndingLeavesReplies(cfg, db, i, now, mid, reply.value); }
          var inserted := InsertDelivery(cfg, mid, i.runId, reply.value, now);
          InsertVerdict(cfg, mid, i.runId, reply.value, now, inserted);
          if inserted.result.Done? { ReplyIsWritten(cfg, db, i, reply.value, now, mid, inserted); }
        }
      }
    }
  }
}
