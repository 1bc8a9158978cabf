/** What every Core store transaction keeps, proved from the transactions alone. */
module StoreInvariant {
  import opened GoTypes
  import opened StoreTypes
  import opened StoreSteps
  import opened Ordering

  // ---- The invariant ----

  /** The CHECK constraints on one runs row. */
  predicate RunShape(r: Run) {
    && (r.state == Queued ==> r.dispatchToken == [] && r.dispatchExpires.None?)
    && (r.state == Dispatching ==> r.dispatchToken != [] && r.dispatchExpires.Some?)
    && (r.state == Running || Terminal(r.state) ==> r.dispatchToken != [] && r.dispatchExpires.None? && r.prepared)
    && (if r.prepared then 0 < r.startDeadline <= MAX_DEADLINE_MS else r.startSession.None? && r.startDeadline == 0)
    && (r.output.Some? <==> r.state == Completed)
    && (r.failure.Some? <==> r.state == Failed || r.state == Interrupted)
    && (r.state == Failed ==> !r.failure.value.RuntimeInterrupted? && !r.failure.value.UnlistedFailure?)
    && (r.state == Interrupted ==> r.failure.value.RuntimeInterrupted?)
    && (r.resultSession.Some? ==> r.state == Completed)
  }

  /** The CHECK constraints on one text_deliveries row; a NULL text reads back as the empty string. */
  predicate DeliveryShape(d: Delivery) {
    && d.availableAt > 0
    && (d.state == Delivered <==> d.providerRef != [])
    && (d.state == Leased <==> d.leaseExpires.Some?)
    && (d.state != Pending ==> d.leaseToken != [] && d.attempts > 0)
    && (d.state == Delivered ==> d.failure.None?)
    && (d.state == PermanentFailed ==> d.failure.Some? && Permanent(d.failure.value))
    && (d.state == Pending || d.state == Leased ==> d.failure.None? || Retryable(d.failure.value))
  }

  ghost predicate RunShapes(runs: map<Str, Run>) { forall r :: r in runs ==> RunShape(runs[r]) }

  ghost predicate DeliveryShapes(deliveries: map<Str, Delivery>) {
    forall d :: d in deliveries ==> DeliveryShape(deliveries[d])
  }

  /** At most one Run in the whole store is dispatching or running. */
  ghost predicate OneActive(runs: map<Str, Run>) {
    forall a, b :: a in runs && b in runs && Active(runs[a]) && Active(runs[b]) ==> a == b
  }

  /** At most one Run per session scope is nonterminal. */
  ghost predicate OneLivePerScope(runs: map<Str, Run>) {
    forall a, b ::
      a in runs && b in runs && Live(runs[a]) && Live(runs[b]) && runs[a].origin.scope == runs[b].origin.scope ==> a == b
  }

  /** While a prepared Run is nonterminal, its scope's current session is the one it froze at preparation. */
  ghost predicate SessionsFrozen(runs: map<Str, Run>, sessions: map<SessionKey, Session>) {
    forall r :: r in runs && Live(runs[r]) && runs[r].prepared ==>
      CurrentRef(sessions, runs[r].origin.scope) == runs[r].startSession
  }

  /** Every receipt names an existing Run made from its own event, and lies above its connector's horizon. */
  ghost predicate ReceiptsLinked(runs: map<Str, Run>, receipts: map<EventKey, Receipt>, horizons: map<Str, int>) {
    forall k :: k in receipts ==>
      && receipts[k].runId in runs
      && runs[receipts[k].runId].origin.scope.connector == k.connector
      && runs[receipts[k].runId].origin.eventId == k.event
      && k.connector in horizons && receipts[k].occurredAt > horizons[k.connector]
  }

  /** Every delivery belongs to an existing terminal Run, and no Run has two. */
  ghost predicate DeliveriesLinked(runs: map<Str, Run>, deliveries: map<Str, Delivery>) {
    (forall d :: d in deliveries ==> deliveries[d].runId in runs && Terminal(runs[deliveries[d].runId].state))
    && (forall d, e :: d in deliveries && e in deliveries && deliveries[d].runId == deliveries[e].runId ==> d == e)
  }

  /** Queued and dispatching Runs of one connector. */
  ghost function WaitingOf(runs: map<Str, Run>, c: Str): set<Str> {
    set r | r in runs && runs[r].origin.scope.connector == c && (runs[r].state == Queued || runs[r].state == Dispatching)
  }

  ghost predicate RunQuota(cfg: Config, runs: map<Str, Run>, c: Str) {
    && |LiveOf(runs, c)| <= cfg.maxNonterminal
    && InputBytes(runs, RunsOf(runs, c)) <= cfg.maxInputBytes
    && |WaitingOf(runs, c)| <= cfg.maxQueued + 1
  }

  /** The per-connector limits; queued and dispatching Runs together may exceed the queued limit by one. */
  ghost predicate Quotas(cfg: Config, db: DB) {
    && (forall c :: RunQuota(cfg, db.runs, c))
    && (forall c :: |ReceiptsOf(db.receipts, c)| <= cfg.maxReceipts)
    && (forall c :: |UnresolvedOf(db.runs, db.deliveries, c)| <= cfg.maxPending)
  }

  ghost predicate RunsInv(runs: map<Str, Run>, sessions: map<SessionKey, Session>) {
    RunShapes(runs) && OneActive(runs) && OneLivePerScope(runs) && SessionsFrozen(runs, sessions)
  }

  ghost predicate LinksInv(db: DB) {
    ReceiptsLinked(db.runs, db.receipts, db.horizons) && DeliveriesLinked(db.runs, db.deliveries)
    && DeliveryShapes(db.deliveries)
  }

  ghost predicate Inv(cfg: Config, db: DB) { RunsInv(db.runs, db.sessions) && LinksInv(db) && Quotas(cfg, db) }

  // ---- Sizes ----

  lemma SubsetSize<T>(a: set<T>, b: set<T>)
    requires a <= b
    ensures |a| <= |b|
  {
    assert b == a + (b - a);
  }

  lemma {:induction false} InputBytesRemove(runs: map<Str, Run>, ids: set<Str>, r: Str)
    requires ids <= runs.Keys && r in ids
    ensures InputBytes(runs, ids) == |runs[r].origin.input| + InputBytes(runs, ids - {r})
    decreases |ids|
  {
    var x :| x in ids && InputBytes(runs, ids) == |runs[x].origin.input| + InputBytes(runs, ids - {x});
    if x != r {
      InputBytesRemove(runs, ids - {x}, r);
      InputBytesRemove(runs, ids - {r}, x);
      assert ids - {x} - {r} == ids - {r} - {x};
    }
  }

  /** Fewer Runs, same inputs: no more bytes. */
  lemma {:induction false} InputBytesShrink(runs: map<Str, Run>, ids: set<Str>, after: map<Str, Run>, rest: set<Str>)
    requires ids <= runs.Keys && rest <= after.Keys && rest <= ids
    requires forall r :: r in rest ==> after[r].origin == runs[r].origin
    ensures InputBytes(after, rest) <= InputBytes(runs, ids)
    decreases |rest|
  {
    if rest != {} {
      var r :| r in rest;
      InputBytesShrink(runs, ids - {r}, after, rest - {r});
      InputBytesRemove(after, rest, r);
      InputBytesRemove(runs, ids, r);
    }
  }

  /** Fewer Runs in each counted state, same inputs: the limits still hold. */
  lemma RunQuotaShrinks(cfg: Config, runs: map<Str, Run>, after: map<Str, Run>, c: Str)
    requires RunQuota(cfg, runs, c)
    requires LiveOf(after, c) <= LiveOf(runs, c) && WaitingOf(after, c) <= WaitingOf(runs, c)
    requires forall r :: r in after ==> r in runs && after[r].origin == runs[r].origin
    ensures RunQuota(cfg, after, c)
  {
    SubsetSize(LiveOf(after, c), LiveOf(runs, c));
    SubsetSize(WaitingOf(after, c), WaitingOf(runs, c));
    InputBytesShrink(runs, RunsOf(runs, c), after, RunsOf(after, c));
  }

  // ---- Eviction ----

  /** What eviction may remove, row by row. */
  ghost predicate Shrinks(db: DB, after: DB) {
    && (forall r :: r in after.runs ==> r in db.runs && after.runs[r] == db.runs[r])
    && (forall r :: r in db.runs && Live(db.runs[r]) ==> r in after.runs)
    && (forall k :: k in after.receipts ==> k in db.receipts && after.receipts[k] == db.receipts[k])
    && (forall d :: d in after.deliveries ==> d in db.deliveries && after.deliveries[d] == db.deliveries[d])
    && (forall c :: c in db.horizons ==> c in after.horizons && after.horizons[c] >= db.horizons[c])
    && after.sessions == db.sessions
  }

  lemma EvictShrinks(cfg: Config, db: DB, c: Str, now: int)
    ensures Shrinks(db, Evict(cfg, db, c, now))
    ensures c in Evict(cfg, db, c, now).horizons
  {
  }

  lemma EvictKeepsLinks(cfg: Config, db: DB, c: Str, now: int)
    requires LinksInv(db)
    ensures LinksInv(Evict(cfg, db, c, now))
  {
    var after := Evict(cfg, db, c, now);
    forall k | k in after.receipts ensures after.receipts[k].runId in after.runs {
      assert HasReceipt(after.receipts, after.receipts[k].runId);
    }
    forall d | d in after.deliveries ensures after.deliveries[d].runId in after.runs {
      assert HasDelivery(after.deliveries, after.deliveries[d].runId);
    }
  }

  lemma ShrinkKeepsQuotas(cfg: Config, db: DB, after: DB)
    requires Shrinks(db, after) && Quotas(cfg, db)
    ensures Quotas(cfg, after)
  {
    forall c
      ensures RunQuota(cfg, after.runs, c) && |ReceiptsOf(after.receipts, c)| <= cfg.maxReceipts
      ensures |UnresolvedOf(after.runs, after.deliveries, c)| <= cfg.maxPending
    {
      RunQuotaShrinks(cfg, db.runs, after.runs, c);
      SubsetSize(ReceiptsOf(after.receipts, c), ReceiptsOf(db.receipts, c));
      SubsetSize(UnresolvedOf(after.runs, after.deliveries, c), UnresolvedOf(db.runs, db.deliveries, c));
    }
  }

  /** Eviction and compaction keep every live Run and the rows that refer to what remains. */
  lemma EvictKeepsInv(cfg: Config, db: DB, c: Str, now: int)
    requires Inv(cfg, db)
    ensures Inv(cfg, Evict(cfg, db, c, now))
  {
    EvictShrinks(cfg, db, c, now);
    EvictKeepsLinks(cfg, db, c, now);
    ShrinkKeepsQuotas(cfg, db, Evict(cfg, db, c, now));
  }

  /** Compaction removes a delivery only when it is resolved, and only together with its terminal Run. */
  lemma EvictionIsTogether(cfg: Config, db: DB, c: Str, now: int)
    requires DeliveriesLinked(db.runs, db.deliveries)
    ensures var after := Evict(cfg, db, c, now);
      && (forall d :: d in db.deliveries && d !in after.deliveries ==>
            Resolved(db.deliveries[d]) && db.deliveries[d].runId !in after.runs)
      && (forall r :: r in db.runs && r !in after.runs ==>
            Terminal(db.runs[r].state) && db.runs[r].origin.scope.connector == c
            && !HasReceipt(after.receipts, r) && !HasDelivery(after.deliveries, r))
  {
    EvictShrinks(cfg, db, c, now);
  }

  // ---- Ingest ----

  ghost function AddRun(db: DB, i: IngestInput, a: Authorization, id: Str, now: int): DB {
    db.(runs := db.runs[id := NewRun(i, a, now)],
        receipts := db.receipts[EventKey(i.connector, i.eventId) := Receipt(i.payloadHash, 2, id, i.occurredAt, now)])
  }

  /** The new Run joins its own connector's counts and no other's. */
  lemma AddRunToRuns(runs: map<Str, Run>, id: Str, run: Run, c: Str)
    requires id !in runs && run.state == Queued
    ensures var after, own := runs[id := run], if run.origin.scope.connector == c then {id} else {};
      && RunsOf(after, c) == RunsOf(runs, c) + own
      && LiveOf(after, c) == LiveOf(runs, c) + own
      && WaitingOf(after, c) == WaitingOf(runs, c) + own
  {
  }

  lemma AddRunToBytes(runs: map<Str, Run>, id: Str, run: Run, c: Str)
    requires id !in runs && run.state == Queued
    ensures InputBytes(runs[id := run], RunsOf(runs[id := run], c)) <=
            InputBytes(runs, RunsOf(runs, c)) + if run.origin.scope.connector == c then |run.origin.input| else 0
  {
    var after := runs[id := run];
    AddRunToRuns(runs, id, run, c);
    if run.origin.scope.connector == c {
      InputBytesRemove(after, RunsOf(after, c), id);
      assert RunsOf(after, c) - {id} == RunsOf(runs, c);
    } else {
      assert RunsOf(after, c) == RunsOf(runs, c);
    }
    InputBytesShrink(runs, RunsOf(runs, c), after, RunsOf(runs, c));
  }

  lemma WaitingIsBounded(runs: map<Str, Run>, c: Str)
    requires OneActive(runs)
    ensures |WaitingOf(runs, c)| <= |QueuedOf(runs, c)| + 1
  {
    var active := WaitingOf(runs, c) - QueuedOf(runs, c);
    assert WaitingOf(runs, c) == QueuedOf(runs, c) + active;
    if active != {} {
      var x :| x in active;
      assert active == {x};
    }
  }

  lemma AddRunKeepsRunQuota(cfg: Config, runs: map<Str, Run>, id: Str, run: Run, c: Str)
    requires OneActive(runs) && RunQuota(cfg, runs, c) && id !in runs && run.state == Queued
    requires c == run.origin.scope.connector ==>
      |QueuedOf(runs, c)| < cfg.maxQueued && |LiveOf(runs, c)| < cfg.maxNonterminal
      && InputBytes(runs, RunsOf(runs, c)) <= cfg.maxInputBytes - |run.origin.input|
    ensures RunQuota(cfg, runs[id := run], c)
  {
    AddRunToRuns(runs, id, run, c);
    AddRunToBytes(runs, id, run, c);
    WaitingIsBounded(runs, c);
  }

  lemma AddReceiptCount(receipts: map<EventKey, Receipt>, k: EventKey, r: Receipt, c: Str)
    ensures |ReceiptsOf(receipts[k := r], c)| <= |ReceiptsOf(receipts, c)| + if k.connector == c then 1 else 0
  {
    assert ReceiptsOf(receipts[k := r], c) == ReceiptsOf(receipts, c) + if k.connector == c then {k} else {};
  }

  lemma AddRunUnresolved(runs: map<Str, Run>, deliveries: map<Str, Delivery>, id: Str, run: Run, c: Str)
    requires DeliveriesLinked(runs, deliveries) && id !in runs
    ensures UnresolvedOf(runs[id := run], deliveries, c) == UnresolvedOf(runs, deliveries, c)
  {
  }

  /** The admission check leaves room for exactly the rows it admits. */
  lemma AddRunKeepsQuotas(cfg: Config, db: DB, i: IngestInput, a: Authorization, id: Str, now: int)
    requires OneActive(db.runs) && DeliveriesLinked(db.runs, db.deliveries) && Quotas(cfg, db)
    requires id !in db.runs && HasCapacity(cfg, db, i.connector, |i.text|, false)
    ensures Quotas(cfg, AddRun(db, i, a, id, now))
  {
    var after := AddRun(db, i, a, id, now);
    forall c
      ensures RunQuota(cfg, after.runs, c) && |ReceiptsOf(after.receipts, c)| <= cfg.maxReceipts
      ensures |UnresolvedOf(after.runs, after.deliveries, c)| <= cfg.maxPending
    {
      AddRunKeepsRunQuota(cfg, db.runs, id, NewRun(i, a, now), c);
      AddReceiptCount(db.receipts, EventKey(i.connector, i.eventId), Receipt(i.payloadHash, 2, id, i.occurredAt, now), c);
      AddRunUnresolved(db.runs, db.deliveries, id, NewRun(i, a, now), c);
    }
  }

  lemma AddRunKeepsLinks(db: DB, i: IngestInput, a: Authorization, id: Str, now: int)
    requires LinksInv(db) && id !in db.runs
    requires i.connector in db.horizons && i.occurredAt > db.horizons[i.connector]
    ensures LinksInv(AddRun(db, i, a, id, now))
  {
  }

  lemma AddRunKeepsRuns(runs: map<Str, Run>, sessions: map<SessionKey, Session>, id: Str, run: Run)
    requires RunsInv(runs, sessions) && id !in runs && RunShape(run) && run.state == Queued && !run.prepared
    requires !ScopeBusy(runs, run.origin.scope)
    ensures RunsInv(runs[id := run], sessions)
  {
  }

  lemma AddRunKeepsInv(cfg: Config, db: DB, i: IngestInput, a: Authorization, id: Str, now: int)
    requires Inv(cfg, db) && id !in db.runs && HasCapacity(cfg, db, i.connector, |i.text|, false)
    requires !ScopeBusy(db.runs, NewRun(i, a, now).origin.scope)
    requires i.connector in db.horizons && i.occurredAt > db.horizons[i.connector]
    ensures Inv(cfg, AddRun(db, i, a, id, now))
  {
    AddRunKeepsRuns(db.runs, db.sessions, id, NewRun(i, a, now));
    AddRunKeepsLinks(db, i, a, id, now);
    AddRunKeepsQuotas(cfg, db, i, a, id, now);
  }

  /** Everything an admission established before it created a Run. */
  ghost predicate Admitted(cfg: Config, evicted: DB, i: IngestInput, env: IngestEnv) {
    && env.now > 0 && ValidIngest(i)
    && env.auth.Some? && ValidAuthorization(env.auth.value)
    && env.newRunId.Some? && ValidIdentifier(env.newRunId.value, MAX_ID_BYTES) && env.newRunId.value !in evicted.runs
    && EventKey(i.connector, i.eventId) !in evicted.receipts
    && i.connector in evicted.horizons && i.occurredAt > evicted.horizons[i.connector]
    && !ScopeBusy(evicted.runs, NewRun(i, env.auth.value, env.now).origin.scope)
    && HasCapacity(cfg, evicted, i.connector, |i.text|, false)
  }

  /** An ingest creates one Run and its receipt, or commits only the eviction, or nothing. */
  lemma IngestCases(cfg: Config, db: DB, i: IngestInput, env: IngestEnv)
    ensures var s, evicted := Ingest(cfg, db, i, env), Evict(cfg, db, i.connector, env.now);
      if s.result.Created? then
        Admitted(cfg, evicted, i, env) && s.result.runId == env.newRunId.value
        && s.db == AddRun(evicted, i, env.auth.value, env.newRunId.value, env.now)
      else s.db == db || s.db == evicted
  {
  }

  lemma IngestKeepsInv(cfg: Config, db: DB, i: IngestInput, env: IngestEnv)
    requires Inv(cfg, db)
    ensures Inv(cfg, Ingest(cfg, db, i, env).db)
  {
    var evicted := Evict(cfg, db, i.connector, env.now);
    EvictKeepsInv(cfg, db, i.connector, env.now);
    IngestCases(cfg, db, i, env);
    if Ingest(cfg, db, i, env).result.Created? {
      AddRunKeepsInv(cfg, evicted, i, env.auth.value, env.newRunId.value, env.now);
    }
  }

  // ---- Dispatch ----

  /** Rows rewritten in place: same Runs, same origins, and no Run enters a counted state or leaves a terminal one. */
  ghost predicate Rewrites(runs: map<Str, Run>, after: map<Str, Run>) {
    after.Keys == runs.Keys
    && forall r :: r in runs ==>
      && after[r].origin == runs[r].origin
      && (Live(after[r]) ==> Live(runs[r]))
      && (after[r].state in {Queued, Dispatching} ==> runs[r].state in {Queued, Dispatching})
  }

  lemma RewriteKeepsQuotas(cfg: Config, db: DB, after: map<Str, Run>)
    requires Rewrites(db.runs, after) && Quotas(cfg, db)
    ensures Quotas(cfg, db.(runs := after))
  {
    forall c ensures RunQuota(cfg, after, c) && |UnresolvedOf(after, db.deliveries, c)| <= cfg.maxPending {
      RunQuotaShrinks(cfg, db.runs, after, c);
      assert UnresolvedOf(after, db.deliveries, c) == UnresolvedOf(db.runs, db.deliveries, c);
    }
  }

  lemma RewriteKeepsLinks(db: DB, after: map<Str, Run>)
    requires LinksInv(db) && Rewrites(db.runs, after)
    ensures LinksInv(db.(runs := after))
  {
  }

  lemma RewriteKeepsInv(cfg: Config, db: DB, after: map<Str, Run>, sessions: map<SessionKey, Session>)
    requires Inv(cfg, db) && Rewrites(db.runs, after) && RunsInv(after, sessions)
    ensures Inv(cfg, db.(runs := after, sessions := sessions))
  {
    RewriteKeepsLinks(db, after);
    RewriteKeepsQuotas(cfg, db, after);
  }

  lemma ReleaseRewrites(runs: map<Str, Run>, now: int)
    ensures Rewrites(runs, ReleaseExpired(runs, now))
    ensures forall r :: r in runs ==> ReleaseExpired(runs, now)[r] == Release(runs[r], now)
  {
  }

  lemma ReleaseKeepsRun(run: Run, now: int)
    requires RunShape(run)
    ensures RunShape(Release(run, now)) && (Active(Release(run, now)) ==> Active(run)) && (Live(Release(run, now)) <==> Live(run))
    ensures Release(run, now).origin == run.origin && Release(run, now).prepared == run.prepared
    ensures Release(run, now).startSession == run.startSession
  {
  }

  lemma ReleaseKeepsRuns(runs: map<Str, Run>, after: map<Str, Run>, sessions: map<SessionKey, Session>, now: int)
    requires RunsInv(runs, sessions) && after.Keys == runs.Keys && forall r :: r in runs ==> after[r] == Release(runs[r], now)
    ensures RunsInv(after, sessions)
  {
    forall r | r in runs
      ensures RunShape(after[r]) && (Active(after[r]) ==> Active(runs[r])) && (Live(after[r]) <==> Live(runs[r]))
      ensures after[r].origin == runs[r].origin && after[r].prepared == runs[r].prepared && after[r].startSession == runs[r].startSession
    {
      ReleaseKeepsRun(runs[r], now);
    }
  }

  lemma ReleaseKeepsInv(cfg: Config, db: DB, now: int)
    requires Inv(cfg, db)
    ensures Inv(cfg, db.(runs := ReleaseExpired(db.runs, now)))
  {
    ReleaseRewrites(db.runs, now);
    ReleaseKeepsRuns(db.runs, ReleaseExpired(db.runs, now), db.sessions, now);
    RewriteKeepsInv(cfg, db, ReleaseExpired(db.runs, now), db.sessions);
  }

  /** One live Run's row changes, within what the invariant allows that Run. */
  lemma UpdateKeepsRuns(runs: map<Str, Run>, sessions: map<SessionKey, Session>, id: Str, run: Run)
    requires RunsInv(runs, sessions) && id in runs && Live(runs[id])
    requires RunShape(run) && run.origin == runs[id].origin
    requires run.state in {Queued, Dispatching} ==> runs[id].state in {Queued, Dispatching}
    requires Active(run) && !Active(runs[id]) ==> forall r :: r in runs ==> !Active(runs[r])
    requires Live(run) && run.prepared ==> CurrentRef(sessions, run.origin.scope) == run.startSession
    ensures RunsInv(runs[id := run], sessions) && Rewrites(runs, runs[id := run])
  {
  }

  lemma UpdateKeepsInv(cfg: Config, db: DB, id: Str, run: Run)
    requires Inv(cfg, db) && id in db.runs && Live(db.runs[id])
    requires RunShape(run) && run.origin == db.runs[id].origin
    requires run.state in {Queued, Dispatching} ==> db.runs[id].state in {Queued, Dispatching}
    requires Active(run) && !Active(db.runs[id]) ==> forall r :: r in db.runs ==> !Active(db.runs[r])
    requires Live(run) && run.prepared ==> CurrentRef(db.sessions, run.origin.scope) == run.startSession
    ensures Inv(cfg, db.(runs := db.runs[id := run]))
  {
    UpdateKeepsRuns(db.runs, db.sessions, id, run);
    RewriteKeepsInv(cfg, db, db.runs[id := run], db.sessions);
  }

  /** A claim releases expired dispatches, and may then take one Run when none is active. */
  ghost predicate ClaimsOrReleases(db: DB, released: map<Str, Run>, step: ClaimStep) {
    if step.result.Claimed? then
      && step.result.id in released && released[step.result.id].state == Queued
      && (forall r :: r in released ==> !Active(released[r]))
      && step.result.run.dispatchToken != [] && step.result.run.dispatchExpires.Some?
      && step.result.run == ClaimedRun(released[step.result.id], step.result.run.dispatchToken,
                                       step.result.run.dispatchExpires.value, step.result.run.updatedAt)
      && step.db == db.(runs := released[step.result.id := step.result.run])
    else step.db == db || step.db == db.(runs := released)
  }

  lemma ClaimCases(db: DB, leaseNs: int, token: Option<Str>, now: int)
    ensures ClaimsOrReleases(db, ReleaseExpired(db.runs, now), Claim(db, leaseNs, token, now))
  {
  }

  lemma ClaimStepKeepsInv(cfg: Config, db: DB, released: map<Str, Run>, step: ClaimStep)
    requires Inv(cfg, db) && Inv(cfg, db.(runs := released)) && ClaimsOrReleases(db, released, step)
    ensures Inv(cfg, step.db)
  {
    if step.result.Claimed? { UpdateKeepsInv(cfg, db.(runs := released), step.result.id, step.result.run); }
  }

  lemma ClaimKeepsInv(cfg: Config, db: DB, leaseNs: int, token: Option<Str>, now: int)
    requires Inv(cfg, db)
    ensures Inv(cfg, Claim(db, leaseNs, token, now).db)
  {
    ReleaseKeepsInv(cfg, db, now);
    ClaimCases(db, leaseNs, token, now);
    ClaimStepKeepsInv(cfg, db, ReleaseExpired(db.runs, now), Claim(db, leaseNs, token, now));
  }

  lemma PrepareKeepsInv(cfg: Config, db: DB, i: PrepareInput, now: int)
    requires Inv(cfg, db)
    ensures Inv(cfg, Prepare(db, i, now).db)
  {
    var after := Prepare(db, i, now).db;
    if after != db { UpdateKeepsInv(cfg, db, i.runId, after.runs[i.runId]); }
  }

  lemma MarkRunningKeepsInv(cfg: Config, db: DB, id: Str, token: Str, now: int)
    requires Inv(cfg, db)
    ensures Inv(cfg, MarkRunning(db, id, token, now).db)
  {
    var after := MarkRunning(db, id, token, now).db;
    if after != db { UpdateKeepsInv(cfg, db, id, after.runs[id]); }
  }

  // ---- Finish ----

  /** A session written for a scope where no Run is live disturbs no frozen start. */
  lemma PutSessionKeepsRuns(runs: map<Str, Run>, sessions: map<SessionKey, Session>, scope: SessionKey, session: Session)
    requires RunsInv(runs, sessions) && !ScopeBusy(runs, scope)
    ensures RunsInv(runs, sessions[scope := session])
  {
  }

  lemma CommitTerminalKeepsInv(cfg: Config, db: DB, i: FinishInput, now: int)
    requires Inv(cfg, db) && ValidFinish(i) && i.runId in db.runs
    requires Active(db.runs[i.runId]) && db.runs[i.runId].prepared
    ensures Inv(cfg, CommitTerminal(db, db.runs[i.runId], i, now))
  {
    var run := FinishedRun(db.runs[i.runId], i, now);
    UpdateKeepsRuns(db.runs, db.sessions, i.runId, run);
    if i.resultSession != [] {
      PutSessionKeepsRuns(db.runs[i.runId := run], db.sessions, run.origin.scope, Session(i.resultSession, now));
    }
    RewriteKeepsInv(cfg, db, db.runs[i.runId := run], CommitTerminal(db, db.runs[i.runId], i, now).sessions);
  }

  lemma AddDeliveryKeepsQuotas(cfg: Config, db: DB, id: Str, d: Delivery)
    requires d.runId in db.runs && !Resolved(d) && Quotas(cfg, db)
    requires |UnresolvedOf(db.runs, db.deliveries, db.runs[d.runId].origin.scope.connector)| < cfg.maxPending
    ensures Quotas(cfg, db.(deliveries := db.deliveries[id := d]))
  {
    var after := db.deliveries[id := d];
    forall c ensures |UnresolvedOf(db.runs, after, c)| <= cfg.maxPending {
      SubsetSize(UnresolvedOf(db.runs, after, c),
                 UnresolvedOf(db.runs, db.deliveries, c) + if db.runs[d.runId].origin.scope.connector == c then {id} else {});
    }
  }

  lemma AddDeliveryKeepsLinks(db: DB, id: Str, d: Delivery)
    requires LinksInv(db) && id !in db.deliveries && DeliveryShape(d)
    requires d.runId in db.runs && Terminal(db.runs[d.runId].state) && !HasDelivery(db.deliveries, d.runId)
    ensures LinksInv(db.(deliveries := db.deliveries[id := d]))
  {
  }

  lemma InsertDeliveryKeepsInv(cfg: Config, db: DB, run: Str, reply: DeliveryInput, now: int)
    requires Inv(cfg, db) && run in db.runs && Terminal(db.runs[run].state) && now > 0
    ensures Inv(cfg, InsertDelivery(cfg, db, run, reply, now).db)
  {
    if InsertDelivery(cfg, db, run, reply, now).db != db {
      AddDeliveryKeepsLinks(db, reply.id, NewDelivery(run, reply.text, now));
      AddDeliveryKeepsQuotas(cfg, db, reply.id, NewDelivery(run, reply.text, now));
    }
  }

  /** A finish that commits: the Run was prepared and held by this token, and its row, session and reply go together. */
  ghost predicate FinishesOrRefuses(cfg: Config, db: DB, i: FinishInput, reply: Option<DeliveryInput>, now: int, step: UnitStep) {
    if step.result.Done? then
      && i.runId in db.runs && db.runs[i.runId].prepared && db.runs[i.runId].dispatchToken == i.token
      && db.runs[i.runId].state != Queued && ValidFinish(i) && now > 0
      && (Terminal(db.runs[i.runId].state) ==> SameFinish(db.runs[i.runId], i))
      && var mid := if Terminal(db.runs[i.runId].state) then db else CommitTerminal(db, db.runs[i.runId], i, now);
         if reply.None? then step.db == mid
         else ValidDelivery(reply.value) && step == InsertDelivery(cfg, mid, i.runId, reply.value, now)
    else step.db == db
  }

  lemma FinishCases(cfg: Config, db: DB, i: FinishInput, reply: Option<DeliveryInput>, now: int)
    ensures FinishesOrRefuses(cfg, db, i, reply, now, Finish(cfg, db, i, reply, now))
  {
  }

  lemma FinishKeepsInv(cfg: Config, db: DB, i: FinishInput, reply: Option<DeliveryInput>, now: int)
    requires Inv(cfg, db)
    ensures Inv(cfg, Finish(cfg, db, i, reply, now).db)
  {
    if Finish(cfg, db, i, reply, now).result.Done? {
      var run := db.runs[i.runId];
      var finished := if Terminal(run.state) then db else CommitTerminal(db, run, i, now);
      if Live(run) { CommitTerminalKeepsInv(cfg, db, i, now); }
      if reply.Some? { InsertDeliveryKeepsInv(cfg, finished, i.runId, reply.value, now); }
    }
  }

  // ---- Outbox and maintenance ----

  /** Delivery rows rewritten in place: same parents, same texts, and no resolved delivery changes. */
  ghost predicate Redelivers(deliveries: map<Str, Delivery>, after: map<Str, Delivery>) {
    after.Keys == deliveries.Keys
    && forall d :: d in deliveries ==>
      && after[d].runId == deliveries[d].runId && after[d].text == deliveries[d].text
      && (Resolved(deliveries[d]) ==> after[d] == deliveries[d])
  }

  lemma RedeliverKeepsInv(cfg: Config, db: DB, after: map<Str, Delivery>)
    requires Inv(cfg, db) && Redelivers(db.deliveries, after) && DeliveryShapes(after)
    ensures Inv(cfg, db.(deliveries := after))
  {
    forall c ensures |UnresolvedOf(db.runs, after, c)| <= cfg.maxPending {
      SubsetSize(UnresolvedOf(db.runs, after, c), UnresolvedOf(db.runs, db.deliveries, c));
    }
  }

  /** A completion that changes the store held the current, unexpired lease. */
  ghost predicate CompletesLease(cfg: Config, db: DB, i: CompleteInput, now: int) {
    && ValidCompletion(i) && now > 0 && i.deliveryId in db.deliveries
    && db.deliveries[i.deliveryId].state == Leased && db.deliveries[i.deliveryId].leaseToken == i.token
    && db.deliveries[i.deliveryId].leaseExpires.Some? && db.deliveries[i.deliveryId].leaseExpires.value > now
    && (i.outcome.OutcomeRetry? ==> RetryAt(cfg, db.deliveries[i.deliveryId].attempts, now) > now)
  }

  lemma CompleteCases(cfg: Config, db: DB, i: CompleteInput, now: int)
    ensures var after := Complete(cfg, db, i, now).db;
      after == db
      || (CompletesLease(cfg, db, i, now) && OwnedBy(db, i.deliveryId, i.connector)
          && after == db.(deliveries :=
               db.deliveries[i.deliveryId := CompletedDelivery(cfg, db.deliveries[i.deliveryId], i, now)]))
  {
  }

  lemma UpdateDeliveryKeepsInv(cfg: Config, db: DB, id: Str, d: Delivery)
    requires Inv(cfg, db) && id in db.deliveries && !Resolved(db.deliveries[id])
    requires DeliveryShape(d) && d.runId == db.deliveries[id].runId && d.text == db.deliveries[id].text
    ensures Inv(cfg, db.(deliveries := db.deliveries[id := d]))
    ensures Redelivers(db.deliveries, db.deliveries[id := d])
  {
    RedeliverKeepsInv(cfg, db, db.deliveries[id := d]);
  }

  lemma CompleteKeepsInv(cfg: Config, db: DB, i: CompleteInput, now: int)
    requires Inv(cfg, db)
    ensures Inv(cfg, Complete(cfg, db, i, now).db)
    ensures Redelivers(db.deliveries, Complete(cfg, db, i, now).db.deliveries)
  {
    CompleteCases(cfg, db, i, now);
    if Complete(cfg, db, i, now).db != db {
      UpdateDeliveryKeepsInv(cfg, db, i.deliveryId, CompletedDelivery(cfg, db.deliveries[i.deliveryId], i, now));
    }
  }

  /** A leased batch changes exactly its own rows, each once, from the row as it was. */
  lemma {:induction false} LeaseAllRows(deliveries: map<Str, Delivery>, ids: seq<Str>, tokens: seq<Str>, expires: int, now: int)
    requires |ids| <= |tokens| && forall i :: 0 <= i < |ids| ==> ids[i] in deliveries
    requires forall i, j :: 0 <= i < j < |ids| ==> ids[i] != ids[j]
    ensures var after := LeaseAll(deliveries, ids, tokens, expires, now);
      && (forall i :: 0 <= i < |ids| ==> after[ids[i]] == LeaseDelivery(deliveries[ids[i]], tokens[i], expires, now))
      && (forall d :: d in deliveries && d !in ids ==> after[d] == deliveries[d])
    decreases |ids|
  {
    if |ids| > 0 { LeaseAllRows(deliveries, ids[..|ids| - 1], tokens, expires, now); }
  }

  lemma ReleaseLeasesRedelivers(db: DB, c: Str, now: int)
    requires DeliveryShapes(db.deliveries)
    ensures Redelivers(db.deliveries, ReleaseLeases(db, c, now)) && DeliveryShapes(ReleaseLeases(db, c, now))
  {
  }

  /** The rows a claim query returned, before they are leased. */
  ghost predicate PendingBatch(deliveries: map<Str, Delivery>, ids: seq<Str>, tokens: seq<Str>) {
    && |ids| <= |tokens|
    && (forall i :: 0 <= i < |ids| ==> ids[i] in deliveries && deliveries[ids[i]].state == Pending && tokens[i] != [])
    && (forall i, j :: 0 <= i < j < |ids| ==> ids[i] != ids[j])
  }

  lemma LeaseBatchRedelivers(deliveries: map<Str, Delivery>, ids: seq<Str>, tokens: seq<Str>, expires: int, now: int)
    requires PendingBatch(deliveries, ids, tokens)
    requires DeliveryShapes(deliveries)
    ensures var after := LeaseAll(deliveries, ids, tokens, expires, now); Redelivers(deliveries, after) && DeliveryShapes(after)
  {
    LeaseAllRows(deliveries, ids, tokens, expires, now);
    var after := LeaseAll(deliveries, ids, tokens, expires, now);
    forall d | d in deliveries
      ensures after[d].runId == deliveries[d].runId && after[d].text == deliveries[d].text
      ensures Resolved(deliveries[d]) ==> after[d] == deliveries[d]
      ensures DeliveryShape(after[d])
    {
      if d in ids { var i :| 0 <= i < |ids| && ids[i] == d; }
    }
  }

  lemma RedeliversIsTransitive(a: map<Str, Delivery>, b: map<Str, Delivery>, c: map<Str, Delivery>)
    requires Redelivers(a, b) && Redelivers(b, c)
    ensures Redelivers(a, c)
  {
  }

  /** A claim changes nothing, or leases a batch of its own connector's pending deliveries, each once. */
  ghost predicate LeasesOrRefuses(db: DB, released: map<Str, Delivery>, c: Str, tokens: seq<Str>, expires: int, now: int, step: LeaseStep) {
    if step.result.LeasedBatch? then
      && now > 0 && PendingBatch(released, step.result.ids, tokens)
      && (forall i :: 0 <= i < |step.result.ids| ==> OwnedBy(db, step.result.ids[i], c))
      && step.db == db.(deliveries := LeaseAll(released, step.result.ids, tokens, expires, now))
    else step.db == db
  }

  lemma LeaseIdsCases(db: DB, released: DB, c: Str, ids: seq<Str>, tokens: seq<Str>, expires: int, now: int)
    requires now > 0 && released == db.(deliveries := released.deliveries)
    requires forall i :: 0 <= i < |ids| ==> ids[i] in released.deliveries && released.deliveries[ids[i]].state == Pending
    requires forall i :: 0 <= i < |ids| ==> OwnedBy(db, ids[i], c)
    requires forall i, j :: 0 <= i < j < |ids| ==> ids[i] != ids[j]
    ensures LeasesOrRefuses(db, released.deliveries, c, tokens, expires, now, LeaseIds(db, released, ids, tokens, expires, now))
  {
    if LeaseIds(db, released, ids, tokens, expires, now).result.LeasedBatch? {
      forall i | 0 <= i < |ids| ensures tokens[i] != [] { assert ValidIdentifier(tokens[i], MAX_ID_BYTES); }
    }
  }

  lemma ClaimBatchIsPending(db: DB, c: Str, now: int, limit: nat)
    ensures var ids := ClaimBatch(db, c, now, limit);
      && (forall i :: 0 <= i < |ids| ==> ids[i] in db.deliveries && db.deliveries[ids[i]].state == Pending && OwnedBy(db, ids[i], c))
      && (forall i, j :: 0 <= i < j < |ids| ==> ids[i] != ids[j])
  {
    FirstNIsOrdered(ClaimRanks(db.deliveries), ClaimableIds(db, c, now), limit);
  }

  lemma LeaseReleasedCases(db: DB, c: Str, limit: nat, tokens: seq<Str>, expires: int, now: int, step: LeaseStep)
    requires step == LeaseReleased(db, c, limit, tokens, expires, now) && now > 0
    ensures LeasesOrRefuses(db, ReleaseLeases(db, c, now), c, tokens, expires, now, step)
  {
    var released := db.(deliveries := ReleaseLeases(db, c, now));
    ClaimBatchIsPending(released, c, now, limit);
    assert forall d :: OwnedBy(released, d, c) ==> OwnedBy(db, d, c);
    LeaseIdsCases(db, released, c, ClaimBatch(released, c, now, limit), tokens, expires, now);
  }

  lemma LeaseCases(db: DB, c: Str, limit: int, leaseNs: int, tokens: seq<Str>, now: int, expires: int, step: LeaseStep)
    requires step == Lease(db, c, limit, leaseNs, tokens, now) && expires == LeaseEnd(now, leaseNs)
    ensures LeasesOrRefuses(db, ReleaseLeases(db, c, now), c, tokens, expires, now, step)
  {
    if now > 0 && limit >= 0 { LeaseReleasedCases(db, c, limit, tokens, expires, now, LeaseReleased(db, c, limit, tokens, expires, now)); }
  }

  /** A delivery claim whose arguments pass is the transaction, and any other is refused. */
  lemma LeaseSplits(db: DB, c: Str, limit: int, leaseNs: int, tokens: seq<Str>, now: int, expires: int, step: LeaseStep)
    requires step == Lease(db, c, limit, leaseNs, tokens, now) && expires == LeaseEnd(now, leaseNs)
    ensures if ValidIdentifier(c, MAX_ID_BYTES) && 1 <= limit <= MAX_CLAIM_LIMIT && ValidLease(leaseNs) && now > 0 && expires <= MAX_INT64
            then step == LeaseReleased(db, c, limit, tokens, expires, now)
            else step == LeaseStep(db, LeaseFailed(Invalid))
  {
  }

  lemma LeaseOutcomeRedelivers(db: DB, released: map<Str, Delivery>, c: Str, tokens: seq<Str>, expires: int, now: int, step: LeaseStep)
    requires DeliveryShapes(db.deliveries) && DeliveryShapes(released) && Redelivers(db.deliveries, released)
    requires LeasesOrRefuses(db, released, c, tokens, expires, now, step)
    ensures step.db == db.(deliveries := step.db.deliveries)
    ensures Redelivers(db.deliveries, step.db.deliveries) && DeliveryShapes(step.db.deliveries)
  {
    if step.result.LeasedBatch? {
      LeaseBatchRedelivers(released, step.result.ids, tokens, expires, now);
      RedeliversIsTransitive(db.deliveries, released, step.db.deliveries);
    }
  }

  lemma LeaseRedelivers(db: DB, c: Str, limit: int, leaseNs: int, tokens: seq<Str>, now: int, step: LeaseStep)
    requires DeliveryShapes(db.deliveries) && step == Lease(db, c, limit, leaseNs, tokens, now)
    ensures step.db == db.(deliveries := step.db.deliveries)
    ensures Redelivers(db.deliveries, step.db.deliveries) && DeliveryShapes(step.db.deliveries)
  {
    ReleaseLeasesRedelivers(db, c, now);
    LeaseCases(db, c, limit, leaseNs, tokens, now, LeaseEnd(now, leaseNs), step);
    LeaseOutcomeRedelivers(db, ReleaseLeases(db, c, now), c, tokens, LeaseEnd(now, leaseNs), now, step);
  }

  lemma LeaseKeepsInv(cfg: Config, db: DB, c: Str, limit: int, leaseNs: int, tokens: seq<Str>, now: int)
    requires Inv(cfg, db)
    ensures Inv(cfg, Lease(db, c, limit, leaseNs, tokens, now).db)
  {
    var step := Lease(db, c, limit, leaseNs, tokens, now);
    LeaseRedelivers(db, c, limit, leaseNs, tokens, now, step);
    RedeliverKeepsInv(cfg, db, step.db.deliveries);
  }

  lemma ResetKeepsInv(cfg: Config, db: DB, key: SessionKey, expected: Str)
    requires Inv(cfg, db)
    ensures Inv(cfg, Reset(db, key, expected).db)
  {
  }
}
