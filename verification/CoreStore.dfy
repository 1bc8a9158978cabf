/**
 The Core store as it runs: one object whose five tables each transaction changes statement by
 statement, and a ghost record of the transactions so far. The tables are always what that record gives, so
 every call can promise its caller something about the store's whole past.
 */
module CoreStore {
  import opened GoTypes
  import opened StoreTypes
  import opened StoreSteps
  import opened StoreInvariant
  import opened StoreHistory
  import opened StoreOutbox
  import opened OutboxVerdicts
  import opened StoreVerdicts
  import opened StorePromises

  class Store {
    const cfg: Config
    var runs: map<Str, Run>
    var receipts: map<EventKey, Receipt>
    var horizons: map<Str, int>
    var deliveries: map<Str, Delivery>
    var sessions: map<SessionKey, Session>
    ghost var ops: seq<Op>

    function Contents(): DB
      reads this
    {
      DB(runs, receipts, horizons, deliveries, sessions)
    }

    ghost predicate Valid()
      reads this
    {
      ValidConfig(cfg) && Contents() == After(cfg, ops)
    }

    constructor (cfg: Config)
      requires ValidConfig(cfg)
      ensures Valid() && this.cfg == cfg && ops == []
    {
      this.cfg := cfg;
      ops := [];
      runs, receipts, horizons, deliveries, sessions := map[], map[], map[], map[], map[];
    }

    method Rollback(begun: DB)
      modifies this
      ensures Contents() == begun && ops == old(ops)
    {
      runs, receipts, horizons, deliveries, sessions :=
        begun.runs, begun.receipts, begun.horizons, begun.deliveries, begun.sessions;
    }

    /** Records the transaction that has just changed the tables. */
    ghost method Commit(op: Op, begun: DB)
      requires ValidConfig(cfg) && begun == After(cfg, ops) && Contents() == Apply(cfg, begun, op)
      modifies this`ops
      ensures Valid() && ops == old(ops) + [op] && Contents() == old(Contents())
    {
      AfterOneMore(cfg, ops, op, ops + [op]);
      ops := ops + [op];
    }

    // ---- Admission ----

    method EvictInboundReceipts(c: Str, now: int) returns (horizon: int)
      modifies this
      ensures c in horizons && horizon == horizons[c]
      ensures DeliveriesLinked(old(runs), old(deliveries)) ==> Evicts(cfg, old(Contents()), c, now, Contents())
      ensures Contents() == Evict(cfg, old(Contents()), c, now) && ops == old(ops)
    {
      var begun := Contents();
      if DeliveriesLinked(runs, deliveries) { EvictVerdict(cfg, begun, c, now, Evict(cfg, begun, c, now)); }
      horizons := AdvanceHorizon(horizons, c, Cutoff(cfg, now));
      horizon := horizons[c];
      receipts := KeepReceipts(receipts, c, horizon);
      deliveries := KeepDeliveries(begun, receipts, c);
      runs := KeepRuns(begun, receipts, deliveries, c);
    }

    /** SUM(length(input_text)) over a connector's Runs. */
    method RetainedInputBytes(c: Str) returns (total: nat)
      ensures total == InputBytes(runs, RunsOf(runs, c))
    {
      total := 0;
      var rest := RunsOf(runs, c);
      while rest != {}
        invariant rest <= RunsOf(runs, c)
        invariant total + InputBytes(runs, rest) == InputBytes(runs, RunsOf(runs, c))
        decreases |rest|
      {
        var r :| r in rest;
        InputBytesRemove(runs, rest, r);
        total := total + |runs[r].origin.input|;
        rest := rest - {r};
      }
    }

    method CheckInboundCapacity(c: Str, newInputBytes: nat, pagesFull: bool) returns (ok: bool)
      ensures ok <==> HasCapacity(cfg, Contents(), c, newInputBytes, pagesFull)
    {
      var checks := [
        Pair(|ReceiptsOf(receipts, c)|, cfg.maxReceipts), Pair(|QueuedOf(runs, c)|, cfg.maxQueued),
        Pair(|LiveOf(runs, c)|, cfg.maxNonterminal), Pair(|UnresolvedOf(runs, deliveries, c)|, cfg.maxPending)];
      for n := 0 to |checks|
        invariant forall m :: 0 <= m < n ==> checks[m].fst < checks[m].snd
      {
        if checks[n].fst >= checks[n].snd { return false; }
      }
      var retained := RetainedInputBytes(c);
      assert checks[0].fst < checks[0].snd && checks[1].fst < checks[1].snd;
      assert checks[2].fst < checks[2].snd && checks[3].fst < checks[3].snd;
      return retained <= cfg.maxInputBytes - newInputBytes && !pagesFull;
    }

    method ReplayReceipt(begun: DB, i: IngestInput) returns (result: IngestResult)
      requires EventKey(i.connector, i.eventId) in receipts
      modifies this
      ensures ReceiptsLinked(old(runs), old(receipts), old(horizons)) ==> Replays(begun, old(Contents()), i, IngestStep(Contents(), result))
      ensures IngestStep(Contents(), result) == Replay(begun, old(Contents()), i) && ops == old(ops)
    {
      if ReceiptsLinked(runs, receipts, horizons) { ReplayVerdict(begun, Contents(), i); }
      var receipt := receipts[EventKey(i.connector, i.eventId)];
      var expected := i.payloadHash;
      if receipt.hashVersion == 1 {
        expected := i.legacyHash;
      } else if receipt.hashVersion != 2 {
        Rollback(begun);
        return IngestRefused(Internal);
      }
      if receipt.hash != expected { return IngestRefused(Conflict); }
      if receipt.runId !in runs {
        Rollback(begun);
        return IngestRefused(Internal);
      }
      return Duplicate(runs[receipt.runId], receipt.runId);
    }

    method AdmitNewEvent(begun: DB, horizon: int, i: IngestInput, env: IngestEnv) returns (result: IngestResult)
      requires i.connector in horizons && horizon == horizons[i.connector]
      modifies this
      ensures Admits(cfg, begun, old(Contents()), i, env, IngestStep(Contents(), result))
      ensures IngestStep(Contents(), result) == Admit(cfg, begun, old(Contents()), i, env) && ops == old(ops)
    {
      AdmitVerdict(cfg, begun, Contents(), i, env, Admit(cfg, begun, Contents(), i, env));
      result := AdmitTx(begun, horizon, i, env);
    }

    /** The checks in order, each with its own commit or rollback, and the two inserts. */
    method AdmitTx(begun: DB, horizon: int, i: IngestInput, env: IngestEnv) returns (result: IngestResult)
      requires i.connector in horizons && horizon == horizons[i.connector]
      modifies this
      ensures IngestStep(Contents(), result) == Admit(cfg, begun, old(Contents()), i, env) && ops == old(ops)
    {
      if i.occurredAt > ShiftMillis(env.now, cfg.futureSkew) { return IngestRefused(EventExpired); }
      if i.occurredAt <= horizon { return IngestRefused(EventExpired); }
      if i.occurredAt < ShiftMillis(env.now, -cfg.acceptWindow) { return IngestRefused(EventExpired); }
      if env.auth.None? { return IngestRefused(NotAuthorizedEvent); }
      if !ValidAuthorization(env.auth.value) {
        Rollback(begun);
        return IngestRefused(Invalid);
      }
      var a := env.auth.value;
      var scope := SessionKey(a.binding, i.connector, i.actor, i.conversation, a.targetId, a.targetRevision);
      if ScopeBusy(runs, scope) { return IngestRefused(SessionScopeBusy); }
      var ok := CheckInboundCapacity(i.connector, |i.text|, env.pagesFull);
      if !ok { return IngestRefused(QuotaExceeded); }
      if env.newRunId.None? { return IngestRefused(Internal); }
      var id := env.newRunId.value;
      if !ValidIdentifier(id, MAX_ID_BYTES) {
        Rollback(begun);
        return IngestRefused(Invalid);
      }
      if id in runs {
        Rollback(begun);
        return IngestRefused(Conflict);
      }
      var origin := Origin(scope, i.eventId, i.message, a.policyRevision, i.text, env.now);
      runs := runs[id := Run(origin, Queued, [], None, 0, false, None, 0, None, None, None, env.now)];
      receipts := receipts[EventKey(i.connector, i.eventId) := Receipt(i.payloadHash, 2, id, i.occurredAt, env.now)];
      return Created(id);
    }

    method IngestTextRun(i: IngestInput, env: IngestEnv) returns (result: IngestResult)
      requires Valid()
      modifies this
      ensures Valid() && ops == old(ops) + [OpIngest(i, env)]
      ensures Ingests(cfg, old(ops), i, env, IngestStep(Contents(), result))
      ensures IngestStep(Contents(), result) == Ingest(cfg, old(Contents()), i, env)
    {
      AfterOneMore(cfg, ops, OpIngest(i, env), ops + [OpIngest(i, env)]);
      IngestPromises(cfg, ops, i, env, Ingest(cfg, Contents(), i, env));
      ops := ops + [OpIngest(i, env)];
      if !ValidIngest(i) { return IngestRefused(Invalid); }
      var begun := Contents();
      if env.now <= 0 { return IngestRefused(Invalid); }
      var horizon := EvictInboundReceipts(i.connector, env.now);
      if EventKey(i.connector, i.eventId) in receipts {
        result := ReplayReceipt(begun, i);
      } else {
        result := AdmitNewEvent(begun, horizon, i, env);
      }
    }

    // ---- Dispatch ----

    method ClaimQueuedRun(leaseNs: int, token: Option<Str>, now: int) returns (result: ClaimResult)
      requires Valid()
      modifies this
      ensures Valid() && ops == old(ops) + [OpClaim(leaseNs, token, now)]
      ensures Claims(old(Contents()), leaseNs, token, now, RunsOut(now, leaseNs), ClaimStep(Contents(), result))
      ensures ClaimStep(Contents(), result) == Claim(old(Contents()), leaseNs, token, now)
    {
      ghost var begun := Contents();
      result := ClaimTx(leaseNs, token, now);
      ClaimVerdict(begun, leaseNs, token, now, RunsOut(now, leaseNs), ClaimStep(Contents(), result));
      Commit(OpClaim(leaseNs, token, now), begun);
    }

    /** The transaction: requeue expired dispatches, then take the head of the queue if nothing is active. */
    method ClaimTx(leaseNs: int, token: Option<Str>, now: int) returns (result: ClaimResult)
      modifies this
      ensures ClaimStep(Contents(), result) == Claim(old(Contents()), leaseNs, token, now) && ops == old(ops)
    {
      if leaseNs < NS_PER_SECOND || leaseNs > MAX_LEASE_NS { return ClaimFailed(Invalid); }
      if now <= 0 { return ClaimFailed(Invalid); }
      var begun := Contents();
      runs := ReleaseExpired(runs, now);
      if exists r :: r in runs && Active(runs[r]) { return NothingToClaim; }
      var head := QueueHead(runs);
      if head.None? { return NothingToClaim; }
      if token.None? {
        Rollback(begun);
        return ClaimFailed(Internal);
      }
      var leaseMillis := leaseNs / NS_PER_MS;
      if !ValidIdentifier(token.value, MAX_ID_BYTES) || leaseMillis <= 0 || now > MAX_INT64 - leaseMillis {
        Rollback(begun);
        return ClaimFailed(Invalid);
      }
      var run := runs[head.value];
      run := run.(state := Dispatching, dispatchToken := token.value, dispatchExpires := Some(now + leaseMillis),
                  attempts := run.attempts + 1, updatedAt := now);
      runs := runs[head.value := run];
      return Claimed(head.value, run);
    }

    method PrepareRunStart(i: PrepareInput, now: int) returns (result: PrepareResult)
      requires Valid()
      modifies this
      ensures Valid() && ops == old(ops) + [OpPrepare(i, now)]
      ensures Prepares(cfg, old(ops), i, now, PrepareStep(Contents(), result))
      ensures PrepareStep(Contents(), result) == Prepare(old(Contents()), i, now)
    {
      AfterOneMore(cfg, ops, OpPrepare(i, now), ops + [OpPrepare(i, now)]);
      PreparePromises(cfg, ops, i, now, Prepare(Contents(), i, now));
      ops := ops + [OpPrepare(i, now)];
      if now <= 0 || !ValidPrepare(i, now) { return PrepareFailed(Invalid); }
      if i.runId !in runs { return PrepareFailed(NotFound); }
      var run := runs[i.runId];
      if run.state != Dispatching || run.dispatchToken != i.token || run.dispatchExpires.None? || run.dispatchExpires.value <= now {
        return PrepareFailed(DispatchLost);
      }
      if run.prepared { return Prepared(StartOf(run)); }
      var scope := run.origin.scope;
      if i.session.None? {
        if scope in sessions { return PrepareFailed(Conflict); }
      } else {
        if scope !in sessions { return PrepareFailed(Conflict); }
        if sessions[scope].ref != i.session.value { return PrepareFailed(Conflict); }
      }
      run := run.(prepared := true, startSession := i.session, startDeadline := i.deadline, updatedAt := now);
      runs := runs[i.runId := run];
      return Prepared(StartOf(run));
    }

    method MarkRunRunning(id: Str, token: Str, now: int) returns (result: UnitResult)
      requires Valid()
      modifies this
      ensures Valid() && ops == old(ops) + [OpMark(id, token, now)]
      ensures Marks(cfg, old(ops), id, token, now, UnitStep(Contents(), result))
      ensures UnitStep(Contents(), result) == MarkRunning(old(Contents()), id, token, now)
    {
      AfterOneMore(cfg, ops, OpMark(id, token, now), ops + [OpMark(id, token, now)]);
      MarkPromises(cfg, ops, id, token, now, MarkRunning(Contents(), id, token, now));
      ops := ops + [OpMark(id, token, now)];
      if !ValidIdentifier(id, MAX_ID_BYTES) { return Refused(Invalid); }
      if !ValidIdentifier(token, MAX_ID_BYTES) { return Refused(Invalid); }
      if now <= 0 { return Refused(Invalid); }
      if id !in runs { return Refused(NotFound); }
      var run := runs[id];
      if run.dispatchToken != token { return Refused(DispatchLost); }
      if run.state == Running { return Done; }
      if run.state != Dispatching { return Refused(InvalidTransition); }
      if run.dispatchExpires.None? || run.dispatchExpires.value <= now { return Refused(DispatchLost); }
      if !run.prepared { return Refused(StartUnprepared); }
      runs := runs[id := run.(state := Running, dispatchExpires := None, updatedAt := now)];
      return Done;
    }

    method InsertTextDelivery(run: Str, reply: DeliveryInput, now: int) returns (result: UnitResult)
      requires run in runs
      modifies this`deliveries
      ensures DeliveriesLinked(runs, old(deliveries)) ==> Inserts(cfg, old(Contents()), run, reply, now, UnitStep(Contents(), result))
      ensures UnitStep(Contents(), result) == InsertDelivery(cfg, old(Contents()), run, reply, now)
    {
      if DeliveriesLinked(runs, deliveries) {
        InsertVerdict(cfg, Contents(), run, reply, now, InsertDelivery(cfg, Contents(), run, reply, now));
      }
      if reply.id in deliveries && deliveries[reply.id].runId in runs {
        if deliveries[reply.id].runId == run && deliveries[reply.id].text == reply.text { return Done; }
        return Refused(Conflict);
      }
      if HasDelivery(deliveries, run) {
        if exists d :: d in deliveries && deliveries[d].runId == run && deliveries[d].text == reply.text { return Done; }
        return Refused(Conflict);
      }
      var pending := |UnresolvedOf(runs, deliveries, runs[run].origin.scope.connector)|;
      if pending >= cfg.maxPending { return Refused(QuotaExceeded); }
      deliveries := deliveries[reply.id := Delivery(run, reply.text, Pending, [], None, 0, now, [], None, now, now)];
      return Done;
    }

    method FinishRun(i: FinishInput, reply: Option<DeliveryInput>, now: int) returns (result: UnitResult)
      requires Valid()
      modifies this
      ensures Valid() && ops == old(ops) + [OpFinish(i, reply, now)]
      ensures Finishes(cfg, old(ops), i, reply, now, UnitStep(Contents(), result))
      ensures UnitStep(Contents(), result) == Finish(cfg, old(Contents()), i, reply, now)
    {
      AfterOneMore(cfg, ops, OpFinish(i, reply, now), ops + [OpFinish(i, reply, now)]);
      FinishPromises(cfg, ops, i, reply, now, Finish(cfg, Contents(), i, reply, now));
      result := FinishTx(i, reply, now);
      ops := ops + [OpFinish(i, reply, now)];
    }

    /** The transaction: the terminal row, the session and the reply, or nothing. */
    method FinishTx(i: FinishInput, reply: Option<DeliveryInput>, now: int) returns (result: UnitResult)
      modifies this
      ensures UnitStep(Contents(), result) == Finish(cfg, old(Contents()), i, reply, now) && ops == old(ops)
    {
      if !ValidFinish(i) || now <= 0 { return Refused(Invalid); }
      var begun := Contents();
      if i.runId !in runs { return Refused(NotFound); }
      var run := runs[i.runId];
      if run.dispatchToken != i.token { return Refused(DispatchLost); }
      if !run.prepared { return Refused(StartUnprepared); }
      if reply.Some? && !ValidDelivery(reply.value) { return Refused(Invalid); }
      if Terminal(run.state) {
        if !SameFinish(run, i) { return Refused(Conflict); }
      } else {
        if run.state != Dispatching && run.state != Running { return Refused(InvalidTransition); }
        if run.state == Dispatching && (run.dispatchExpires.None? || run.dispatchExpires.value <= now) {
          return Refused(DispatchLost);
        }
        var output := if i.state == Completed then Some(i.output) else None;
        var session := if i.resultSession == [] then None else Some(i.resultSession);
        runs := runs[i.runId := run.(state := i.state, dispatchExpires := None, output := output, failure := i.failure,
                                     resultSession := session, updatedAt := now)];
        if i.resultSession != [] {
          sessions := sessions[run.origin.scope := Session(i.resultSession, now)];
        }
      }
      result := Done;
      if reply.Some? {
        result := InsertTextDelivery(i.runId, reply.value, now);
        if result.Refused? { Rollback(begun); }
      }
    }

    // ---- Outbox ----

    method ClaimTextDeliveries(c: Str, limit: int, leaseNs: int, tokens: seq<Str>, now: int) returns (result: LeaseResult)
      requires Valid()
      modifies this
      ensures Valid() && ops == old(ops) + [OpLease(c, limit, leaseNs, tokens, now)]
      ensures LeasesOut(old(Contents()), c, limit, leaseNs, tokens, now, RunsOut(now, leaseNs), LeaseStep(Contents(), result))
      ensures LeaseStep(Contents(), result) == Lease(old(Contents()), c, limit, leaseNs, tokens, now)
    {
      ghost var begun := Contents();
      result := ClaimDeliveriesChecked(c, limit, leaseNs, tokens, now);
      LeaseVerdict(begun, c, limit, leaseNs, tokens, now, RunsOut(now, leaseNs), LeaseStep(Contents(), result));
      Commit(OpLease(c, limit, leaseNs, tokens, now), begun);
    }

    /** The checks before the transaction, and the transaction. */
    method ClaimDeliveriesChecked(c: Str, limit: int, leaseNs: int, tokens: seq<Str>, now: int) returns (result: LeaseResult)
      modifies this
      ensures LeaseStep(Contents(), result) == Lease(old(Contents()), c, limit, leaseNs, tokens, now) && ops == old(ops)
    {
      ghost var end, step := LeaseEnd(now, leaseNs), Lease(Contents(), c, limit, leaseNs, tokens, now);
      LeaseSplits(Contents(), c, limit, leaseNs, tokens, now, end, step);
      var leaseMillis := leaseNs / NS_PER_MS;
      var expires := now + leaseMillis;
      assert expires == end;
      if !ValidIdentifier(c, MAX_ID_BYTES) || !(1 <= limit <= MAX_CLAIM_LIMIT) || !ValidLease(leaseNs) || now <= 0
         || now > MAX_INT64 - leaseMillis
      {
        return LeaseFailed(Invalid);
      }
      result := LeaseClaimable(c, limit, tokens, expires, now);
      assert LeaseStep(Contents(), result) == step;
    }

    /** The transaction: release expired leases, select, lease each; any failure undoes it all. */
    method LeaseClaimable(c: Str, limit: nat, tokens: seq<Str>, expires: int, now: int) returns (result: LeaseResult)
      modifies this
      ensures LeaseStep(Contents(), result) == LeaseReleased(old(Contents()), c, limit, tokens, expires, now) && ops == old(ops)
    {
      var begun := Contents();
      deliveries := ReleaseLeases(begun, c, now);
      var ids := ClaimBatch(Contents(), c, now, limit);
      result := LeaseEach(begun, ids, tokens, expires, now);
      if result.LeaseFailed? { Rollback(begun); }
    }

    /** The loop over the selected IDs: a bad or missing token stops it, and the caller rolls back. */
    method LeaseEach(ghost begun: DB, ids: seq<Str>, tokens: seq<Str>, expires: int, now: int) returns (result: LeaseResult)
      requires forall n :: 0 <= n < |ids| ==> ids[n] in deliveries
      modifies this`deliveries
      ensures var step := LeaseIds(begun, old(Contents()), ids, tokens, expires, now);
        result == step.result && (result.LeasedBatch? ==> Contents() == step.db)
      ensures result.LeaseFailed? ==> LeaseIds(begun, old(Contents()), ids, tokens, expires, now).db == begun
    {
      for n := 0 to |ids|
        invariant n <= |tokens| && forall m :: 0 <= m < n ==> ValidIdentifier(tokens[m], MAX_ID_BYTES)
        invariant deliveries == LeaseAll(old(deliveries), ids[..n], tokens, expires, now)
      {
        if n >= |tokens| { return LeaseFailed(Internal); }
        if !ValidIdentifier(tokens[n], MAX_ID_BYTES) { return LeaseFailed(Invalid); }
        var d := deliveries[ids[n]];
        deliveries := deliveries[ids[n] := d.(state := Leased, leaseToken := tokens[n], leaseExpires := Some(expires),
                                              attempts := d.attempts + 1, updatedAt := now)];
        assert ids[..n + 1][..n] == ids[..n];
      }
      assert ids[..|ids|] == ids;
      return LeasedBatch(ids);
    }

    /** retryBackoff: the capped doubling, in nanoseconds. */
    method RetryBackoff(attempt: int) returns (delay: int)
      requires cfg.retryDelay >= 1
      ensures delay == BackoffLoop(cfg.retryDelay, 1, attempt)
      ensures attempt >= 1 ==> delay == Min(cfg.retryDelay * Pow2(attempt - 1), MAX_RETRY_NS)
    {
      if attempt >= 1 { BackoffIsCappedDoubling(cfg.retryDelay, 1, attempt); }
      delay := cfg.retryDelay;
      var current := 1;
      while current < attempt && delay < MAX_RETRY_NS
        invariant delay >= 1 && BackoffLoop(delay, current, attempt) == BackoffLoop(cfg.retryDelay, 1, attempt)
        decreases attempt - current
      {
        if delay > MAX_RETRY_NS / 2 { return MAX_RETRY_NS; }
        delay := delay * 2;
        current := current + 1;
      }
      if delay > MAX_RETRY_NS { return MAX_RETRY_NS; }
    }

    method CompleteDelivery(i: CompleteInput, now: int) returns (result: UnitResult)
      requires Valid()
      modifies this
      ensures Valid() && ops == old(ops) + [OpComplete(i, now)]
      ensures Completes(cfg, old(ops), i, now, UnitStep(Contents(), result))
      ensures UnitStep(Contents(), result) == Complete(cfg, old(Contents()), i, now)
    {
      AfterOneMore(cfg, ops, OpComplete(i, now), ops + [OpComplete(i, now)]);
      CompletePromises(cfg, ops, i, now, Complete(cfg, Contents(), i, now));
      result := CompleteTx(i, now);
      ops := ops + [OpComplete(i, now)];
    }

    /** The transaction: the leased row takes the outcome. */
    method CompleteTx(i: CompleteInput, now: int) returns (result: UnitResult)
      requires cfg.retryDelay >= 1
      modifies this`deliveries
      ensures UnitStep(Contents(), result) == Complete(cfg, old(Contents()), i, now)
    {
      if now <= 0 || !ValidCompletion(i) { return Refused(Invalid); }
      if !OwnedBy(Contents(), i.deliveryId, i.connector) { return Refused(NotFound); }
      var d := deliveries[i.deliveryId];
      if d.leaseToken != i.token { return Refused(LeaseLost); }
      if d.state != Leased {
        return if RepeatsCompletion(d, i) then Done else Refused(Conflict);
      }
      if d.leaseExpires.None? || d.leaseExpires.value <= now { return Refused(LeaseLost); }
      match i.outcome {
      case OutcomeDelivered =>
        d := d.(state := Delivered, leaseExpires := None, providerRef := i.providerRef, failure := None, updatedAt := now);
      case OutcomeRetry =>
        var delay := RetryBackoff(d.attempts);
        var retryAt := Wrap64(now + delay / NS_PER_MS);
        if retryAt <= now { return Refused(Invalid); }
        d := d.(state := Pending, leaseExpires := None, availableAt := retryAt, failure := i.failure, updatedAt := now);
      case OutcomePermanentFailure =>
        d := d.(state := PermanentFailed, leaseExpires := None, failure := i.failure, updatedAt := now);
      }
      deliveries := deliveries[i.deliveryId := d];
      return Done;
    }

    // ---- Offline maintenance ----

    method ResetSession(key: SessionKey, expected: Str) returns (result: ResetResult)
      requires Valid()
      modifies this
      ensures Valid() && ops == old(ops) + [OpReset(key, expected)]
      ensures Resets(old(Contents()), key, expected, ResetStep(Contents(), result))
      ensures ResetStep(Contents(), result) == Reset(old(Contents()), key, expected)
    {
      ghost var begun := Contents();
      result := ResetTx(key, expected);
      ResetVerdict(begun, key, expected, ResetStep(Contents(), result));
      Commit(OpReset(key, expected), begun);
    }

    /** The transaction: inspect the scope, then delete its session row. */
    method ResetTx(key: SessionKey, expected: Str) returns (result: ResetResult)
      modifies this`sessions
      ensures ResetStep(Contents(), result) == Reset(old(Contents()), key, expected)
    {
      if !ValidSessionKey(key) || !ValidSessionRef(expected) { return ResetRefused(Invalid); }
      if ScopeBusy(runs, key) { return ResetRefused(SessionScopeBusy); }
      if key !in sessions { return ResetNotFound; }
      if sessions[key].ref != expected { return ResetRefMismatch; }
      sessions := map k | k in sessions && k != key :: sessions[k];
      return ResetDone;
    }
  }
}
