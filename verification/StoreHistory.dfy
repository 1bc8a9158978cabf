/**
 Whole runs of the Core store: any sequence of transactions, in any order, from an empty database,
 with an arbitrary clock reading in each. A crash between transactions changes nothing that is
 committed, so it needs no step of its own.
 */
module StoreHistory {
  import opened GoTypes
  import opened StoreTypes
  import opened StoreSteps
  import opened StoreInvariant

  datatype Op =
    | OpIngest(ingest: IngestInput, env: IngestEnv)
    | OpClaim(leaseNs: int, token: Option<Str>, now: int)
    | OpPrepare(prepare: PrepareInput, now: int)
    | OpMark(id: Str, dispatchToken: Str, now: int)
    | OpFinish(finish: FinishInput, reply: Option<DeliveryInput>, now: int)
    | OpLease(connector: Str, limit: int, leaseNs: int, tokens: seq<Str>, now: int)
    | OpComplete(complete: CompleteInput, now: int)
    | OpReset(key: SessionKey, expected: Str)

  ghost function Apply(cfg: Config, db: DB, op: Op): DB {
    match op
    case OpIngest(i, env) => Ingest(cfg, db, i, env).db
    case OpClaim(lease, token, now) => Claim(db, lease, token, now).db
    case OpPrepare(i, now) => Prepare(db, i, now).db
    case OpMark(id, token, now) => MarkRunning(db, id, token, now).db
    case OpFinish(i, reply, now) => Finish(cfg, db, i, reply, now).db
    case OpLease(c, limit, lease, tokens, now) => Lease(db, c, limit, lease, tokens, now).db
    case OpComplete(i, now) => Complete(cfg, db, i, now).db
    case OpReset(key, expected) => Reset(db, key, expected).db
  }

  /** The database after a whole run. */
  ghost function After(cfg: Config, ops: seq<Op>): DB
    decreases |ops|
  {
    if |ops| == 0 then EMPTY_DB else Apply(cfg, After(cfg, ops[..|ops| - 1]), ops[|ops| - 1])
  }

  lemma AfterOneMore(cfg: Config, ops: seq<Op>, op: Op, all: seq<Op>)
    requires all == ops + [op]
    ensures After(cfg, all) == Apply(cfg, After(cfg, ops), op)
  {
    assert all[..|all| - 1] == ops;
  }

  lemma EmptyIsSound(cfg: Config)
    requires ValidConfig(cfg)
    ensures Inv(cfg, EMPTY_DB)
  {
    forall c: Str
      ensures RunQuota(cfg, EMPTY_DB.runs, c) && |ReceiptsOf(EMPTY_DB.receipts, c)| <= cfg.maxReceipts
      ensures |UnresolvedOf(EMPTY_DB.runs, EMPTY_DB.deliveries, c)| <= cfg.maxPending
    {
      assert RunsOf(EMPTY_DB.runs, c) == {} && LiveOf(EMPTY_DB.runs, c) == {} && WaitingOf(EMPTY_DB.runs, c) == {};
      assert ReceiptsOf(EMPTY_DB.receipts, c) == {} && UnresolvedOf(EMPTY_DB.runs, EMPTY_DB.deliveries, c) == {};
    }
  }

  lemma ApplyKeepsInv(cfg: Config, db: DB, op: Op)
    requires Inv(cfg, db)
    ensures Inv(cfg, Apply(cfg, db, op))
  {
    match op
    case OpIngest(i, env) => IngestKeepsInv(cfg, db, i, env);
    case OpClaim(lease, token, now) => ClaimKeepsInv(cfg, db, lease, token, now);
    case OpPrepare(i, now) => PrepareKeepsInv(cfg, db, i, now);
    case OpMark(id, token, now) => MarkRunningKeepsInv(cfg, db, id, token, now);
    case OpFinish(i, reply, now) => FinishKeepsInv(cfg, db, i, reply, now);
    case OpLease(c, limit, lease, tokens, now) => LeaseKeepsInv(cfg, db, c, limit, lease, tokens, now);
    case OpComplete(i, now) => CompleteKeepsInv(cfg, db, i, now);
    case OpReset(key, expected) => ResetKeepsInv(cfg, db, key, expected);
  }

  /** Every reachable database meets the invariant: one active Run, one live Run per scope, frozen sessions, links, quotas. */
  lemma {:induction false} EveryRunIsSound(cfg: Config, ops: seq<Op>)
    requires ValidConfig(cfg)
    ensures Inv(cfg, After(cfg, ops))
    decreases |ops|
  {
    if |ops| == 0 { EmptyIsSound(cfg); }
    else {
      EveryRunIsSound(cfg, ops[..|ops| - 1]);
      ApplyKeepsInv(cfg, After(cfg, ops[..|ops| - 1]), ops[|ops| - 1]);
    }
  }

  // ---- What no transaction does to a Run ----

  /** The Run keeps its origin and, once prepared, its frozen start; a terminal Run stays terminal. */
  ghost predicate RunPersists(before: Run, after: Run) {
    && after.origin == before.origin
    && (Live(after) ==> Live(before))
    && (before.prepared ==> after.prepared && StartOf(after) == StartOf(before))
  }

  ghost predicate RunsPersist(runs: map<Str, Run>, after: map<Str, Run>) {
    after.Keys == runs.Keys && forall r :: r in runs ==> RunPersists(runs[r], after[r])
  }

  /** As RunsPersist, and no Run becomes terminal either. */
  ghost predicate RunsAdvance(runs: map<Str, Run>, after: map<Str, Run>) {
    RunsPersist(runs, after) && forall r :: r in runs && Live(runs[r]) ==> Live(after[r])
  }

  lemma ReleasePersists(runs: map<Str, Run>, now: int)
    ensures RunsAdvance(runs, ReleaseExpired(runs, now))
  {
  }

  lemma ClaimStepPersists(db: DB, released: map<Str, Run>, step: ClaimStep)
    requires RunsAdvance(db.runs, released) && ClaimsOrReleases(db, released, step)
    ensures step.db == db.(runs := step.db.runs) && RunsAdvance(db.runs, step.db.runs)
  {
    if step.result.Claimed? { UpdatePersists(released, step.result.id, step.result.run); }
  }

  lemma ClaimPersists(db: DB, leaseNs: int, token: Option<Str>, now: int)
    ensures var after := Claim(db, leaseNs, token, now).db; after == db.(runs := after.runs) && RunsAdvance(db.runs, after.runs)
  {
    ReleasePersists(db.runs, now);
    ClaimCases(db, leaseNs, token, now);
    ClaimStepPersists(db, ReleaseExpired(db.runs, now), Claim(db, leaseNs, token, now));
  }

  lemma UpdatePersists(runs: map<Str, Run>, id: Str, run: Run)
    requires id in runs && RunPersists(runs[id], run)
    ensures RunsPersist(runs, runs[id := run])
    ensures (Live(runs[id]) ==> Live(run)) ==> RunsAdvance(runs, runs[id := run])
  {
  }

  lemma InsertDeliveryPersists(cfg: Config, db: DB, run: Str, reply: DeliveryInput, now: int)
    requires run in db.runs
    ensures var after := InsertDelivery(cfg, db, run, reply, now).db; after == db.(deliveries := after.deliveries)
  {
  }

  lemma CommitPersists(cfg: Config, db: DB, i: FinishInput, reply: Option<DeliveryInput>, now: int, mid: DB, after: DB)
    requires i.runId in db.runs && mid == (if Terminal(db.runs[i.runId].state) then db else CommitTerminal(db, db.runs[i.runId], i, now))
    requires if reply.None? then after == mid else after == mid.(deliveries := after.deliveries)
    requires Terminal(i.state)
    ensures after.receipts == db.receipts && after.horizons == db.horizons && RunsPersist(db.runs, after.runs)
  {
    var run := db.runs[i.runId];
    if Live(run) { UpdatePersists(db.runs, i.runId, FinishedRun(run, i, now)); }
  }

  lemma FinishPersists(cfg: Config, db: DB, i: FinishInput, reply: Option<DeliveryInput>, now: int)
    ensures var after := Finish(cfg, db, i, reply, now).db;
      after.receipts == db.receipts && after.horizons == db.horizons && RunsPersist(db.runs, after.runs)
  {
    FinishCases(cfg, db, i, reply, now);
    var step := Finish(cfg, db, i, reply, now);
    if step.result.Done? {
      var mid := if Terminal(db.runs[i.runId].state) then db else CommitTerminal(db, db.runs[i.runId], i, now);
      if reply.Some? { InsertDeliveryPersists(cfg, mid, i.runId, reply.value, now); }
      CommitPersists(cfg, db, i, reply, now, mid, step.db);
    }
  }

  /** Only an ingest touches receipts, horizons or the set of Runs. */
  lemma OnlyIngestAdmits(cfg: Config, db: DB, op: Op)
    requires !op.OpIngest? && DeliveryShapes(db.deliveries)
    ensures var after := Apply(cfg, db, op);
      after.receipts == db.receipts && after.horizons == db.horizons && RunsPersist(db.runs, after.runs)
  {
    match op
    case OpClaim(lease, token, now) => ClaimPersists(db, lease, token, now);
    case OpPrepare(i, now) => PreparePersists(db, i, now);
    case OpMark(id, token, now) => MarkPersists(db, id, token, now);
    case OpFinish(i, reply, now) => FinishPersists(cfg, db, i, reply, now);
    case OpLease(c, limit, lease, tokens, now) => LeaseRedelivers(db, c, limit, lease, tokens, now, Lease(db, c, limit, lease, tokens, now));
    case OpComplete(i, now) => CompletePersists(cfg, db, i, now);
    case OpReset(key, expected) => ResetPersists(db, key, expected);
  }

  lemma CompletePersists(cfg: Config, db: DB, i: CompleteInput, now: int)
    ensures var after := Complete(cfg, db, i, now).db; after == db.(deliveries := after.deliveries)
  {
    CompleteCases(cfg, db, i, now);
  }

  lemma ResetPersists(db: DB, key: SessionKey, expected: Str)
    ensures var after := Reset(db, key, expected).db; after == db.(sessions := after.sessions)
  {
  }

  lemma PreparePersists(db: DB, i: PrepareInput, now: int)
    ensures var after := Prepare(db, i, now).db; after == db.(runs := after.runs) && RunsAdvance(db.runs, after.runs)
  {
    if i.runId in db.runs && Prepare(db, i, now).db != db { UpdatePersists(db.runs, i.runId, Prepare(db, i, now).db.runs[i.runId]); }
  }

  lemma MarkPersists(db: DB, id: Str, token: Str, now: int)
    ensures var after := MarkRunning(db, id, token, now).db; after == db.(runs := after.runs) && RunsAdvance(db.runs, after.runs)
  {
    if id in db.runs && MarkRunning(db, id, token, now).db != db { UpdatePersists(db.runs, id, MarkRunning(db, id, token, now).db.runs[id]); }
  }

  // ---- Replay safety ----

  /** One created Run: the event it came from, what the authorizer said of it, and when it was created. */
  datatype Admission = Admission(event: IngestInput, auth: Authorization, at: int, runId: Str)

  /** The columns that an admission writes once are those of its event and its authorization. */
  ghost predicate MadeFrom(run: Run, a: Admission) {
    && run.origin.scope.binding == a.auth.binding && run.origin.scope.connector == a.event.connector
    && run.origin.scope.actor == a.event.actor && run.origin.scope.conversation == a.event.conversation
    && run.origin.scope.targetId == a.auth.targetId && run.origin.scope.targetRevision == a.auth.targetRevision
    && run.origin.eventId == a.event.eventId && run.origin.message == a.event.message && run.origin.input == a.event.text
    && run.origin.policyRevision == a.auth.policyRevision && run.origin.createdAt == a.at
  }

  ghost function AdmissionOf(cfg: Config, db: DB, op: Op): seq<Admission> {
    if op.OpIngest? && Ingest(cfg, db, op.ingest, op.env).result.Created? && op.env.auth.Some? then
      [Admission(op.ingest, op.env.auth.value, op.env.now, Ingest(cfg, db, op.ingest, op.env).result.runId)]
    else []
  }

  /** Every Run a whole run ever created, in order. */
  ghost function Admissions(cfg: Config, ops: seq<Op>): seq<Admission>
    decreases |ops|
  {
    if |ops| == 0 then []
    else Admissions(cfg, ops[..|ops| - 1]) + AdmissionOf(cfg, After(cfg, ops[..|ops| - 1]), ops[|ops| - 1])
  }

  ghost predicate Retained(db: DB, a: Admission) {
    var k := EventKey(a.event.connector, a.event.eventId);
    k in db.receipts && db.receipts[k].runId == a.runId && db.receipts[k].occurredAt == a.event.occurredAt
    && db.receipts[k].hash == a.event.payloadHash && db.receipts[k].hashVersion == 2
    && a.runId in db.runs && MadeFrom(db.runs[a.runId], a)
  }

  ghost predicate Expired(db: DB, a: Admission) {
    a.event.connector in db.horizons && a.event.occurredAt <= db.horizons[a.event.connector]
  }

  /** An admitted event is still known by its receipt, or its time lies at or below the horizon. */
  ghost predicate Remembered(db: DB, a: Admission) { Retained(db, a) || Expired(db, a) }

  lemma EvictRemembers(cfg: Config, db: DB, c: Str, now: int, a: Admission)
    requires Remembered(db, a)
    ensures Remembered(Evict(cfg, db, c, now), a)
  {
    var after := Evict(cfg, db, c, now);
    if Retained(db, a) && EventKey(a.event.connector, a.event.eventId) in after.receipts {
      assert HasReceipt(after.receipts, a.runId);
    }
  }

  lemma AddRunRemembers(db: DB, i: IngestInput, auth: Authorization, id: Str, now: int, a: Admission)
    requires Remembered(db, a) && id !in db.runs && EventKey(i.connector, i.eventId) !in db.receipts
    ensures Remembered(AddRun(db, i, auth, id, now), a)
  {
  }

  lemma ApplyRemembers(cfg: Config, db: DB, op: Op, a: Admission)
    requires DeliveryShapes(db.deliveries) && Remembered(db, a)
    ensures Remembered(Apply(cfg, db, op), a)
  {
    if op.OpIngest? {
      IngestCases(cfg, db, op.ingest, op.env);
      EvictRemembers(cfg, db, op.ingest.connector, op.env.now, a);
      if Ingest(cfg, db, op.ingest, op.env).result.Created? {
        AddRunRemembers(Evict(cfg, db, op.ingest.connector, op.env.now), op.ingest, op.env.auth.value, op.env.newRunId.value, op.env.now, a);
      }
    } else {
      OnlyIngestAdmits(cfg, db, op);
    }
  }

  lemma CreationRemembers(cfg: Config, db: DB, op: Op, a: Admission)
    requires AdmissionOf(cfg, db, op) == [a]
    ensures Retained(Apply(cfg, db, op), a)
  {
    IngestCases(cfg, db, op.ingest, op.env);
  }

  /** One connector's event ID and occurrence time. */
  predicate SameEvent(a: IngestInput, b: IngestInput) { a.connector == b.connector && a.eventId == b.eventId && a.occurredAt == b.occurredAt }

  /** A remembered event is never admitted again. */
  lemma RememberedIsNotCreated(cfg: Config, db: DB, op: Op, a: Admission, b: Admission)
    requires Remembered(db, a) && AdmissionOf(cfg, db, op) == [b]
    ensures !SameEvent(a.event, b.event)
  {
    IngestCases(cfg, db, op.ingest, op.env);
    EvictRemembers(cfg, db, op.ingest.connector, op.env.now, a);
  }

  lemma {:induction false} EveryAdmissionIsRemembered(cfg: Config, ops: seq<Op>, n: nat)
    requires ValidConfig(cfg) && n < |Admissions(cfg, ops)|
    ensures Remembered(After(cfg, ops), Admissions(cfg, ops)[n])
    decreases |ops|
  {
    var before, op := ops[..|ops| - 1], ops[|ops| - 1];
    EveryRunIsSound(cfg, before);
    if n < |Admissions(cfg, before)| {
      EveryAdmissionIsRemembered(cfg, before, n);
      ApplyRemembers(cfg, After(cfg, before), op, Admissions(cfg, before)[n]);
    } else {
      CreationRemembers(cfg, After(cfg, before), op, Admissions(cfg, ops)[n]);
    }
  }

  ghost predicate Keyed(a: Admission, k: EventKey) { a.event.connector == k.connector && a.event.eventId == k.event }

  /** Some admission left this receipt, and its Run is there. */
  ghost predicate FromAdmission(db: DB, admissions: seq<Admission>, k: EventKey) {
    exists n :: 0 <= n < |admissions| && Keyed(admissions[n], k) && Retained(db, admissions[n])
  }

  /** An ingest leaves the receipts it keeps as they were; a receipt it adds is the one of its admission. */
  lemma ReceiptsKeptOrAdmitted(cfg: Config, db: DB, op: Op, k: EventKey)
    requires DeliveryShapes(db.deliveries) && k in Apply(cfg, db, op).receipts
    ensures (k in db.receipts && Apply(cfg, db, op).receipts[k] == db.receipts[k])
         || (|AdmissionOf(cfg, db, op)| == 1 && Keyed(AdmissionOf(cfg, db, op)[0], k))
  {
    if op.OpIngest? {
      IngestCases(cfg, db, op.ingest, op.env);
      EvictShrinks(cfg, db, op.ingest.connector, op.env.now);
    } else {
      OnlyIngestAdmits(cfg, db, op);
    }
  }

  lemma StillRetained(cfg: Config, db: DB, op: Op, a: Admission, k: EventKey, after: DB)
    requires DeliveryShapes(db.deliveries) && after == Apply(cfg, db, op) && ReceiptsLinked(after.runs, after.receipts, after.horizons)
    requires Keyed(a, k) && Retained(db, a) && k in after.receipts && after.receipts[k] == db.receipts[k]
    ensures Retained(after, a)
  {
    ApplyRemembers(cfg, db, op, a);
  }

  lemma ReceiptStaysAdmitted(cfg: Config, db: DB, op: Op, k: EventKey, sofar: seq<Admission>, after: DB, more: seq<Admission>)
    requires DeliveryShapes(db.deliveries) && after == Apply(cfg, db, op) && ReceiptsLinked(after.runs, after.receipts, after.horizons)
    requires k in after.receipts && (k in db.receipts ==> FromAdmission(db, sofar, k)) && more == sofar + AdmissionOf(cfg, db, op)
    ensures FromAdmission(after, more, k)
  {
    ReceiptsKeptOrAdmitted(cfg, db, op, k);
    if k in db.receipts && after.receipts[k] == db.receipts[k] {
      var n :| 0 <= n < |sofar| && Keyed(sofar[n], k) && Retained(db, sofar[n]);
      StillRetained(cfg, db, op, sofar[n], k, after);
      assert more[n] == sofar[n];
    } else {
      CreationRemembers(cfg, db, op, AdmissionOf(cfg, db, op)[0]);
      assert more[|sofar|] == AdmissionOf(cfg, db, op)[0];
    }
  }

  /** Every receipt in the store is that of an admission. */
  lemma {:induction false} EveryReceiptIsAnAdmission(cfg: Config, ops: seq<Op>, k: EventKey)
    requires ValidConfig(cfg) && k in After(cfg, ops).receipts
    ensures FromAdmission(After(cfg, ops), Admissions(cfg, ops), k)
    decreases |ops|
  {
    var before, op := ops[..|ops| - 1], ops[|ops| - 1];
    EveryRunIsSound(cfg, before);
    EveryRunIsSound(cfg, ops);
    if k in After(cfg, before).receipts { EveryReceiptIsAnAdmission(cfg, before, k); }
    ReceiptStaysAdmitted(cfg, After(cfg, before), op, k, Admissions(cfg, before), After(cfg, ops), Admissions(cfg, ops));
  }

  /** Over every run, at most one Run is ever created for one connector, event ID and occurrence time. */
  lemma {:induction false} AtMostOneRunPerEvent(cfg: Config, ops: seq<Op>, m: nat, n: nat)
    requires ValidConfig(cfg) && m < n < |Admissions(cfg, ops)|
    ensures var a, b := Admissions(cfg, ops)[m], Admissions(cfg, ops)[n];
      !SameEvent(a.event, b.event)
    decreases |ops|
  {
    var before, op := ops[..|ops| - 1], ops[|ops| - 1];
    if n < |Admissions(cfg, before)| {
      AtMostOneRunPerEvent(cfg, before, m, n);
    } else {
      EveryAdmissionIsRemembered(cfg, before, m);
      RememberedIsNotCreated(cfg, After(cfg, before), op, Admissions(cfg, before)[m], Admissions(cfg, ops)[n]);
    }
  }

  /**
   Presenting an admitted event again, at any clock reading and under any policy: while its receipt is
   retained the same payload returns the original Run and any other payload conflicts; once the horizon
   has passed it, nothing is created.
   */
  lemma ReplayReturnsTheOriginal(cfg: Config, ops: seq<Op>, n: nat, i: IngestInput, env: IngestEnv)
    requires ValidConfig(cfg) && n < |Admissions(cfg, ops)| && ValidIngest(i) && env.now > 0
    requires SameEvent(i, Admissions(cfg, ops)[n].event)
    ensures var a, db := Admissions(cfg, ops)[n], After(cfg, ops);
      var horizon, result := Evict(cfg, db, i.connector, env.now).horizons[i.connector], Ingest(cfg, db, i, env).result;
      && !result.Created?
      && (i.occurredAt > horizon && i.payloadHash == a.event.payloadHash ==>
            result.Duplicate? && result.id == a.runId && MadeFrom(result.run, a))
      && (i.occurredAt > horizon && i.payloadHash != a.event.payloadHash ==> result == IngestRefused(Conflict))
  {
    var a, db := Admissions(cfg, ops)[n], After(cfg, ops);
    EveryAdmissionIsRemembered(cfg, ops, n);
    EvictRemembers(cfg, db, i.connector, env.now, a);
    if Ingest(cfg, db, i, env).result.Created? {
      IngestCases(cfg, db, i, env);
    }
  }
}
