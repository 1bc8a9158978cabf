/** What each call on the Core store promises its caller, in terms of everything that happened before it. */
module StorePromises {
  import opened GoTypes
  import opened Ordering
  import opened StoreTypes
  import opened StoreSteps
  import opened StoreInvariant
  import opened StoreHistory
  import opened StoreStart
  import opened StoreReplies
  import opened StoreDispatch
  import opened StoreOutbox
  import opened OutboxVerdicts
  import opened StoreVerdicts

  // ---- Admission ----

  /** The duplicate found is the Run of an earlier admission of this event with this payload. */
  ghost predicate FoundAgain(admissions: seq<Admission>, i: IngestInput, id: Str, run: Run) {
    exists n :: 0 <= n < |admissions| && Keyed(admissions[n], EventKey(i.connector, i.eventId))
      && admissions[n].event.payloadHash == i.payloadHash && admissions[n].runId == id && MadeFrom(run, admissions[n])
  }

  /**
   A created Run is new to the whole history and made from this event; a duplicate is the Run that history has; nothing
   else adds a Run. Which of them it is, the rows decide as IngestsAs says.
   */
  ghost predicate Ingests(cfg: Config, ops: seq<Op>, i: IngestInput, env: IngestEnv, step: IngestStep) {
    var db := After(cfg, ops);
    && IngestsAs(cfg, db, i, env, Evict(cfg, db, i.connector, env.now), step)
    && match step.result {
      case Created(id) =>
        && (forall n :: 0 <= n < |Admissions(cfg, ops)| ==> !SameEvent(Admissions(cfg, ops)[n].event, i))
        && env.auth.Some? && id in step.db.runs && MadeFrom(step.db.runs[id], Admission(i, env.auth.value, env.now, id))
        && step.db.runs[id].state == Queued
      case Duplicate(run, id) => FoundAgain(Admissions(cfg, ops), i, id, run) && id in step.db.runs && run == step.db.runs[id]
      case IngestRefused(_) => step.db.runs.Keys <= db.runs.Keys
    }
  }

  lemma CreationPromises(cfg: Config, ops: seq<Op>, i: IngestInput, env: IngestEnv, n: nat)
    requires ValidConfig(cfg) && n < |Admissions(cfg, ops)| && Ingest(cfg, After(cfg, ops), i, env).result.Created?
    ensures !SameEvent(Admissions(cfg, ops)[n].event, i)
  {
    var op := OpIngest(i, env);
    EveryAdmissionIsRemembered(cfg, ops, n);
    IngestCases(cfg, After(cfg, ops), i, env);
    var b := AdmissionOf(cfg, After(cfg, ops), op)[0];
    RememberedIsNotCreated(cfg, After(cfg, ops), op, Admissions(cfg, ops)[n], b);
  }

  lemma DuplicateIsReplay(cfg: Config, db: DB, i: IngestInput, env: IngestEnv)
    requires Inv(cfg, db) && Ingest(cfg, db, i, env).result.Duplicate?
    ensures var evicted := Evict(cfg, db, i.connector, env.now);
      EventKey(i.connector, i.eventId) in evicted.receipts && Replays(db, evicted, i, Ingest(cfg, db, i, env))
  {
    var evicted := Evict(cfg, db, i.connector, env.now);
    EvictKeepsLinks(cfg, db, i.connector, env.now);
    if EventKey(i.connector, i.eventId) in evicted.receipts { ReplayVerdict(db, evicted, i); }
  }

  lemma DuplicatePromises(cfg: Config, ops: seq<Op>, i: IngestInput, env: IngestEnv, step: IngestStep)
    requires ValidConfig(cfg) && step == Ingest(cfg, After(cfg, ops), i, env) && step.result.Duplicate?
    ensures FoundAgain(Admissions(cfg, ops), i, step.result.id, step.result.run)
    ensures step.result.id in step.db.runs && step.result.run == step.db.runs[step.result.id]
  {
    var db, k := After(cfg, ops), EventKey(i.connector, i.eventId);
    EveryRunIsSound(cfg, ops);
    DuplicateIsReplay(cfg, db, i, env);
    EvictShrinks(cfg, db, i.connector, env.now);
    EveryReceiptIsAnAdmission(cfg, ops, k);
    var n :| 0 <= n < |Admissions(cfg, ops)| && Keyed(Admissions(cfg, ops)[n], k) && Retained(db, Admissions(cfg, ops)[n]);
  }

  lemma IngestPromises(cfg: Config, ops: seq<Op>, i: IngestInput, env: IngestEnv, step: IngestStep)
    requires ValidConfig(cfg) && step == Ingest(cfg, After(cfg, ops), i, env)
    ensures Ingests(cfg, ops, i, env, step)
  {
    var db := After(cfg, ops);
    EveryRunIsSound(cfg, ops);
    IngestVerdict(cfg, db, i, env, Evict(cfg, db, i.connector, env.now), step);
    IngestCases(cfg, db, i, env);
    EvictShrinks(cfg, db, i.connector, env.now);
    match step.result
    case Created(_) =>
      forall n | 0 <= n < |Admissions(cfg, ops)| ensures !SameEvent(Admissions(cfg, ops)[n].event, i) { CreationPromises(cfg, ops, i, env, n); }
    case Duplicate(_, _) => DuplicatePromises(cfg, ops, i, env, step);
    case IngestRefused(_) =>
  }

  // ---- One conversation at a time ----

  /** Two events under one binding, connector, actor, conversation and target. */
  predicate SameConversation(a: Admission, b: Admission) {
    && a.auth.binding == b.auth.binding && a.event.connector == b.event.connector && a.event.actor == b.event.actor
    && a.event.conversation == b.event.conversation
    && a.auth.targetId == b.auth.targetId && a.auth.targetRevision == b.auth.targetRevision
  }

  /** The Run of the n-th admission is in the store and has not ended. */
  ghost predicate Lives(cfg: Config, ops: seq<Op>, n: nat) {
    && n < |Admissions(cfg, ops)| && Admissions(cfg, ops)[n].runId in After(cfg, ops).runs
    && Live(After(cfg, ops).runs[Admissions(cfg, ops)[n].runId])
  }

  /** Under fresh Run IDs, the row kept under an admission's ID is the one that admission made. */
  lemma RowIsItsAdmissions(cfg: Config, ops: seq<Op>, n: nat)
    requires ValidConfig(cfg) && FreshRunIds(cfg, ops) && n < |Admissions(cfg, ops)|
    requires Admissions(cfg, ops)[n].runId in After(cfg, ops).runs
    ensures MadeFrom(After(cfg, ops).runs[Admissions(cfg, ops)[n].runId], Admissions(cfg, ops)[n])
  {
    var all, id := Admissions(cfg, ops), Admissions(cfg, ops)[n].runId;
    EveryRunWasAdmitted(cfg, ops, id);
    var m :| 0 <= m < |all| && all[m].runId == id && MadeFrom(After(cfg, ops).runs[id], all[m]);
    assert m == n;
  }

  /** In every run of the store, no two events of one conversation are being worked on at a time. */
  lemma OneRunPerConversation(cfg: Config, ops: seq<Op>, m: nat, n: nat)
    requires ValidConfig(cfg) && FreshRunIds(cfg, ops) && Lives(cfg, ops, m) && Lives(cfg, ops, n) && m != n
    ensures !SameConversation(Admissions(cfg, ops)[m], Admissions(cfg, ops)[n])
  {
    EveryRunIsSound(cfg, ops);
    RowIsItsAdmissions(cfg, ops, m);
    RowIsItsAdmissions(cfg, ops, n);
    assert Admissions(cfg, ops)[m].runId != Admissions(cfg, ops)[n].runId;
  }

  /** A new event of a conversation that is being worked on is refused as busy, whatever its text, message or payload. */
  lemma BusyConversationIsRefused(cfg: Config, ops: seq<Op>, n: nat, i: IngestInput, env: IngestEnv)
    requires ValidConfig(cfg) && FreshRunIds(cfg, ops) && Lives(cfg, ops, n) && ValidIngest(i) && env.now > 0
    requires env.auth.Some? && ValidAuthorization(env.auth.value)
    requires SameConversation(Admissions(cfg, ops)[n], Admission(i, env.auth.value, env.now, []))
    requires EventKey(i.connector, i.eventId) !in After(cfg, ops).receipts
    requires !OutOfWindow(cfg, Evict(cfg, After(cfg, ops), i.connector, env.now), i, env.now)
    ensures Ingest(cfg, After(cfg, ops), i, env).result == IngestRefused(SessionScopeBusy)
  {
    var db, id := After(cfg, ops), Admissions(cfg, ops)[n].runId;
    var evicted := Evict(cfg, db, i.connector, env.now);
    RowIsItsAdmissions(cfg, ops, n);
    EvictShrinks(cfg, db, i.connector, env.now);
    AdmitVerdict(cfg, db, evicted, i, env, Ingest(cfg, db, i, env));
    assert id in evicted.runs && InScope(evicted.runs[id].origin.scope, i, env.auth.value);
  }

  // ---- Dispatch ----

  /** The token is that of the latest claim of this Run. */
  ghost predicate HoldsLatest(cfg: Config, ops: seq<Op>, id: Str, token: Str) {
    LatestHold(cfg, ops, id).Some? && LatestHold(cfg, ops, id).value.token == token
  }

  /** Every start offered for this Run before is the one offered now. */
  ghost predicate OffersOnly(cfg: Config, ops: seq<Op>, request: StartRequest) {
    forall n :: 0 <= n < |Offers(cfg, ops)| && Offers(cfg, ops)[n].runId == request.runId ==> Offers(cfg, ops)[n] == request
  }

  /** A prepared start is the latest worker's, freezes the scope's current session, and never differs from an earlier one. */
  ghost predicate Prepares(cfg: Config, ops: seq<Op>, i: PrepareInput, now: int, step: PrepareStep) {
    PreparesAs(After(cfg, ops), i, now, step)
    && match step.result
    case Prepared(start) =>
      && HoldsLatest(cfg, ops, i.runId, i.token) && now < LatestHold(cfg, ops, i.runId).value.expires
      && i.runId in step.db.runs && step.db.runs[i.runId].prepared && StartOf(step.db.runs[i.runId]) == start
      && CurrentRef(step.db.sessions, step.db.runs[i.runId].origin.scope) == start.session
      && (FreshRunIds(cfg, ops) ==> OffersOnly(cfg, ops, BuildRequest(i.runId, step.db.runs[i.runId], start)))
    case PrepareFailed(_) => step.db == After(cfg, ops)
  }

  /** Preparing again, were it to happen, would offer what stands. */
  lemma OfferStandsAgainst(cfg: Config, ops: seq<Op>, i: PrepareInput, now: int, step: PrepareStep, n: nat)
    requires ValidConfig(cfg) && FreshRunIds(cfg, ops) && step == Prepare(After(cfg, ops), i, now) && step.result.Prepared?
    requires n < |Offers(cfg, ops)| && Offers(cfg, ops)[n].runId == i.runId && i.runId in step.db.runs
    ensures Offers(cfg, ops)[n] == BuildRequest(i.runId, step.db.runs[i.runId], step.result.start)
  {
    EveryOfferStands(cfg, ops, n);
    PrepareCases(After(cfg, ops), i, now, step);
  }

  lemma PreparePromises(cfg: Config, ops: seq<Op>, i: PrepareInput, now: int, step: PrepareStep)
    requires ValidConfig(cfg) && step == Prepare(After(cfg, ops), i, now)
    ensures Prepares(cfg, ops, i, now, step)
  {
    PrepareCases(After(cfg, ops), i, now, step);
    PrepareVerdict(After(cfg, ops), i, now, step);
    if step.result.Prepared? {
      EveryRunIsSound(cfg, ops);
      PrepareKeepsInv(cfg, After(cfg, ops), i, now);
      EveryDispatchIsTheLatest(cfg, ops, i.runId);
      if FreshRunIds(cfg, ops) {
        forall n | 0 <= n < |Offers(cfg, ops)| && Offers(cfg, ops)[n].runId == i.runId
          ensures Offers(cfg, ops)[n] == BuildRequest(i.runId, step.db.runs[i.runId], step.result.start)
        {
          OfferStandsAgainst(cfg, ops, i, now, step, n);
        }
      }
    }
  }

  /** The Run runs, prepared, under its latest claim, and is the store's one active Run; or nothing changed. */
  ghost predicate Marks(cfg: Config, ops: seq<Op>, id: Str, token: Str, now: int, step: UnitStep) {
    MarksAs(After(cfg, ops), id, token, now, step)
    && match step.result
    case Done =>
      && HoldsLatest(cfg, ops, id, token) && id in step.db.runs && step.db.runs[id].state == Running && step.db.runs[id].prepared
      && SoleActive(step.db.runs, id)
    case Refused(_) => step.db == After(cfg, ops)
  }

  lemma MarkPromises(cfg: Config, ops: seq<Op>, id: Str, token: Str, now: int, step: UnitStep)
    requires ValidConfig(cfg) && step == MarkRunning(After(cfg, ops), id, token, now)
    ensures Marks(cfg, ops, id, token, now, step)
  {
    var db := After(cfg, ops);
    MarkVerdict(db, id, token, now, step);
    OnlyTheLatestClaimMoves(cfg, ops, OpMark(id, token, now), Move(id, token, now));
    if step.result.Done? {
      EveryRunIsSound(cfg, ops);
      MarkRunningKeepsInv(cfg, db, id, token, now);
    }
  }

  // ---- Finish ----

  /**
   The Run has ended as the finish says, under its latest claim; the session it replaced is the one it started
   from, and a reply that came along is its one answer. Refused, the finish changed nothing.
   */
  ghost predicate Finishes(cfg: Config, ops: seq<Op>, i: FinishInput, reply: Option<DeliveryInput>, now: int, step: UnitStep) {
    var db := After(cfg, ops);
    && FinishesAs(cfg, db, i, reply, now, step)
    && (step.result.Done? ==>
          && HoldsLatest(cfg, ops, i.runId, i.token) && Records(step.db.runs[i.runId], i)
          && (Live(db.runs[i.runId]) ==> CurrentRef(db.sessions, db.runs[i.runId].origin.scope) == db.runs[i.runId].startSession))
  }

  lemma FinishPromises(cfg: Config, ops: seq<Op>, i: FinishInput, reply: Option<DeliveryInput>, now: int, step: UnitStep)
    requires ValidConfig(cfg) && step == Finish(cfg, After(cfg, ops), i, reply, now)
    ensures Finishes(cfg, ops, i, reply, now, step)
  {
    EveryRunIsSound(cfg, ops);
    FinishVerdict(cfg, After(cfg, ops), i, reply, now, step);
    OnlyTheLatestClaimMoves(cfg, ops, OpFinish(i, reply, now), Move(i.runId, i.token, now));
  }

  // ---- Outbox ----

  /** The delivery records this outcome; the store changed only if the caller held the delivery's latest, unexpired lease. */
  ghost predicate Completes(cfg: Config, ops: seq<Op>, i: CompleteInput, now: int, step: UnitStep) {
    var db, grant := After(cfg, ops), LatestGrant(cfg, ops, i.deliveryId);
    && CompletesAs(cfg, db, i, now, step)
    && (step.db != db ==> grant.Some? && grant.value.token == i.token && now < grant.value.expires)
    && (step.result.Done? ==> OwnedBy(step.db, i.deliveryId, i.connector) && RecordsOutcome(step.db.deliveries[i.deliveryId], i))
  }

  lemma CompletePromises(cfg: Config, ops: seq<Op>, i: CompleteInput, now: int, step: UnitStep)
    requires ValidConfig(cfg) && step == Complete(cfg, After(cfg, ops), i, now)
    ensures Completes(cfg, ops, i, now, step)
  {
    EveryRunIsSound(cfg, ops);
    CompleteVerdict(cfg, After(cfg, ops), i, now, step);
    if step.db != After(cfg, ops) { CompletionNeedsTheLatestLease(cfg, ops, i, now); }
  }
}
