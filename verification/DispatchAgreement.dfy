/** Core and a faithful sandbox agree on every Run, in every run of the whole system. */
module DispatchAgreement {
  import opened GoTypes
  import opened StoreTypes
  import opened StoreSteps
  import opened StoreInvariant
  import opened StoreHistory
  import opened StoreStart
  import opened StoreReplies
  import opened StoreDispatch
  import opened StoreChecked
  import opened RunOutcome
  import opened Dispatch
  import Exec = ExecutionWire

  // ---- The invariant ----

  ghost predicate RecordOk(id: Str, rec: Record) {
    Exec.Log(rec.log) && rec.log.status.runId == id && rec.request.runId == id && ValidStart(rec.request)
  }

  /** The Core row of a Run and sandboxd's record of it: one request, and once Core is terminal, one outcome. */
  ghost predicate Agrees(id: Str, run: Run, rec: Record) {
    && run.prepared && rec.request == BuildRequest(id, run, StartOf(run))
    && (Terminal(run.state) ==>
          && Exec.ValidSnapshot(rec.log) && Exec.Terminal(rec.log.status.state)
          && SameFinish(run, FinishOf(run.dispatchToken, rec.log).input))
  }

  ghost predicate Agreement(runs: map<Str, Run>, sandbox: map<Str, Record>) {
    forall id :: id in sandbox ==> RecordOk(id, sandbox[id]) && (id in runs ==> Agrees(id, runs[id], sandbox[id]))
  }

  /** Core says running only of a Run that sandboxd holds and has moved past accepted. */
  ghost predicate RunningIsOwned(runs: map<Str, Run>, sandbox: map<Str, Record>) {
    forall id :: id in runs && runs[id].state == Running ==> id in sandbox && sandbox[id].log.status.state != Exec.Accepted
  }

  /** The worker's copy still speaks for a live Run. */
  ghost predicate Holds(runs: map<Str, Run>, id: Str, row: Run) {
    && id in runs && Active(runs[id]) && Active(row)
    && runs[id].dispatchToken == row.dispatchToken && runs[id].origin == row.origin
    && (row.state == Running ==> runs[id].state == Running)
  }

  ghost predicate Observed(sandbox: map<Str, Record>, id: Str, seen: Exec.RunState) {
    id in sandbox && Exec.Progresses(seen, sandbox[id].log.status.state)
  }

  /** A finish about to be committed is the sandbox's own outcome, or a failure where the sandbox has no record. */
  ghost predicate Justified(sandbox: map<Str, Record>, id: Str, row: Run, f: Finish) {
    && f.input.runId == id && f.input.token == row.dispatchToken
    && (id in sandbox ==>
          Exec.ValidSnapshot(sandbox[id].log) && Exec.Terminal(sandbox[id].log.status.state)
          && f == FinishOf(row.dispatchToken, sandbox[id].log))
  }

  /** The store's validators take the finish and its reply text, and the text says what the finish says. */
  ghost predicate Ready(f: Finish) { ValidFinish(f.input) && ValidText(f.text, false) && RepliesTo(f.text, f.input) }

  /** A failure the engine may report by itself. */
  predicate OwnCode(code: FailureCode) { !code.UnlistedFailure? && !code.RuntimeInterrupted? }

  lemma OwnFailureIsReady(runs: map<Str, Run>, id: Str, row: Run, code: FailureCode)
    requires Checked(runs) && Holds(runs, id, row) && OwnCode(code)
    ensures Ready(FailedWith(id, row.dispatchToken, code)) && Ready(InterruptedBy(id, row.dispatchToken))
  {
    assert RunChecked(id, runs[id]);
    OwnFailuresCanFinish(id, row.dispatchToken, code);
    OwnFailureReplies(id, row.dispatchToken, code);
  }

  ghost predicate PcOk(runs: map<Str, Run>, sandbox: map<Str, Record>, pc: Pc) {
    match pc
    case Idle => true
    case AtSession(id, row) => Holds(runs, id, row) && runs[id].state == Dispatching
    case AtPrepare(id, row, _) => Holds(runs, id, row) && runs[id].state == Dispatching
    case AtStart(id, row, request) =>
      Holds(runs, id, row) && runs[id].prepared && request == BuildRequest(id, runs[id], StartOf(runs[id])) && ValidStart(request)
    case AtProve(id, row, code) => Holds(runs, id, row) && runs[id].prepared && OwnCode(code)
    case AtMark(id, row, seen) => Holds(runs, id, row) && runs[id].prepared && Observed(sandbox, id, seen) && seen == Exec.Running
    case AtPoll(id, row, seen) => Holds(runs, id, row) && runs[id].prepared && Observed(sandbox, id, seen)
    case AtRunPoll(id, row) => Holds(runs, id, row) && runs[id].prepared && row.state == Running
    case AtNote(id, row) => Holds(runs, id, row) && runs[id].prepared && Observed(sandbox, id, Exec.Running)
    case AtFinish(id, row, f) => Holds(runs, id, row) && runs[id].prepared && Justified(sandbox, id, row, f) && Ready(f)
  }

  ghost predicate InSync(runs: map<Str, Run>, sandbox: map<Str, Record>, pc: Pc) {
    Agreement(runs, sandbox) && RunningIsOwned(runs, sandbox) && PcOk(runs, sandbox, pc)
  }

  /** Digests are well formed and belong to one Run ID each. */
  ghost predicate DigestsOk(digests: map<Str, Str>) {
    && (forall id :: id in digests ==> Exec.ValidDigest(digests[id]))
    && (forall a, b :: a in digests && b in digests && digests[a] == digests[b] ==> a == b)
  }

  /** Every delivery's ID is the one derived from its Run. */
  ghost predicate Named(deliveries: map<Str, Delivery>, digests: map<Str, Str>) {
    forall d :: d in deliveries ==> deliveries[d].runId in digests && d == DeliveryId(digests[deliveries[d].runId])
  }

  /** What holds of the store alone. */
  ghost predicate StoreOk(cfg: Config, db: DB) { Inv(cfg, db) && Checked(db.runs) && SessionsChecked(db.sessions) }

  /** Every Run ID in use was given out, and every delivery is named after its Run. */
  ghost predicate Tracked(db: DB, sandbox: map<Str, Record>, digests: map<Str, Str>) {
    db.runs.Keys <= digests.Keys && sandbox.Keys <= digests.Keys && DigestsOk(digests) && Named(db.deliveries, digests)
  }

  /** The text says what the row of the Run says. */
  predicate TellsRow(text: Str, run: Run) {
    match run.state
    case Completed => run.output.Some? && CompletedText(text, run.output.value)
    case Failed => run.failure.Some? && text == FailureText(run.failure.value)
    case Cancelled => text == TEXT_CANCELLED
    case Interrupted => text == TEXT_INTERRUPTED
    case _ => false
  }

  /** Every delivery tells the outcome of its Run. */
  ghost predicate Told(runs: map<Str, Run>, deliveries: map<Str, Delivery>) {
    forall d :: d in deliveries && deliveries[d].runId in runs ==> TellsRow(deliveries[d].text, runs[deliveries[d].runId])
  }

  ghost predicate SystemInv(cfg: Config, s: System) {
    && StoreOk(cfg, s.db) && Tracked(s.db, s.sandbox, s.digests) && InSync(s.db.runs, s.sandbox, s.pc)
    && Told(s.db.runs, s.db.deliveries)
  }

  // ---- Connector steps ----

  /** Rows that stay are unchanged, live rows stay, and new rows are queued Runs under unused IDs. */
  ghost predicate RunsTurnOver(runs: map<Str, Run>, after: map<Str, Run>, unused: set<Str>) {
    && (forall r :: r in runs && Live(runs[r]) ==> r in after)
    && (forall r :: r in after ==> (r in runs && after[r] == runs[r]) || (r in unused && after[r].state == Queued))
  }

  ghost function FreshIds(op: Op): set<Str> {
    if op.OpIngest? && op.env.newRunId.Some? then {op.env.newRunId.value} else {}
  }

  lemma ConnectorTurnsOver(cfg: Config, db: DB, op: Op, after: DB)
    requires DeliveryShapes(db.deliveries) && FromConnector(op) && FreshIds(op) !! db.runs.Keys && after == Apply(cfg, db, op)
    ensures RunsTurnOver(db.runs, after.runs, FreshIds(op))
  {
    match op
    case OpIngest(i, env) => IngestCases(cfg, db, i, env); EvictShrinks(cfg, db, i.connector, env.now);
    case OpLease(c, limit, lease, tokens, now) => LeaseRedelivers(db, c, limit, lease, tokens, now, Lease(db, c, limit, lease, tokens, now));
    case OpComplete(i, now) => CompletePersists(cfg, db, i, now);
    case OpReset(key, expected) => ResetPersists(db, key, expected);
  }

  lemma TurnOverKeepsSync(runs: map<Str, Run>, after: map<Str, Run>, sandbox: map<Str, Record>, unused: set<Str>, pc: Pc)
    requires InSync(runs, sandbox, pc) && RunsTurnOver(runs, after, unused) && unused !! sandbox.Keys && unused !! runs.Keys
    ensures InSync(after, sandbox, pc)
  {
    if !pc.Idle? { assert pc.id in after && after[pc.id] == runs[pc.id]; }
  }

  // ---- Store steps of the worker ----

  /** One row replaced, keeping its origin and any frozen start, agrees with the sandbox if the new row itself does. */
  lemma UpdateKeepsSync(runs: map<Str, Run>, sandbox: map<Str, Record>, id: Str, run: Run)
    requires Agreement(runs, sandbox) && RunningIsOwned(runs, sandbox) && id in runs
    requires id in sandbox ==> Agrees(id, run, sandbox[id])
    requires run.state == Running ==> id in sandbox && sandbox[id].log.status.state != Exec.Accepted
    ensures Agreement(runs[id := run], sandbox) && RunningIsOwned(runs[id := run], sandbox)
  {
  }

  lemma ReleaseKeepsSync(runs: map<Str, Run>, sandbox: map<Str, Record>, now: int)
    requires Agreement(runs, sandbox) && RunningIsOwned(runs, sandbox)
    ensures Agreement(ReleaseExpired(runs, now), sandbox) && RunningIsOwned(ReleaseExpired(runs, now), sandbox)
  {
    var after := ReleaseExpired(runs, now);
    forall id | id in sandbox && id in after ensures Agrees(id, after[id], sandbox[id]) {
      assert after[id] == Release(runs[id], now);
    }
  }

  lemma ClaimKeepsSync(s: System, released: map<Str, Run>, step: ClaimStep)
    requires Agreement(s.db.runs, s.sandbox) && RunningIsOwned(s.db.runs, s.sandbox)
    requires Agreement(released, s.sandbox) && RunningIsOwned(released, s.sandbox) && ClaimsOrReleases(s.db, released, step)
    ensures InSync(AfterClaim(s, step).db.runs, s.sandbox, AfterClaim(s, step).pc)
  {
    if step.result.Claimed? { UpdateKeepsSync(released, s.sandbox, step.result.id, step.result.run); }
  }

  /** The request offered is the frozen one; one that the sandbox would not take it never had. */
  lemma OfferIsOk(runs: map<Str, Run>, sandbox: map<Str, Record>, id: Str, row: Run, start: PreparedStart)
    requires Agreement(runs, sandbox) && Holds(runs, id, row) && runs[id].prepared && StartOf(runs[id]) == start
    requires Ready(FailedWith(id, row.dispatchToken, ProtocolViolation))
    ensures PcOk(runs, sandbox, OfferStart(id, row, start))
  {
  }

  lemma PrepareKeepsSync(s: System, deadline: int, now: int)
    requires s.pc.AtPrepare? && InSync(s.db.runs, s.sandbox, s.pc) && Checked(s.db.runs)
    ensures var after := AfterPrepare(s, Prepare(s.db, PrepareInput(s.pc.id, s.pc.row.dispatchToken, s.pc.session, deadline), now));
      InSync(after.db.runs, after.sandbox, after.pc)
  {
    var i := PrepareInput(s.pc.id, s.pc.row.dispatchToken, s.pc.session, deadline);
    var step := Prepare(s.db, i, now);
    PrepareCases(s.db, i, now, step);
    OwnFailureIsReady(s.db.runs, s.pc.id, s.pc.row, ProtocolViolation);
    if step.result.Prepared? {
      UpdateKeepsSync(s.db.runs, s.sandbox, s.pc.id, step.db.runs[s.pc.id]);
      var row := s.pc.row.(prepared := true, startSession := step.result.start.session, startDeadline := step.result.start.deadline);
      OfferIsOk(step.db.runs, s.sandbox, s.pc.id, row, step.result.start);
    }
  }

  lemma MarkCases(db: DB, id: Str, token: Str, now: int)
    ensures var step := MarkRunning(db, id, token, now);
      if step.result.Done? then
        && id in db.runs && db.runs[id].dispatchToken == token && id in step.db.runs && step.db.runs[id].state == Running
        && step.db.runs == db.runs[id := step.db.runs[id]]
        && step.db.runs[id].(state := db.runs[id].state, dispatchExpires := db.runs[id].dispatchExpires, updatedAt := db.runs[id].updatedAt)
           == db.runs[id]
      else step.db == db
  {
  }

  lemma MarkedKeepsSync(runs: map<Str, Run>, sandbox: map<Str, Record>, pc: Pc, run: Run)
    requires (pc.AtMark? || pc.AtNote?) && InSync(runs, sandbox, pc) && run.state == Running
    requires run.(state := runs[pc.id].state, dispatchExpires := runs[pc.id].dispatchExpires, updatedAt := runs[pc.id].updatedAt) == runs[pc.id]
    ensures InSync(runs[pc.id := run], sandbox, if pc.AtMark? then AtPoll(pc.id, pc.row.(state := Running), pc.seen) else Idle)
  {
    UpdateKeepsSync(runs, sandbox, pc.id, run);
  }

  lemma MarkKeepsSync(s: System, now: int)
    requires (s.pc.AtMark? || s.pc.AtNote?) && InSync(s.db.runs, s.sandbox, s.pc)
    ensures var after := AfterMark(s, MarkRunning(s.db, s.pc.id, s.pc.row.dispatchToken, now));
      InSync(after.db.runs, after.sandbox, after.pc)
  {
    MarkCases(s.db, s.pc.id, s.pc.row.dispatchToken, now);
    var step := MarkRunning(s.db, s.pc.id, s.pc.row.dispatchToken, now);
    if step.result.Done? { MarkedKeepsSync(s.db.runs, s.sandbox, s.pc, step.db.runs[s.pc.id]); }
  }

  lemma CommittedKeepsSync(runs: map<Str, Run>, sandbox: map<Str, Record>, pc: Pc, now: int)
    requires pc.AtFinish? && InSync(runs, sandbox, pc)
    ensures InSync(runs[pc.id := FinishedRun(runs[pc.id], pc.finish.input, now)], sandbox, Idle)
  {
    var run := FinishedRun(runs[pc.id], pc.finish.input, now);
    FinishedRunIsSame(runs[pc.id], pc.finish.input, now);
    UpdateKeepsSync(runs, sandbox, pc.id, run);
  }

  lemma FinishKeepsSync(cfg: Config, s: System, reply: Option<DeliveryInput>, now: int, step: UnitStep)
    requires s.pc.AtFinish? && InSync(s.db.runs, s.sandbox, s.pc) && step == StoreSteps.Finish(cfg, s.db, s.pc.finish.input, reply, now)
    ensures InSync(step.db.runs, s.sandbox, Idle)
  {
    FinishTerminates(cfg, s.db, s.pc.finish.input, reply, now);
    CommittedKeepsSync(s.db.runs, s.sandbox, s.pc, now);
  }

  // ---- Sandbox calls ----

  lemma SnapshotKeepsSync(runs: map<Str, Run>, sandbox: map<Str, Record>, id: Str, row: Run)
    requires Agreement(runs, sandbox) && RunningIsOwned(runs, sandbox) && Holds(runs, id, row) && runs[id].prepared && id in sandbox
    requires Checked(runs)
    ensures PcOk(runs, sandbox, ApplySnapshot(id, row, sandbox[id].log))
  {
    OwnFailureIsReady(runs, id, row, ProtocolViolation);
    if Exec.Terminal(sandbox[id].log.status.state) {
      assert RunChecked(id, runs[id]);
      SnapshotCanFinish(row.dispatchToken, sandbox[id].log);
      ReplyTellsTheOutcome(row.dispatchToken, sandbox[id].log);
    }
    FinishOfNamesItsRun(row.dispatchToken, sandbox[id].log);
  }

  lemma FinishOfNamesItsRun(token: Str, s: Exec.Snapshot)
    requires Exec.ValidSnapshot(s)
    ensures Exec.Terminal(s.status.state) ==> FinishOf(token, s).input.runId == s.status.runId && FinishOf(token, s).input.token == token
  {
  }

  lemma GetKeepsSync(runs: map<Str, Run>, sandbox: map<Str, Record>, pc: Pc, got: GetReply)
    requires InSync(runs, sandbox, pc) && Checked(runs) && (!pc.Idle? ==> FaithfulGet(sandbox, pc.id, got))
    ensures PcOk(runs, sandbox, AfterGot(pc, got))
  {
    if pc.AtProve? || pc.AtPoll? || pc.AtRunPoll? {
      OwnFailureIsReady(runs, pc.id, pc.row, if pc.AtProve? then pc.code else ProtocolViolation);
      if got.GetOk? { SnapshotKeepsSync(runs, sandbox, pc.id, pc.row); }
    }
  }

  lemma AddRecordKeepsSync(runs: map<Str, Run>, sandbox: map<Str, Record>, id: Str, request: StartRequest)
    requires Agreement(runs, sandbox) && RunningIsOwned(runs, sandbox) && id !in sandbox && request.runId == id && ValidStart(request)
    requires id in runs && Active(runs[id]) && runs[id].prepared && request == BuildRequest(id, runs[id], StartOf(runs[id]))
    ensures var after := sandbox[id := Record(request, Exec.Fresh(id))]; Agreement(runs, after) && RunningIsOwned(runs, after)
  {
    Exec.FreshIsLog(id);
  }

  /** The status of the Run's own record is valid and is what the worker has observed. */
  lemma StatusIsObserved(sandbox: map<Str, Record>, id: Str)
    requires id in sandbox && RecordOk(id, sandbox[id])
    ensures Exec.ValidStatus(sandbox[id].log.status) && sandbox[id].log.status.runId == id
    ensures Observed(sandbox, id, sandbox[id].log.status.state)
  {
  }

  lemma StartedIsOk(runs: map<Str, Run>, sandbox: map<Str, Record>, after: map<Str, Record>, pc: Pc, status: Exec.RunStatus, created: bool)
    requires pc.AtStart? && PcOk(runs, sandbox, pc) && FaithfulStart(sandbox, pc.request, created, StartOk(status))
    requires after == if created then sandbox[pc.id := Record(pc.request, Exec.Fresh(pc.id))] else sandbox
    requires forall id :: id in after ==> RecordOk(id, after[id])
    ensures PcOk(runs, after, AfterStart(pc.id, pc.row, StartOk(status)))
  {
    StatusIsObserved(after, pc.id);
  }

  lemma StartErrorIsOk(runs: map<Str, Run>, sandbox: map<Str, Record>, after: map<Str, Record>, pc: Pc, code: StartCode, created: bool)
    requires pc.AtStart? && InSync(runs, sandbox, pc) && Checked(runs) && FaithfulStart(sandbox, pc.request, created, StartError(code))
    requires after == if created then sandbox[pc.id := Record(pc.request, Exec.Fresh(pc.id))] else sandbox
    ensures PcOk(runs, after, AfterStart(pc.id, pc.row, StartError(code)))
  {
    OwnFailureIsReady(runs, pc.id, pc.row, ProtocolViolation);
  }

  lemma StartReplyIsOk(runs: map<Str, Run>, sandbox: map<Str, Record>, after: map<Str, Record>, pc: Pc, reply: StartReply, created: bool)
    requires pc.AtStart? && InSync(runs, sandbox, pc) && Checked(runs) && FaithfulStart(sandbox, pc.request, created, reply)
    requires after == if created then sandbox[pc.id := Record(pc.request, Exec.Fresh(pc.id))] else sandbox
    ensures PcOk(runs, after, AfterStart(pc.id, pc.row, reply))
  {
    match reply
    case StartOk(status) =>
      Exec.FreshIsLog(pc.id);
      StartedIsOk(runs, sandbox, after, pc, status, created);
    case StartError(code) => StartErrorIsOk(runs, sandbox, after, pc, code, created);
  }

  lemma StartKeepsSync(s: System, reply: StartReply, created: bool)
    requires s.pc.AtStart? && InSync(s.db.runs, s.sandbox, s.pc) && Checked(s.db.runs) && FaithfulStart(s.sandbox, s.pc.request, created, reply)
    ensures var after := AfterCallStart(s, reply, created); InSync(after.db.runs, after.sandbox, after.pc)
  {
    if created { AddRecordKeepsSync(s.db.runs, s.sandbox, s.pc.id, s.pc.request); }
    StartReplyIsOk(s.db.runs, s.sandbox, AfterCallStart(s, reply, created).sandbox, s.pc, reply, created);
  }

  lemma SandboxKeepsAgreement(runs: map<Str, Run>, sandbox: map<Str, Record>, id: Str, log: Exec.Snapshot)
    requires Agreement(runs, sandbox) && RunningIsOwned(runs, sandbox) && id in sandbox
    requires Exec.Log(log) && log.status.runId == id && Exec.Progresses(sandbox[id].log.status.state, log.status.state)
    requires Exec.Terminal(sandbox[id].log.status.state) ==> log == sandbox[id].log
    ensures var after := sandbox[id := sandbox[id].(log := log)]; Agreement(runs, after) && RunningIsOwned(runs, after)
  {
  }

  lemma SandboxKeepsPc(runs: map<Str, Run>, sandbox: map<Str, Record>, pc: Pc, id: Str, log: Exec.Snapshot)
    requires PcOk(runs, sandbox, pc) && id in sandbox && Exec.Progresses(sandbox[id].log.status.state, log.status.state)
    requires Exec.Terminal(sandbox[id].log.status.state) ==> log == sandbox[id].log
    ensures PcOk(runs, sandbox[id := sandbox[id].(log := log)], pc)
  {
  }

  /** The sandbox moves a record on: the log stays valid, only progresses, and an ended Run never changes. */
  lemma SandboxKeepsSync(runs: map<Str, Run>, sandbox: map<Str, Record>, pc: Pc, id: Str, log: Exec.Snapshot)
    requires InSync(runs, sandbox, pc) && id in sandbox
    requires Exec.Log(log) && log.status.runId == id && Exec.Progresses(sandbox[id].log.status.state, log.status.state)
    requires Exec.Terminal(sandbox[id].log.status.state) ==> log == sandbox[id].log
    ensures InSync(runs, sandbox[id := sandbox[id].(log := log)], pc)
  {
    SandboxKeepsAgreement(runs, sandbox, id, log);
    SandboxKeepsPc(runs, sandbox, pc, id, log);
  }

  // ---- The store transaction of a step ----

  /** The transaction that a step commits, if it commits one. */
  ghost function StoreOp(s: System, step: Step): Option<Op> {
    match step
    case Connector(op, _) => Some(op)
    case DispatchOne(lease, token, now) => if s.pc.Idle? then Some(OpClaim(lease, token, now)) else None
    case PrepareStart(deadline, now) =>
      if s.pc.AtPrepare? then Some(OpPrepare(PrepareInput(s.pc.id, s.pc.row.dispatchToken, s.pc.session, deadline), now)) else None
    case MarkRun(now) => if s.pc.AtMark? || s.pc.AtNote? then Some(OpMark(s.pc.id, s.pc.row.dispatchToken, now)) else None
    case CommitFinish(now) =>
      if s.pc.AtFinish? && s.pc.id in s.digests then Some(OpFinish(s.pc.finish.input, Some(ReplyOf(s)), now)) else None
    case _ => None
  }

  lemma StepIsItsOp(cfg: Config, s: System, step: Step, after: System)
    requires after == Do(cfg, s, step)
    ensures after.db == match StoreOp(s, step) case None => s.db case Some(op) => Apply(cfg, s.db, op)
    ensures !step.Connector? ==> after.digests == s.digests
  {
  }

  lemma StepKeepsStore(cfg: Config, db: DB, op: Op, after: DB)
    requires StoreOk(cfg, db) && after == Apply(cfg, db, op)
    ensures StoreOk(cfg, after)
  {
    ApplyKeepsInv(cfg, db, op);
    ApplyKeepsChecked(cfg, db, op);
    ApplyKeepsSessionsChecked(cfg, db, op, after);
  }

  /** Run IDs come from admissions alone. */
  lemma RunIdsGrow(cfg: Config, db: DB, op: Op, after: DB)
    requires DeliveryShapes(db.deliveries) && after == Apply(cfg, db, op)
    ensures after.runs.Keys <= db.runs.Keys + FreshIds(op)
  {
    if op.OpIngest? {
      IngestCases(cfg, db, op.ingest, op.env);
      EvictShrinks(cfg, db, op.ingest.connector, op.env.now);
    } else {
      OnlyIngestAdmits(cfg, db, op);
    }
  }

  /** Deliveries keep their Runs and texts, and a new one is the reply of the Run being finished. */
  ghost predicate KeepsParents(deliveries: map<Str, Delivery>, after: map<Str, Delivery>, op: Op) {
    forall d :: d in after ==>
      || (d in deliveries && after[d].runId == deliveries[d].runId && after[d].text == deliveries[d].text)
      || (op.OpFinish? && op.reply.Some? && d == op.reply.value.id && after[d].runId == op.finish.runId && after[d].text == op.reply.value.text)
  }

  lemma InsertKeepsParents(cfg: Config, db: DB, run: Str, reply: DeliveryInput, now: int, after: map<Str, Delivery>)
    requires run in db.runs && after == InsertDelivery(cfg, db, run, reply, now).db.deliveries
    ensures forall d :: d in after ==>
      (d in db.deliveries && after[d] == db.deliveries[d]) || (d == reply.id && after[d].runId == run && after[d].text == reply.text)
  {
  }

  lemma FinishKeepsParents(cfg: Config, db: DB, i: FinishInput, reply: Option<DeliveryInput>, now: int, after: DB)
    requires after == StoreSteps.Finish(cfg, db, i, reply, now).db
    ensures KeepsParents(db.deliveries, after.deliveries, OpFinish(i, reply, now))
  {
    FinishCases(cfg, db, i, reply, now);
    if StoreSteps.Finish(cfg, db, i, reply, now).result.Done? && reply.Some? {
      var mid := if Terminal(db.runs[i.runId].state) then db else CommitTerminal(db, db.runs[i.runId], i, now);
      InsertKeepsParents(cfg, mid, i.runId, reply.value, now, after.deliveries);
    }
  }

  lemma ApplyKeepsParents(cfg: Config, db: DB, op: Op, after: DB)
    requires DeliveryShapes(db.deliveries) && after == Apply(cfg, db, op)
    ensures KeepsParents(db.deliveries, after.deliveries, op)
  {
    match op
    case OpIngest(i, env) => IngestCases(cfg, db, i, env); EvictShrinks(cfg, db, i.connector, env.now);
    case OpFinish(i, reply, now) => FinishKeepsParents(cfg, db, i, reply, now, after);
    case OpLease(c, limit, lease, tokens, now) => LeaseRedelivers(db, c, limit, lease, tokens, now, Lease(db, c, limit, lease, tokens, now));
    case OpComplete(i, now) => CompleteCases(cfg, db, i, now);
    case _ => StartStepsKeepDeliveries(cfg, db, op);
  }

  lemma TrackedOn(db: DB, sandbox: map<Str, Record>, digests: map<Str, Str>, op: Op, after: DB, more: map<Str, Str>)
    requires Tracked(db, sandbox, digests) && KeepsParents(db.deliveries, after.deliveries, op)
    requires after.runs.Keys <= db.runs.Keys + FreshIds(op) && digests.Keys + FreshIds(op) <= more.Keys && DigestsOk(more)
    requires forall id :: id in digests ==> more[id] == digests[id]
    requires op.OpFinish? && op.reply.Some? ==> op.finish.runId in digests && op.reply.value.id == DeliveryId(digests[op.finish.runId])
    ensures Tracked(after, sandbox, more)
  {
  }

  lemma FreshDigestIsOk(digests: map<Str, Str>, id: Str, digest: Str)
    requires DigestsOk(digests) && FreshId(digests, id, digest)
    ensures DigestsOk(digests[id := digest])
  {
    assert forall a :: a in digests ==> digests[a] in digests.Values;
  }

  lemma StepKeepsDigests(cfg: Config, s: System, step: Step, op: Op, after: System)
    requires DigestsOk(s.digests) && Allowed(s, step) && after == Do(cfg, s, step) && StoreOp(s, step) == Some(op)
    ensures DigestsOk(after.digests) && s.digests.Keys + FreshIds(op) <= after.digests.Keys
    ensures forall id :: id in s.digests ==> after.digests[id] == s.digests[id]
  {
    if step.Connector? && op.OpIngest? && op.env.newRunId.Some? { FreshDigestIsOk(s.digests, op.env.newRunId.value, step.digest); }
  }

  /** The reply a step commits is named after the Run it finishes. */
  lemma ReplyIsNamed(s: System, step: Step, op: Op)
    requires InSync(s.db.runs, s.sandbox, s.pc) && Allowed(s, step) && StoreOp(s, step) == Some(op) && op.OpFinish?
    ensures op.reply.Some? && op.finish.runId in s.digests && op.reply.value.id == DeliveryId(s.digests[op.finish.runId])
  {
  }

  /** A record is only ever added for the request the worker offers. */
  lemma SandboxGrows(cfg: Config, s: System, step: Step, after: System)
    requires after == Do(cfg, s, step)
    ensures after.sandbox.Keys == s.sandbox.Keys || (s.pc.AtStart? && after.sandbox.Keys == s.sandbox.Keys + {s.pc.request.runId})
  {
  }

  lemma OfferedIsLive(runs: map<Str, Run>, sandbox: map<Str, Record>, pc: Pc)
    requires PcOk(runs, sandbox, pc) && pc.AtStart?
    ensures pc.request.runId in runs && Live(runs[pc.request.runId])
  {
  }

  lemma StepKeepsTracked(cfg: Config, s: System, step: Step, after: System)
    requires DeliveryShapes(s.db.deliveries) && Tracked(s.db, s.sandbox, s.digests) && InSync(s.db.runs, s.sandbox, s.pc)
    requires Allowed(s, step) && after == Do(cfg, s, step)
    ensures Tracked(after.db, after.sandbox, after.digests)
  {
    StepIsItsOp(cfg, s, step, after);
    SandboxGrows(cfg, s, step, after);
    if s.pc.AtStart? { OfferedIsLive(s.db.runs, s.sandbox, s.pc); }
    if StoreOp(s, step).Some? {
      var op := StoreOp(s, step).value;
      RunIdsGrow(cfg, s.db, op, after.db);
      ApplyKeepsParents(cfg, s.db, op, after.db);
      StepKeepsDigests(cfg, s, step, op, after);
      if op.OpFinish? { ReplyIsNamed(s, step, op); }
      TrackedOn(s.db, s.sandbox, s.digests, op, after.db, after.digests);
      assert after.sandbox.Keys <= after.digests.Keys;
    }
  }

  // ---- What the deliveries tell ----

  lemma ClaimKeepsEnded(db: DB, leaseNs: int, token: Option<Str>, now: int, id: Str, after: DB)
    requires after == Claim(db, leaseNs, token, now).db && id in db.runs && Terminal(db.runs[id].state)
    ensures id in after.runs && after.runs[id] == db.runs[id]
  {
    ClaimCases(db, leaseNs, token, now);
  }

  lemma WorkKeepsEnded(cfg: Config, db: DB, op: Op, id: Str, after: DB)
    requires (op.OpPrepare? || op.OpMark? || op.OpFinish?) && after == Apply(cfg, db, op) && id in db.runs && Terminal(db.runs[id].state)
    ensures id in after.runs && after.runs[id] == db.runs[id]
  {
    match op
    case OpPrepare(i, now) => PrepareCases(db, i, now, Prepare(db, i, now));
    case OpMark(r, token, now) => MarkCases(db, r, token, now);
    case OpFinish(i, reply, now) => FinishTerminates(cfg, db, i, reply, now);
  }

  /** The row of an ended Run never changes. */
  lemma EndedRowsStay(cfg: Config, db: DB, op: Op, id: Str, after: DB)
    requires DeliveryShapes(db.deliveries) && after == Apply(cfg, db, op) && id in db.runs && Terminal(db.runs[id].state)
    requires id in after.runs && id !in FreshIds(op)
    ensures after.runs[id] == db.runs[id]
  {
    match op
    case OpIngest(i, env) => IngestCases(cfg, db, i, env); EvictShrinks(cfg, db, i.connector, env.now);
    case OpClaim(lease, token, now) => ClaimKeepsEnded(db, lease, token, now, id, after);
    case OpLease(_, _, _, _, _) => OutboxKeepsRuns(cfg, db, op, after);
    case OpComplete(_, _) => OutboxKeepsRuns(cfg, db, op, after);
    case OpReset(_, _) => OutboxKeepsRuns(cfg, db, op, after);
    case _ => WorkKeepsEnded(cfg, db, op, id, after);
  }

  lemma ReplyTellsItsRow(text: Str, i: FinishInput, run: Run)
    requires RepliesTo(text, i) && SameFinish(run, i)
    ensures TellsRow(text, run)
  {
  }

  /** A reply that a finish adds tells the row it leaves. */
  lemma NewReplyTells(cfg: Config, db: DB, i: FinishInput, reply: DeliveryInput, now: int, after: DB)
    requires after == StoreSteps.Finish(cfg, db, i, Some(reply), now).db && after.deliveries != db.deliveries && RepliesTo(reply.text, i)
    ensures i.runId in after.runs && TellsRow(reply.text, after.runs[i.runId])
  {
    FinishCases(cfg, db, i, Some(reply), now);
    FinishTerminates(cfg, db, i, Some(reply), now);
    FinishedRunIsSame(db.runs[i.runId], i, now);
    ReplyTellsItsRow(reply.text, i, after.runs[i.runId]);
  }

  lemma OpKeepsTold(cfg: Config, db: DB, op: Op, after: DB)
    requires StoreOk(cfg, db) && Told(db.runs, db.deliveries) && after == Apply(cfg, db, op) && FreshIds(op) !! db.runs.Keys
    requires op.OpFinish? ==> op.reply.Some? && RepliesTo(op.reply.value.text, op.finish)
    ensures Told(after.runs, after.deliveries)
  {
    ApplyKeepsParents(cfg, db, op, after);
    forall d | d in after.deliveries && after.deliveries[d].runId in after.runs
      ensures TellsRow(after.deliveries[d].text, after.runs[after.deliveries[d].runId])
    {
      if d in db.deliveries && after.deliveries[d].runId == db.deliveries[d].runId && after.deliveries[d].text == db.deliveries[d].text {
        EndedRowsStay(cfg, db, op, db.deliveries[d].runId, after);
      } else {
        NewReplyTells(cfg, db, op.finish, op.reply.value, op.now, after);
      }
    }
  }

  /** A step's transaction admits under fresh IDs only, and finishes with a reply that tells the outcome. */
  lemma OpIsFresh(s: System, step: Step, op: Op)
    requires Allowed(s, step) && StoreOp(s, step) == Some(op) && PcOk(s.db.runs, s.sandbox, s.pc)
    requires s.db.runs.Keys <= s.digests.Keys && s.sandbox.Keys <= s.digests.Keys
    ensures FreshIds(op) !! s.db.runs.Keys && (op.OpFinish? ==> op.reply.Some? && RepliesTo(op.reply.value.text, op.finish))
  {
    if step.Connector? { FreshIdsAreFresh(s, step.op, step.digest); }
  }

  lemma StepKeepsTold(cfg: Config, s: System, step: Step, after: System)
    requires SystemInv(cfg, s) && Allowed(s, step) && after == Do(cfg, s, step)
    ensures Told(after.db.runs, after.db.deliveries)
  {
    StepIsItsOp(cfg, s, step, after);
    if StoreOp(s, step).Some? {
      var op := StoreOp(s, step).value;
      OpIsFresh(s, step, op);
      OpKeepsTold(cfg, s.db, op, after.db);
    }
  }

  // ---- Every run of the system ----

  lemma StartIsInSync(cfg: Config)
    requires ValidConfig(cfg)
    ensures SystemInv(cfg, START)
  {
    EmptyIsSound(cfg);
  }

  lemma FreshIdsAreFresh(s: System, op: Op, digest: Str)
    requires Allowed(s, Connector(op, digest)) && s.db.runs.Keys <= s.digests.Keys && s.sandbox.Keys <= s.digests.Keys
    ensures FreshIds(op) !! s.db.runs.Keys && FreshIds(op) !! s.sandbox.Keys
  {
  }

  lemma ConnectorKeepsSync(cfg: Config, db: DB, sandbox: map<Str, Record>, pc: Pc, op: Op, after: DB)
    requires DeliveryShapes(db.deliveries) && InSync(db.runs, sandbox, pc) && FromConnector(op)
    requires FreshIds(op) !! db.runs.Keys && FreshIds(op) !! sandbox.Keys && after == Apply(cfg, db, op)
    ensures InSync(after.runs, sandbox, pc)
  {
    ConnectorTurnsOver(cfg, db, op, after);
    TurnOverKeepsSync(db.runs, after.runs, sandbox, FreshIds(op), pc);
  }

  lemma AppendedKeepsSync(runs: map<Str, Run>, sandbox: map<Str, Record>, pc: Pc, id: Str, event: Exec.RunEvent, log: Exec.Snapshot)
    requires InSync(runs, sandbox, pc) && id in sandbox && Exec.Append(sandbox[id].log, event) == Some(log)
    ensures InSync(runs, sandbox[id := sandbox[id].(log := log)], pc)
  {
    Exec.GrowthKeepsLog(sandbox[id].log, event);
    SandboxKeepsSync(runs, sandbox, pc, id, log);
  }

  lemma CancelledKeepsSync(runs: map<Str, Run>, sandbox: map<Str, Record>, pc: Pc, id: Str, log: Exec.Snapshot)
    requires InSync(runs, sandbox, pc) && id in sandbox && log == Exec.Cancel(sandbox[id].log)
    ensures InSync(runs, sandbox[id := sandbox[id].(log := log)], pc)
  {
    Exec.GrowthKeepsLog(sandbox[id].log, Exec.RunEvent([], 0, Exec.UnknownType, None, None, None));
    SandboxKeepsSync(runs, sandbox, pc, id, log);
  }

  /** What a step of the sandbox by itself comes to: one record's log moves on, or nothing. */
  lemma SandboxMoves(cfg: Config, s: System, step: Step, after: System)
    requires (step.SandboxAppends? || step.SandboxCancels?) && after == Do(cfg, s, step)
    ensures if step.id in s.sandbox && (step.SandboxCancels? || Exec.Append(s.sandbox[step.id].log, step.event).Some?) then
        after == s.(sandbox := s.sandbox[step.id := s.sandbox[step.id].(log :=
          if step.SandboxCancels? then Exec.Cancel(s.sandbox[step.id].log) else Exec.Append(s.sandbox[step.id].log, step.event).value)])
      else after == s
  {
  }

  lemma SandboxStepKeepsSync(cfg: Config, s: System, step: Step, after: System)
    requires InSync(s.db.runs, s.sandbox, s.pc) && (step.SandboxAppends? || step.SandboxCancels?) && after == Do(cfg, s, step)
    ensures InSync(after.db.runs, after.sandbox, after.pc)
  {
    SandboxMoves(cfg, s, step, after);
    if step.id in s.sandbox {
      var log := s.sandbox[step.id].log;
      if step.SandboxCancels? { CancelledKeepsSync(s.db.runs, s.sandbox, s.pc, step.id, Exec.Cancel(log)); }
      else if Exec.Append(log, step.event).Some? {
        AppendedKeepsSync(s.db.runs, s.sandbox, s.pc, step.id, step.event, Exec.Append(log, step.event).value);
      }
    }
  }

  lemma DispatchKeepsSync(s: System, lease: int, token: Option<Str>, now: int, step: ClaimStep)
    requires InSync(s.db.runs, s.sandbox, s.pc) && step == Claim(s.db, lease, token, now)
    ensures InSync(AfterClaim(s, step).db.runs, s.sandbox, AfterClaim(s, step).pc)
  {
    ReleaseKeepsSync(s.db.runs, s.sandbox, now);
    ClaimCases(s.db, lease, token, now);
    ClaimKeepsSync(s, ReleaseExpired(s.db.runs, now), step);
  }

  /** What a store step of the worker comes to, when the worker is ready for it. */
  lemma StoreStepMoves(cfg: Config, s: System, step: Step, after: System)
    requires (step.DispatchOne? || step.PrepareStart? || step.MarkRun? || step.CommitFinish?) && after == Do(cfg, s, step)
    ensures match step
      case DispatchOne(lease, token, now) => after == if s.pc.Idle? then AfterClaim(s, Claim(s.db, lease, token, now)) else s
      case PrepareStart(deadline, now) =>
        after == if s.pc.AtPrepare? then AfterPrepare(s, Prepare(s.db, PrepareInput(s.pc.id, s.pc.row.dispatchToken, s.pc.session, deadline), now))
                 else s
      case MarkRun(now) =>
        after == if s.pc.AtMark? || s.pc.AtNote? then AfterMark(s, MarkRunning(s.db, s.pc.id, s.pc.row.dispatchToken, now)) else s
      case CommitFinish(now) =>
        after == if s.pc.AtFinish? && s.pc.id in s.digests then
                   s.(db := StoreSteps.Finish(cfg, s.db, s.pc.finish.input, Some(ReplyOf(s)), now).db, pc := Idle)
                 else s
  {
  }

  lemma CommitKeepsSync(cfg: Config, s: System, now: int, after: System)
    requires InSync(s.db.runs, s.sandbox, s.pc) && s.pc.AtFinish? && s.pc.id in s.digests
    requires after == s.(db := StoreSteps.Finish(cfg, s.db, s.pc.finish.input, Some(ReplyOf(s)), now).db, pc := Idle)
    ensures InSync(after.db.runs, after.sandbox, after.pc)
  {
    FinishKeepsSync(cfg, s, Some(ReplyOf(s)), now, StoreSteps.Finish(cfg, s.db, s.pc.finish.input, Some(ReplyOf(s)), now));
  }

  lemma StoreStepKeepsSync(cfg: Config, s: System, step: Step, after: System)
    requires InSync(s.db.runs, s.sandbox, s.pc) && Checked(s.db.runs) && after == Do(cfg, s, step)
    requires step.DispatchOne? || step.PrepareStart? || step.MarkRun? || step.CommitFinish?
    ensures InSync(after.db.runs, after.sandbox, after.pc)
  {
    StoreStepMoves(cfg, s, step, after);
    match step
    case DispatchOne(lease, token, now) => if s.pc.Idle? { DispatchKeepsSync(s, lease, token, now, Claim(s.db, lease, token, now)); }
    case PrepareStart(deadline, now) => if s.pc.AtPrepare? { PrepareKeepsSync(s, deadline, now); }
    case MarkRun(now) => if s.pc.AtMark? || s.pc.AtNote? { MarkKeepsSync(s, now); }
    case CommitFinish(now) => if s.pc.AtFinish? && s.pc.id in s.digests { CommitKeepsSync(cfg, s, now, after); }
  }

  lemma CallKeepsSync(cfg: Config, s: System, step: Step, after: System)
    requires InSync(s.db.runs, s.sandbox, s.pc) && Checked(s.db.runs) && (step.CallStart? || step.CallGet?) && Allowed(s, step)
    requires after == Do(cfg, s, step)
    ensures InSync(after.db.runs, after.sandbox, after.pc)
  {
    match step
    case CallStart(reply, created) => if s.pc.AtStart? { StartKeepsSync(s, reply, created); }
    case CallGet(got) =>
      CallGetMoves(cfg, s, got, after);
      GetKeepsSync(s.db.runs, s.sandbox, s.pc, got);
  }

  /** Reading a Run or a session, and crashing, move the worker alone. */
  lemma LocalMoves(cfg: Config, s: System, step: Step, after: System)
    requires (step.AdvanceRun? || step.ReadSession? || step.Crash?) && after == Do(cfg, s, step)
    ensures after == s.(pc := after.pc)
    ensures match after.pc
      case AtSession(id, row) => after.pc == s.pc || (id in s.db.runs && row == s.db.runs[id] && row.state == Dispatching)
      case AtRunPoll(id, row) => after.pc == s.pc || (id in s.db.runs && row == s.db.runs[id] && row.state == Running)
      case AtPrepare(id, row, _) => after.pc == s.pc || s.pc == AtSession(id, row)
      case Idle => true
      case _ => after.pc == s.pc
  {
  }

  lemma LocalStepKeepsSync(cfg: Config, s: System, step: Step, after: System)
    requires InSync(s.db.runs, s.sandbox, s.pc) && RunShapes(s.db.runs) && (step.AdvanceRun? || step.ReadSession? || step.Crash?)
    requires after == Do(cfg, s, step)
    ensures InSync(after.db.runs, after.sandbox, after.pc)
  {
    LocalMoves(cfg, s, step, after);
  }

  lemma WorkerKeepsSync(cfg: Config, s: System, step: Step, after: System)
    requires InSync(s.db.runs, s.sandbox, s.pc) && Checked(s.db.runs) && RunShapes(s.db.runs) && !step.Connector? && Allowed(s, step)
    requires after == Do(cfg, s, step)
    ensures InSync(after.db.runs, after.sandbox, after.pc)
  {
    if step.CallStart? || step.CallGet? { CallKeepsSync(cfg, s, step, after); }
    else if step.SandboxAppends? || step.SandboxCancels? { SandboxStepKeepsSync(cfg, s, step, after); }
    else if step.AdvanceRun? || step.ReadSession? || step.Crash? { LocalStepKeepsSync(cfg, s, step, after); }
    else { StoreStepKeepsSync(cfg, s, step, after); }
  }

  lemma StepKeepsSync(cfg: Config, s: System, step: Step, after: System)
    requires SystemInv(cfg, s) && Allowed(s, step) && after == Do(cfg, s, step)
    ensures InSync(after.db.runs, after.sandbox, after.pc)
  {
    if step.Connector? {
      FreshIdsAreFresh(s, step.op, step.digest);
      ConnectorKeepsSync(cfg, s.db, s.sandbox, s.pc, step.op, after.db);
    } else {
      WorkerKeepsSync(cfg, s, step, after);
    }
  }

  lemma StepKeepsInv(cfg: Config, s: System, step: Step, after: System)
    requires SystemInv(cfg, s) && Allowed(s, step) && after == Do(cfg, s, step)
    ensures SystemInv(cfg, after)
  {
    assert StoreOk(cfg, after.db) by {
      StepIsItsOp(cfg, s, step, after);
      if StoreOp(s, step).Some? { StepKeepsStore(cfg, s.db, StoreOp(s, step).value, after.db); }
    }
    StepKeepsTracked(cfg, s, step, after);
    StepKeepsSync(cfg, s, step, after);
    StepKeepsTold(cfg, s, step, after);
  }

  lemma {:induction false} EverySystemIsSound(cfg: Config, steps: seq<Step>)
    requires ValidConfig(cfg) && Possible(cfg, steps)
    ensures SystemInv(cfg, Reached(cfg, steps))
    decreases |steps|
  {
    if |steps| == 0 { StartIsInSync(cfg); }
    else {
      EverySystemIsSound(cfg, steps[..|steps| - 1]);
      StepKeepsInv(cfg, Reached(cfg, steps[..|steps| - 1]), steps[|steps| - 1], Reached(cfg, steps));
    }
  }

  /** The Core row says what the sandbox's terminal record says: state, output, session and failure class. */
  ghost predicate SameOutcome(run: Run, log: Exec.Snapshot) {
    && Exec.ValidSnapshot(log) && Exec.Terminal(log.status.state) && |log.events| > 0
    && (run.state == Completed <==> log.status.state == Exec.Completed) && (run.state == Failed <==> log.status.state == Exec.Failed)
    && (run.state == Cancelled <==> log.status.state == Exec.Cancelled)
    && (run.state == Interrupted <==> log.status.state == Exec.Interrupted)
    && var final := log.events[|log.events| - 1];
       && (run.state == Completed ==>
             final.result.Some? && run.output == Some(final.result.value.text) && run.resultSession == final.result.value.sessionRef)
       && (run.state == Failed ==>
             final.failure.Some? && !final.failure.value.code.UnknownFailure? && run.failure.Some? && !run.failure.value.UnlistedFailure?
             && StoredName(run.failure.value) == WireName(final.failure.value.code))
  }

  lemma FinishedAlike(run: Run, token: Str, log: Exec.Snapshot)
    requires Exec.ValidSnapshot(log) && Exec.Terminal(log.status.state) && SameFinish(run, FinishOf(token, log).input)
    ensures SameOutcome(run, log)
  {
    FinishKeepsTheOutcome(token, log);
    FinalEventPayload(log);
    if run.state == Failed { MapFailureKeepsTheName(log.events[|log.events| - 1].failure.value.code); }
  }

  /**
   Agreement. Whenever Core holds a terminal Run that the sandbox has a record of, that record is terminal
   too, in the same state and with the same result; so Core never ends a Run the sandbox still owns.
   */
  lemma CoreAgreesWithSandbox(cfg: Config, steps: seq<Step>, id: Str)
    requires ValidConfig(cfg) && Possible(cfg, steps)
    requires var s := Reached(cfg, steps); id in s.db.runs && id in s.sandbox && Terminal(s.db.runs[id].state)
    ensures var s := Reached(cfg, steps); SameOutcome(s.db.runs[id], s.sandbox[id].log)
  {
    EverySystemIsSound(cfg, steps);
    var s := Reached(cfg, steps);
    FinishedAlike(s.db.runs[id], s.db.runs[id].dispatchToken, s.sandbox[id].log);
  }

  /** The sandbox's record is of the request that Core froze: the Run's own input, scope and target, the session and deadline of its start. */
  lemma RecordIsOfTheRun(cfg: Config, steps: seq<Step>, id: Str)
    requires ValidConfig(cfg) && Possible(cfg, steps)
    requires var s := Reached(cfg, steps); id in s.db.runs && id in s.sandbox
    ensures var s := Reached(cfg, steps); var run, request := s.db.runs[id], s.sandbox[id].request;
      && request.runId == id && run.prepared && request.input == run.origin.input && request.scope == run.origin.scope
      && request.targetId == run.origin.scope.targetId && request.expectedRevision == run.origin.scope.targetRevision
      && request.session == run.startSession && request.deadline == run.startDeadline
  {
    EverySystemIsSound(cfg, steps);
  }

  /**
   In every run of the system, a delivery tells the outcome of its Run. If the sandbox has completed the Run, the
   delivery carries the output of the record's last event, unless there is nothing to see in it.
   */
  lemma DeliveriesTellTheOutcome(cfg: Config, steps: seq<Step>, d: Str)
    requires ValidConfig(cfg) && Possible(cfg, steps) && d in Reached(cfg, steps).db.deliveries
    ensures var s := Reached(cfg, steps); var id, text := s.db.deliveries[d].runId, s.db.deliveries[d].text;
      && id in s.db.runs && TellsRow(text, s.db.runs[id])
      && (id in s.sandbox ==>
            && SameOutcome(s.db.runs[id], s.sandbox[id].log)
            && (s.db.runs[id].state == Completed ==>
                  CompletedText(text, s.sandbox[id].log.events[|s.sandbox[id].log.events| - 1].result.value.text)))
  {
    EverySystemIsSound(cfg, steps);
    var s := Reached(cfg, steps);
    if s.db.deliveries[d].runId in s.sandbox { CoreAgreesWithSandbox(cfg, steps, s.db.deliveries[d].runId); }
  }

  // ---- Runs the sandbox never had ----

  /** Core ended the Run, or has since compacted it away, and the sandbox has no record of it. */
  ghost predicate Settled(s: System, id: Str) {
    id in s.digests && id !in s.sandbox && (id in s.db.runs ==> Terminal(s.db.runs[id].state))
  }

  lemma OpKeepsTerminal(cfg: Config, db: DB, op: Op, id: Str, after: DB)
    requires DeliveryShapes(db.deliveries) && after == Apply(cfg, db, op) && id !in FreshIds(op) && id in after.runs
    requires id in db.runs ==> Terminal(db.runs[id].state)
    ensures Terminal(after.runs[id].state)
  {
    RunIdsGrow(cfg, db, op, after);
    if op.OpIngest? {
      IngestCases(cfg, db, op.ingest, op.env);
      EvictShrinks(cfg, db, op.ingest.connector, op.env.now);
    } else {
      OnlyIngestAdmits(cfg, db, op);
    }
  }

  lemma RunsStayTerminal(cfg: Config, s: System, step: Step, id: Str, after: System)
    requires DeliveryShapes(s.db.deliveries) && Allowed(s, step) && Settled(s, id) && after == Do(cfg, s, step) && id in after.db.runs
    ensures Terminal(after.db.runs[id].state)
  {
    StepIsItsOp(cfg, s, step, after);
    if StoreOp(s, step).Some? { OpKeepsTerminal(cfg, s.db, StoreOp(s, step).value, id, after.db); }
  }

  lemma NothingIsStarted(cfg: Config, s: System, step: Step, id: Str, after: System)
    requires PcOk(s.db.runs, s.sandbox, s.pc) && Settled(s, id) && after == Do(cfg, s, step)
    ensures id !in after.sandbox && id in after.digests
  {
    SandboxGrows(cfg, s, step, after);
    if s.pc.AtStart? { OfferedIsLive(s.db.runs, s.sandbox, s.pc); }
  }

  lemma StepKeepsSettled(cfg: Config, s: System, step: Step, id: Str, after: System)
    requires SystemInv(cfg, s) && Allowed(s, step) && Settled(s, id) && after == Do(cfg, s, step)
    ensures Settled(after, id)
  {
    NothingIsStarted(cfg, s, step, id, after);
    if id in after.db.runs { RunsStayTerminal(cfg, s, step, id, after); }
  }

  lemma {:induction false} SettledLater(cfg: Config, steps: seq<Step>, more: seq<Step>, id: Str)
    requires ValidConfig(cfg) && Possible(cfg, steps + more)
    requires Possible(cfg, steps) && Settled(Reached(cfg, steps), id)
    ensures Settled(Reached(cfg, steps + more), id)
    decreases |more|
  {
    if |more| == 0 {
      assert steps + more == steps;
    } else {
      var all, rest := steps + more, more[..|more| - 1];
      assert all[..|all| - 1] == steps + rest;
      SettledLater(cfg, steps, rest, id);
      EverySystemIsSound(cfg, steps + rest);
      StepKeepsSettled(cfg, Reached(cfg, steps + rest), all[|all| - 1], id, Reached(cfg, all));
    }
  }

  /** A Run that Core ended without a record never gets one: nothing is ever started for it afterwards. */
  lemma NoRecordEver(cfg: Config, steps: seq<Step>, more: seq<Step>, id: Str)
    requires ValidConfig(cfg) && Possible(cfg, steps) && Possible(cfg, steps + more)
    requires var s := Reached(cfg, steps); id in s.db.runs && Terminal(s.db.runs[id].state) && id !in s.sandbox
    ensures id !in Reached(cfg, steps + more).sandbox
  {
    EverySystemIsSound(cfg, steps);
    SettledLater(cfg, steps, more, id);
  }

  // ---- The worker gets there ----

  /** Nothing outside the engine stands between a finish and its commit: a live lease or a running Run, and room for the reply. */
  ghost predicate CanCommit(cfg: Config, s: System, now: int)
    requires s.pc.AtFinish?
  {
    var id := s.pc.id;
    && id in s.db.runs && now > 0
    && (s.db.runs[id].state == Dispatching ==> HoldsDispatch(s.db.runs[id], s.pc.row.dispatchToken, now))
    && |UnresolvedOf(s.db.runs, s.db.deliveries, s.db.runs[id].origin.scope.connector)| < cfg.maxPending
  }

  /** Ending a Run adds no unresolved delivery by itself. */
  lemma FinishedCountsAlike(runs: map<Str, Run>, deliveries: map<Str, Delivery>, id: Str, run: Run, c: Str)
    requires id in runs && run.origin == runs[id].origin
    ensures UnresolvedOf(runs[id := run], deliveries, c) == UnresolvedOf(runs, deliveries, c)
  {
  }

  lemma LiveRunHasNoDelivery(runs: map<Str, Run>, deliveries: map<Str, Delivery>, id: Str)
    requires DeliveriesLinked(runs, deliveries) && id in runs && Live(runs[id])
    ensures !HasDelivery(deliveries, id)
  {
  }

  /** The ID derived from a live Run is not taken: it could only be taken by that Run's own delivery. */
  lemma ReplyIdIsFree(runs: map<Str, Run>, deliveries: map<Str, Delivery>, digests: map<Str, Str>, id: Str)
    requires DeliveriesLinked(runs, deliveries) && DigestsOk(digests) && Named(deliveries, digests)
    requires id in runs && Live(runs[id]) && id in digests
    ensures DeliveryId(digests[id]) !in deliveries && ValidIdentifier(DeliveryId(digests[id]), MAX_ID_BYTES)
  {
    var d := DeliveryId(digests[id]);
    DeliveryIdIsIdentifier(digests[id]);
    if d in deliveries { DeliveryIdIsInjective(digests[id], digests[deliveries[d].runId]); }
  }

  /** Whatever finish the worker has come to, in any run of the system, such a commit ends the Run as it says and leaves the reply pending. */
  lemma JustifiedFinishCommits(cfg: Config, steps: seq<Step>, now: int)
    requires ValidConfig(cfg) && Possible(cfg, steps)
    requires Reached(cfg, steps).pc.AtFinish? && CanCommit(cfg, Reached(cfg, steps), now)
    ensures var s := Reached(cfg, steps); s.pc.id in s.digests && CommitsFinish(s, Do(cfg, s, CommitFinish(now)), ReplyOf(s), now)
  {
    EverySystemIsSound(cfg, steps);
    FinishCommits(cfg, Reached(cfg, steps), now);
  }

  lemma CommitMoves(cfg: Config, s: System, now: int, reply: DeliveryInput, done: System)
    requires s.pc.AtFinish? && s.pc.id in s.digests && reply == ReplyOf(s) && done == Do(cfg, s, CommitFinish(now))
    ensures done == s.(db := StoreSteps.Finish(cfg, s.db, s.pc.finish.input, Some(reply), now).db, pc := Idle)
  {
  }

  lemma FinishCommits(cfg: Config, s: System, now: int)
    requires InSync(s.db.runs, s.sandbox, s.pc) && DeliveriesLinked(s.db.runs, s.db.deliveries)
    requires DigestsOk(s.digests) && Named(s.db.deliveries, s.digests) && s.db.runs.Keys <= s.digests.Keys
    requires s.pc.AtFinish? && CanCommit(cfg, s, now)
    ensures s.pc.id in s.digests && CommitsFinish(s, Do(cfg, s, CommitFinish(now)), ReplyOf(s), now)
  {
    ReplyIdIsFree(s.db.runs, s.db.deliveries, s.digests, s.pc.id);
    var reply := ReplyOf(s);
    CommitMoves(cfg, s, now, reply, Do(cfg, s, CommitFinish(now)));
    ReadyFinishCommits(cfg, s, reply, now, StoreSteps.Finish(cfg, s.db, s.pc.finish.input, Some(reply), now));
  }

  ghost predicate CommitsFinish(s: System, done: System, reply: DeliveryInput, now: int)
    requires s.pc.AtFinish?
  {
    && s.pc.id in done.db.runs && Terminal(done.db.runs[s.pc.id].state) && SameFinish(done.db.runs[s.pc.id], s.pc.finish.input)
    && reply.id in done.db.deliveries && done.db.deliveries[reply.id] == NewDelivery(s.pc.id, s.pc.finish.text, now)
  }

  lemma FreeReplyIsInserted(cfg: Config, db: DB, run: Str, reply: DeliveryInput, now: int)
    requires run in db.runs && reply.id !in db.deliveries && !HasDelivery(db.deliveries, run)
    requires |UnresolvedOf(db.runs, db.deliveries, db.runs[run].origin.scope.connector)| < cfg.maxPending
    ensures InsertDelivery(cfg, db, run, reply, now)
            == UnitStep(db.(deliveries := db.deliveries[reply.id := NewDelivery(run, reply.text, now)]), Done)
  {
  }

  /** What a finish that nothing refuses leaves: the terminal row and the reply. */
  lemma UnrefusedFinish(cfg: Config, db: DB, i: FinishInput, reply: DeliveryInput, now: int, mid: DB)
    requires ValidFinish(i) && now > 0 && i.runId in db.runs && Active(db.runs[i.runId]) && db.runs[i.runId].dispatchToken == i.token
    requires db.runs[i.runId].prepared && ValidDelivery(reply) && mid == CommitTerminal(db, db.runs[i.runId], i, now)
    requires db.runs[i.runId].state == Dispatching ==> HoldsDispatch(db.runs[i.runId], i.token, now)
    requires InsertDelivery(cfg, mid, i.runId, reply, now).result.Done?
    ensures StoreSteps.Finish(cfg, db, i, Some(reply), now) == InsertDelivery(cfg, mid, i.runId, reply, now)
  {
  }

  lemma ReadyFinishCommits(cfg: Config, s: System, reply: DeliveryInput, now: int, step: UnitStep)
    requires PcOk(s.db.runs, s.sandbox, s.pc) && DeliveriesLinked(s.db.runs, s.db.deliveries)
    requires s.pc.AtFinish? && CanCommit(cfg, s, now) && reply.text == s.pc.finish.text
    requires reply.id !in s.db.deliveries && ValidIdentifier(reply.id, MAX_ID_BYTES)
    requires step == StoreSteps.Finish(cfg, s.db, s.pc.finish.input, Some(reply), now)
    ensures CommitsFinish(s, s.(db := step.db, pc := Idle), reply, now)
  {
    var id, i := s.pc.id, s.pc.finish.input;
    var run := s.db.runs[id];
    LiveRunHasNoDelivery(s.db.runs, s.db.deliveries, id);
    FinishedCountsAlike(s.db.runs, s.db.deliveries, id, FinishedRun(run, i, now), run.origin.scope.connector);
    FinishedRunIsSame(run, i, now);
    var mid := CommitTerminal(s.db, run, i, now);
    FreeReplyIsInserted(cfg, mid, id, reply, now);
    UnrefusedFinish(cfg, s.db, i, reply, now, mid);
  }

  lemma EndedSnapshotFinishes(runs: map<Str, Run>, sandbox: map<Str, Record>, pc: Pc)
    requires InSync(runs, sandbox, pc) && Checked(runs) && pc.AtRunPoll? && pc.id in sandbox && Exec.Terminal(sandbox[pc.id].log.status.state)
    ensures Exec.ValidSnapshot(sandbox[pc.id].log) && Ready(FinishOf(pc.row.dispatchToken, sandbox[pc.id].log))
    ensures AfterRunPoll(pc.id, pc.row, GetOk(sandbox[pc.id].log))
            == AtFinish(pc.id, pc.row, FinishOf(pc.row.dispatchToken, sandbox[pc.id].log))
  {
    assert RunChecked(pc.id, runs[pc.id]);
    SnapshotCanFinish(pc.row.dispatchToken, sandbox[pc.id].log);
    ReplyTellsTheOutcome(pc.row.dispatchToken, sandbox[pc.id].log);
  }

  /** The poll is answered, and the worker goes to the sandbox's own outcome, which the store will take. */
  ghost predicate LeadsToFinish(cfg: Config, s: System)
    requires s.pc.AtRunPoll? && s.pc.id in s.sandbox
  {
    var log := s.sandbox[s.pc.id].log;
    && Exec.ValidSnapshot(log) && Exec.Terminal(log.status.state) && Allowed(s, CallGet(GetOk(log)))
    && Do(cfg, s, CallGet(GetOk(log))).pc == AtFinish(s.pc.id, s.pc.row, FinishOf(s.pc.row.dispatchToken, log))
    && Ready(FinishOf(s.pc.row.dispatchToken, log))
  }

  lemma CallGetMoves(cfg: Config, s: System, got: GetReply, after: System)
    requires after == Do(cfg, s, CallGet(got))
    ensures after == s.(pc := AfterGot(s.pc, got))
  {
  }

  lemma PollFinishes(cfg: Config, s: System)
    requires InSync(s.db.runs, s.sandbox, s.pc) && Checked(s.db.runs) && s.pc.AtRunPoll?
    requires s.pc.id in s.sandbox && Exec.Terminal(s.sandbox[s.pc.id].log.status.state)
    ensures LeadsToFinish(cfg, s)
  {
    EndedSnapshotFinishes(s.db.runs, s.sandbox, s.pc);
    var got := GetOk(s.sandbox[s.pc.id].log);
    CallGetMoves(cfg, s, got, Do(cfg, s, CallGet(got)));
  }

  /** In every run, a poll of a running Run that the sandbox has ended leads straight to the sandbox's own outcome. */
  lemma PollOfEndedRunFinishes(cfg: Config, steps: seq<Step>)
    requires ValidConfig(cfg) && Possible(cfg, steps)
    requires var s := Reached(cfg, steps); s.pc.AtRunPoll? && s.pc.id in s.sandbox && Exec.Terminal(s.sandbox[s.pc.id].log.status.state)
    ensures LeadsToFinish(cfg, Reached(cfg, steps))
  {
    EverySystemIsSound(cfg, steps);
    PollFinishes(cfg, Reached(cfg, steps));
  }

  /** Proved absence after a terminal start error leads straight to that failure. */
  lemma ProvedAbsenceFails(cfg: Config, s: System)
    requires InSync(s.db.runs, s.sandbox, s.pc) && s.pc.AtProve? && s.pc.id !in s.sandbox
    ensures Do(cfg, s, CallGet(GetNotFound)).pc == Fail(s.pc.id, s.pc.row, s.pc.code)
    ensures Allowed(s, CallGet(GetNotFound))
  {
  }
}
