/** Dispatch leases over whole runs: only the worker of a Run's latest claim can move the Run on. */
module StoreDispatch {
  import opened GoTypes
  import opened StoreTypes
  import opened StoreSteps
  import opened StoreInvariant
  import opened StoreHistory
  import opened StoreReplies

  /** What one claim hands to the worker. */
  datatype Hold = Hold(token: Str, expires: int)

  ghost function HoldIn(result: ClaimResult, id: Str): Option<Hold> {
    if result.Claimed? && result.id == id && result.run.dispatchExpires.Some? then
      Some(Hold(result.run.dispatchToken, result.run.dispatchExpires.value))
    else None
  }

  ghost function HoldOf(db: DB, op: Op, id: Str): Option<Hold> {
    if op.OpClaim? then HoldIn(Claim(db, op.leaseNs, op.token, op.now).result, id) else None
  }

  /** What the latest claim of the Run handed out, if any ever claimed it. */
  ghost function LatestHold(cfg: Config, ops: seq<Op>, id: Str): Option<Hold>
    decreases |ops|
  {
    if |ops| == 0 then None
    else
      var now := HoldOf(After(cfg, ops[..|ops| - 1]), ops[|ops| - 1], id);
      if now.Some? then now else LatestHold(cfg, ops[..|ops| - 1], id)
  }

  /** A row that carries a dispatch token carries the latest one handed out, and a dispatching row its expiry too. */
  ghost predicate Agrees(run: Run, hold: Option<Hold>) {
    && (run.dispatchToken != [] ==> hold.Some? && hold.value.token == run.dispatchToken)
    && (run.state == Dispatching ==> hold.Some? && run.dispatchExpires == Some(hold.value.expires))
  }

  /** The row keeps its token and, while dispatching, its expiry; or it carries neither. */
  ghost predicate KeepsHold(before: Run, after: Run) {
    && (after.dispatchToken == [] || after.dispatchToken == before.dispatchToken)
    && (after.state == Dispatching ==> before.state == Dispatching && after.dispatchExpires == before.dispatchExpires)
  }

  ghost predicate KeepsHolds(runs: map<Str, Run>, after: map<Str, Run>) {
    forall id :: id in after ==>
      (id in runs && KeepsHold(runs[id], after[id])) || (after[id].dispatchToken == [] && after[id].state == Queued)
  }

  lemma ReleaseKeepsHolds(runs: map<Str, Run>, now: int)
    ensures KeepsHolds(runs, ReleaseExpired(runs, now))
  {
  }

  lemma ClaimAgrees(db: DB, released: map<Str, Run>, step: ClaimStep, id: Str, hold: Option<Hold>)
    requires ClaimsOrReleases(db, released, step) && KeepsHolds(db.runs, released) && id in step.db.runs
    requires id in db.runs ==> Agrees(db.runs[id], hold)
    ensures var now := HoldIn(step.result, id); Agrees(step.db.runs[id], if now.Some? then now else hold)
  {
  }

  lemma IngestKeepsHolds(cfg: Config, db: DB, i: IngestInput, env: IngestEnv)
    ensures KeepsHolds(db.runs, Ingest(cfg, db, i, env).db.runs)
  {
    IngestCases(cfg, db, i, env);
    EvictShrinks(cfg, db, i.connector, env.now);
  }

  lemma FinishKeepsHolds(cfg: Config, db: DB, i: FinishInput, reply: Option<DeliveryInput>, now: int)
    ensures KeepsHolds(db.runs, Finish(cfg, db, i, reply, now).db.runs)
  {
    FinishTerminates(cfg, db, i, reply, now);
    FinishCases(cfg, db, i, reply, now);
  }

  lemma PrepareKeepsHolds(db: DB, i: PrepareInput, now: int)
    ensures KeepsHolds(db.runs, Prepare(db, i, now).db.runs)
  {
  }

  lemma MarkKeepsHolds(db: DB, id: Str, token: Str, now: int)
    ensures KeepsHolds(db.runs, MarkRunning(db, id, token, now).db.runs)
  {
  }

  lemma SameRunsKeepHolds(runs: map<Str, Run>, after: map<Str, Run>)
    requires after == runs
    ensures KeepsHolds(runs, after)
  {
  }

  /** Delivery and session steps leave the Runs alone. */
  lemma OutboxKeepsRuns(cfg: Config, db: DB, op: Op, after: DB)
    requires DeliveryShapes(db.deliveries) && (op.OpLease? || op.OpComplete? || op.OpReset?) && after == Apply(cfg, db, op)
    ensures after.runs == db.runs
  {
    match op
    case OpLease(c, limit, lease, tokens, now) => LeaseRedelivers(db, c, limit, lease, tokens, now, Lease(db, c, limit, lease, tokens, now));
    case OpComplete(i, now) => CompletePersists(cfg, db, i, now);
    case OpReset(key, expected) => ResetPersists(db, key, expected);
  }

  lemma OtherStepsKeepHolds(cfg: Config, db: DB, op: Op, after: DB)
    requires DeliveryShapes(db.deliveries) && !op.OpClaim? && after == Apply(cfg, db, op)
    ensures KeepsHolds(db.runs, after.runs)
  {
    match op
    case OpIngest(i, env) => IngestKeepsHolds(cfg, db, i, env);
    case OpPrepare(i, now) => PrepareKeepsHolds(db, i, now);
    case OpMark(id, token, now) => MarkKeepsHolds(db, id, token, now);
    case OpFinish(i, reply, now) => FinishKeepsHolds(cfg, db, i, reply, now);
    case _ =>
      OutboxKeepsRuns(cfg, db, op, after);
      SameRunsKeepHolds(db.runs, after.runs);
  }

  lemma ApplyAgrees(cfg: Config, db: DB, op: Op, id: Str, hold: Option<Hold>, after: DB)
    requires DeliveryShapes(db.deliveries) && after == Apply(cfg, db, op) && id in after.runs
    requires id in db.runs ==> Agrees(db.runs[id], hold)
    ensures var now := HoldOf(db, op, id); Agrees(after.runs[id], if now.Some? then now else hold)
  {
    if op.OpClaim? {
      ReleaseKeepsHolds(db.runs, op.now);
      ClaimCases(db, op.leaseNs, op.token, op.now);
      ClaimAgrees(db, ReleaseExpired(db.runs, op.now), Claim(db, op.leaseNs, op.token, op.now), id, hold);
    } else {
      OtherStepsKeepHolds(cfg, db, op, after);
    }
  }

  /** In every run a Run's dispatch token and expiry are those of the latest claim that took it. */
  lemma {:induction false} EveryDispatchIsTheLatest(cfg: Config, ops: seq<Op>, id: Str)
    requires ValidConfig(cfg) && id in After(cfg, ops).runs
    ensures Agrees(After(cfg, ops).runs[id], LatestHold(cfg, ops, id))
    decreases |ops|
  {
    var before, op := ops[..|ops| - 1], ops[|ops| - 1];
    EveryRunIsSound(cfg, before);
    if id in After(cfg, before).runs { EveryDispatchIsTheLatest(cfg, before, id); }
    ApplyAgrees(cfg, After(cfg, before), op, id, LatestHold(cfg, before, id), After(cfg, ops));
  }

  /** The Run and the token that a worker's transaction names, and the clock it reads. */
  datatype Move = Move(id: Str, token: Str, now: int)

  function MoveOf(op: Op): Option<Move> {
    match op
    case OpPrepare(i, now) => Some(Move(i.runId, i.token, now))
    case OpMark(id, token, now) => Some(Move(id, token, now))
    case OpFinish(i, _, now) => Some(Move(i.runId, i.token, now))
    case _ => None
  }

  /** The transaction is accepted. */
  ghost predicate Moves(cfg: Config, db: DB, op: Op) {
    match op
    case OpPrepare(i, now) => Prepare(db, i, now).result.Prepared?
    case OpMark(id, token, now) => MarkRunning(db, id, token, now).result.Done?
    case OpFinish(i, reply, now) => Finish(cfg, db, i, reply, now).result.Done?
    case _ => false
  }

  lemma MovesHold(cfg: Config, db: DB, op: Op, move: Move)
    requires RunShapes(db.runs) && MoveOf(op) == Some(move)
    ensures Moves(cfg, db, op) ==>
      && move.id in db.runs && db.runs[move.id].dispatchToken == move.token != []
      && (db.runs[move.id].state == Dispatching ==> HoldsDispatch(db.runs[move.id], move.token, move.now))
    ensures !Moves(cfg, db, op) ==> Apply(cfg, db, op) == db
  {
    match op
    case OpFinish(i, reply, now) => FinishCases(cfg, db, i, reply, now);
    case _ =>
  }

  /**
   In every run, a preparation, a running mark or a finish is accepted only under the token of the latest claim of
   that Run, and while the Run is dispatching only before that claim's lease expires; refused, it changes nothing.
   */
  lemma OnlyTheLatestClaimMoves(cfg: Config, ops: seq<Op>, op: Op, move: Move)
    requires ValidConfig(cfg) && MoveOf(op) == Some(move)
    ensures var db, hold := After(cfg, ops), LatestHold(cfg, ops, move.id);
      if Moves(cfg, db, op) then
        && hold.Some? && hold.value.token == move.token && move.id in db.runs
        && (db.runs[move.id].state == Dispatching ==> move.now < hold.value.expires)
      else Apply(cfg, db, op) == db
  {
    EveryRunIsSound(cfg, ops);
    MovesHold(cfg, After(cfg, ops), op, move);
    if Moves(cfg, After(cfg, ops), op) { EveryDispatchIsTheLatest(cfg, ops, move.id); }
  }
}
