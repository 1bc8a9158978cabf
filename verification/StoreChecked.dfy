/** What admission and claiming checked stays true of the rows they wrote. */
module StoreChecked {
  import opened GoTypes
  import opened Utf8
  import opened StoreTypes
  import opened StoreSteps
  import opened StoreInvariant
  import opened StoreHistory
  import opened StoreReplies

  ghost predicate RunChecked(id: Str, run: Run) {
    && ValidIdentifier(id, MAX_ID_BYTES) && ValidText(run.origin.input, false)
    && (Active(run) ==> ValidIdentifier(run.dispatchToken, MAX_ID_BYTES))
  }

  ghost predicate Checked(runs: map<Str, Run>) { forall id :: id in runs ==> RunChecked(id, runs[id]) }

  /** The same Runs, from the same events, with no newly active Run under an unchecked token. */
  lemma RewriteKeepsChecked(runs: map<Str, Run>, after: map<Str, Run>)
    requires Checked(runs) && after.Keys == runs.Keys
    requires forall id :: id in runs ==>
      after[id].origin == runs[id].origin
      && (Active(after[id]) ==> Active(runs[id]) && after[id].dispatchToken == runs[id].dispatchToken)
    ensures Checked(after)
  {
    forall id | id in after ensures RunChecked(id, after[id]) { assert RunChecked(id, runs[id]); }
  }

  lemma UpdateKeepsChecked(runs: map<Str, Run>, id: Str, run: Run)
    requires Checked(runs) && id in runs && run.origin == runs[id].origin
    requires Active(run) ==> ValidIdentifier(run.dispatchToken, MAX_ID_BYTES)
    ensures Checked(runs[id := run])
  {
    var after := runs[id := run];
    forall r | r in after ensures RunChecked(r, after[r]) { assert RunChecked(r, runs[r]); }
  }

  lemma ReleaseKeepsChecked(runs: map<Str, Run>, now: int)
    requires Checked(runs)
    ensures Checked(ReleaseExpired(runs, now))
  {
    RewriteKeepsChecked(runs, ReleaseExpired(runs, now));
  }

  lemma ClaimedTokenIsChecked(db: DB, leaseNs: int, token: Option<Str>, now: int)
    ensures var step := Claim(db, leaseNs, token, now);
      step.result.Claimed? ==> ValidIdentifier(step.result.run.dispatchToken, MAX_ID_BYTES)
  {
  }

  lemma ClaimKeepsChecked(db: DB, leaseNs: int, token: Option<Str>, now: int)
    requires Checked(db.runs)
    ensures Checked(Claim(db, leaseNs, token, now).db.runs)
  {
    var step, released := Claim(db, leaseNs, token, now), ReleaseExpired(db.runs, now);
    ReleaseKeepsChecked(db.runs, now);
    ClaimCases(db, leaseNs, token, now);
    ClaimedTokenIsChecked(db, leaseNs, token, now);
    if step.result.Claimed? { UpdateKeepsChecked(released, step.result.id, step.result.run); }
  }

  lemma IngestKeepsChecked(cfg: Config, db: DB, i: IngestInput, env: IngestEnv)
    requires Checked(db.runs)
    ensures Checked(Ingest(cfg, db, i, env).db.runs)
  {
    IngestCases(cfg, db, i, env);
    EvictShrinks(cfg, db, i.connector, env.now);
    var after := Ingest(cfg, db, i, env).db.runs;
    forall id | id in after ensures RunChecked(id, after[id]) { assert id in db.runs ==> RunChecked(id, db.runs[id]); }
  }

  lemma PrepareKeepsChecked(db: DB, i: PrepareInput, now: int)
    requires Checked(db.runs)
    ensures Checked(Prepare(db, i, now).db.runs)
  {
    var after := Prepare(db, i, now).db;
    if after != db { RewriteKeepsChecked(db.runs, after.runs); }
  }

  lemma MarkKeepsChecked(db: DB, id: Str, token: Str, now: int)
    requires Checked(db.runs)
    ensures Checked(MarkRunning(db, id, token, now).db.runs)
  {
    var after := MarkRunning(db, id, token, now).db;
    if after != db { RewriteKeepsChecked(db.runs, after.runs); }
  }

  lemma FinishKeepsChecked(cfg: Config, db: DB, i: FinishInput, reply: Option<DeliveryInput>, now: int)
    requires Checked(db.runs)
    ensures Checked(Finish(cfg, db, i, reply, now).db.runs)
  {
    FinishTerminates(cfg, db, i, reply, now);
    FinishCases(cfg, db, i, reply, now);
    var step := Finish(cfg, db, i, reply, now);
    if step.result.Done? && Live(db.runs[i.runId]) { UpdateKeepsChecked(db.runs, i.runId, FinishedRun(db.runs[i.runId], i, now)); }
  }

  lemma ApplyKeepsChecked(cfg: Config, db: DB, op: Op)
    requires Checked(db.runs) && DeliveryShapes(db.deliveries)
    ensures Checked(Apply(cfg, db, op).runs)
  {
    match op
    case OpIngest(i, env) => IngestKeepsChecked(cfg, db, i, env);
    case OpClaim(lease, token, now) => ClaimKeepsChecked(db, lease, token, now);
    case OpPrepare(i, now) => PrepareKeepsChecked(db, i, now);
    case OpMark(id, token, now) => MarkKeepsChecked(db, id, token, now);
    case OpFinish(i, reply, now) => FinishKeepsChecked(cfg, db, i, reply, now);
    case OpLease(c, limit, lease, tokens, now) => LeaseRedelivers(db, c, limit, lease, tokens, now, Lease(db, c, limit, lease, tokens, now));
    case OpComplete(i, now) => CompletePersists(cfg, db, i, now);
    case OpReset(key, expected) => ResetPersists(db, key, expected);
  }

  /** In every reachable store each Run has a valid ID and a nonblank input, and each active one a valid token. */
  lemma {:induction false} EveryRunIsChecked(cfg: Config, ops: seq<Op>)
    requires ValidConfig(cfg)
    ensures Checked(After(cfg, ops).runs)
    decreases |ops|
  {
    if |ops| > 0 {
      EveryRunIsChecked(cfg, ops[..|ops| - 1]);
      EveryRunIsSound(cfg, ops[..|ops| - 1]);
      ApplyKeepsChecked(cfg, After(cfg, ops[..|ops| - 1]), ops[|ops| - 1]);
    }
  }

  /** Every session kept is under a valid reference. */
  ghost predicate SessionsChecked(sessions: map<SessionKey, Session>) { forall k :: k in sessions ==> ValidSessionRef(sessions[k].ref) }

  lemma ApplyKeepsSessionsChecked(cfg: Config, db: DB, op: Op, after: DB)
    requires SessionsChecked(db.sessions) && DeliveryShapes(db.deliveries) && after == Apply(cfg, db, op)
    ensures SessionsChecked(after.sessions)
  {
    if op.OpFinish? {
      FinishSessions(cfg, db, op.finish, op.reply, op.now);
      FinishCases(cfg, db, op.finish, op.reply, op.now);
    } else if !op.OpReset? {
      OtherStepsKeepSessions(cfg, db, op);
    }
  }
}
