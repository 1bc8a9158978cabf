/** What a finish replaces and what it leaves behind: the session it advances and the reply it owes. */
module StoreReplies {
  import opened GoTypes
  import opened StoreTypes
  import opened StoreSteps
  import opened StoreInvariant
  import opened StoreHistory

  /** The step turns this Run from nonterminal to terminal. */
  ghost predicate Terminates(cfg: Config, db: DB, op: Op, id: Str) {
    id in db.runs && Live(db.runs[id]) && id in Apply(cfg, db, op).runs && !Live(Apply(cfg, db, op).runs[id])
  }

  lemma OtherStepsKeepRunsLive(cfg: Config, db: DB, op: Op, id: Str)
    requires DeliveryShapes(db.deliveries) && !op.OpFinish?
    ensures !Terminates(cfg, db, op, id)
  {
    match op
    case OpIngest(i, env) => IngestCases(cfg, db, i, env); EvictShrinks(cfg, db, i.connector, env.now);
    case OpClaim(lease, token, now) => ClaimPersists(db, lease, token, now);
    case OpPrepare(i, now) => PreparePersists(db, i, now);
    case OpMark(r, token, now) => MarkPersists(db, r, token, now);
    case OpLease(c, limit, lease, tokens, now) => LeaseRedelivers(db, c, limit, lease, tokens, now, Lease(db, c, limit, lease, tokens, now));
    case OpComplete(i, now) => CompletePersists(cfg, db, i, now);
    case OpReset(key, expected) => ResetPersists(db, key, expected);
  }

  lemma FinishTerminates(cfg: Config, db: DB, i: FinishInput, reply: Option<DeliveryInput>, now: int)
    ensures var step := Finish(cfg, db, i, reply, now);
      && (step.result.Done? ==> i.runId in db.runs && db.runs[i.runId].prepared && db.runs[i.runId].dispatchToken == i.token)
      && step.db.runs == if step.result.Done? && Live(db.runs[i.runId])
                         then db.runs[i.runId := FinishedRun(db.runs[i.runId], i, now)] else db.runs
  {
    if Finish(cfg, db, i, reply, now).result.Done? && reply.Some? {
      var run := db.runs[i.runId];
      InsertDeliveryPersists(cfg, if Terminal(run.state) then db else CommitTerminal(db, run, i, now), i.runId, reply.value, now);
    }
  }

  /** The row a finish writes says what the finish said. */
  lemma FinishedRunIsSame(run: Run, i: FinishInput, now: int)
    requires ValidFinish(i)
    ensures SameFinish(FinishedRun(run, i, now), i)
  {
  }

  /** Only FinishRun terminates a Run, and only under the Run's own dispatch token after preparation. */
  lemma OnlyFinishTerminates(cfg: Config, db: DB, op: Op, id: Str)
    requires DeliveryShapes(db.deliveries) && Terminates(cfg, db, op, id)
    ensures op.OpFinish? && op.finish.runId == id && db.runs[id].prepared && db.runs[id].dispatchToken == op.finish.token
    ensures Finish(cfg, db, op.finish, op.reply, op.now).result.Done?
    ensures Apply(cfg, db, op).runs[id] == FinishedRun(db.runs[id], op.finish, op.now)
  {
    if op.OpFinish? { FinishTerminates(cfg, db, op.finish, op.reply, op.now); }
    else { OtherStepsKeepRunsLive(cfg, db, op, id); }
  }

  /**
   No lost session update. Whatever terminates a Run in any run of the store finds, as the current session
   of the Run's scope, exactly the session that Run started from, and replaces it only by that Run's result.
   */
  lemma FinishReplacesTheStartSession(cfg: Config, ops: seq<Op>, op: Op, id: Str)
    requires ValidConfig(cfg) && Terminates(cfg, After(cfg, ops), op, id)
    ensures var db, after := After(cfg, ops), Apply(cfg, After(cfg, ops), op);
      var scope := db.runs[id].origin.scope;
      && CurrentRef(db.sessions, scope) == db.runs[id].startSession
      && (after.runs[id].resultSession.Some? ==> CurrentRef(after.sessions, scope) == after.runs[id].resultSession)
      && (after.runs[id].resultSession.None? ==> CurrentRef(after.sessions, scope) == db.runs[id].startSession)
      && (forall k :: k != scope ==> CurrentRef(after.sessions, k) == CurrentRef(db.sessions, k))
  {
    EveryRunIsSound(cfg, ops);
    OnlyFinishTerminates(cfg, After(cfg, ops), op, id);
    FinishSessions(cfg, After(cfg, ops), op.finish, op.reply, op.now);
  }

  lemma FinishSessions(cfg: Config, db: DB, i: FinishInput, reply: Option<DeliveryInput>, now: int)
    ensures var step := Finish(cfg, db, i, reply, now);
      step.db.sessions == if step.result.Done? && Live(db.runs[i.runId])
                          then CommitTerminal(db, db.runs[i.runId], i, now).sessions else db.sessions
  {
    if Finish(cfg, db, i, reply, now).result.Done? && reply.Some? {
      var run := db.runs[i.runId];
      InsertDeliveryPersists(cfg, if Terminal(run.state) then db else CommitTerminal(db, run, i, now), i.runId, reply.value, now);
    }
  }

  lemma OtherStepsKeepSessions(cfg: Config, db: DB, op: Op)
    requires DeliveryShapes(db.deliveries) && !op.OpFinish? && !op.OpReset?
    ensures Apply(cfg, db, op).sessions == db.sessions
  {
    match op
    case OpIngest(i, env) => IngestCases(cfg, db, i, env);
    case OpClaim(lease, token, now) => ClaimPersists(db, lease, token, now);
    case OpLease(c, limit, lease, tokens, now) => LeaseRedelivers(db, c, limit, lease, tokens, now, Lease(db, c, limit, lease, tokens, now));
    case OpComplete(i, now) => CompletePersists(cfg, db, i, now);
    case _ =>
  }

  /** A session changes only when a Run of its own scope terminates, or an operator resets a scope where no Run is live. */
  lemma SessionsChangeOnlyAtFinishOrReset(cfg: Config, db: DB, op: Op, scope: SessionKey)
    requires Inv(cfg, db) && CurrentRef(Apply(cfg, db, op).sessions, scope) != CurrentRef(db.sessions, scope)
    ensures (op.OpReset? && op.key == scope && !ScopeBusy(db.runs, scope))
         || (op.OpFinish? && Terminates(cfg, db, op, op.finish.runId) && db.runs[op.finish.runId].origin.scope == scope)
  {
    if op.OpFinish? {
      FinishSessions(cfg, db, op.finish, op.reply, op.now);
      FinishTerminates(cfg, db, op.finish, op.reply, op.now);
      FinishCases(cfg, db, op.finish, op.reply, op.now);
    } else if !op.OpReset? {
      OtherStepsKeepSessions(cfg, db, op);
    }
  }

  // ---- Replies ----

  /** The dispatch engine always finishes with a reply. */
  ghost predicate EngineDriven(ops: seq<Op>) {
    forall n :: 0 <= n < |ops| && ops[n].OpFinish? ==> ops[n].reply.Some?
  }

  /** Every terminal Run has a delivery. */
  ghost predicate Replied(runs: map<Str, Run>, deliveries: map<Str, Delivery>) {
    forall r :: r in runs && !Live(runs[r]) ==> HasDelivery(deliveries, r)
  }

  lemma EvictKeepsReplied(cfg: Config, db: DB, c: Str, now: int)
    requires DeliveriesLinked(db.runs, db.deliveries) && Replied(db.runs, db.deliveries)
    ensures Replied(Evict(cfg, db, c, now).runs, Evict(cfg, db, c, now).deliveries)
  {
    var after := Evict(cfg, db, c, now);
    EvictShrinks(cfg, db, c, now);
    EvictionIsTogether(cfg, db, c, now);
    forall r | r in after.runs && !Live(after.runs[r]) ensures HasDelivery(after.deliveries, r) {
      var d :| d in db.deliveries && db.deliveries[d].runId == r;
      assert d in after.deliveries;
    }
  }

  lemma RedeliverKeepsReplied(runs: map<Str, Run>, deliveries: map<Str, Delivery>, after: map<Str, Delivery>)
    requires Replied(runs, deliveries) && Redelivers(deliveries, after)
    ensures Replied(runs, after)
  {
    forall r | r in runs && !Live(runs[r]) ensures HasDelivery(after, r) {
      var d :| d in deliveries && deliveries[d].runId == r;
      assert after[d].runId == r;
    }
  }

  lemma InsertKeepsReplied(cfg: Config, db: DB, run: Str, reply: DeliveryInput, now: int)
    requires run in db.runs && DeliveriesLinked(db.runs, db.deliveries) && InsertDelivery(cfg, db, run, reply, now).result.Done?
    requires forall r :: r in db.runs && !Live(db.runs[r]) && r != run ==> HasDelivery(db.deliveries, r)
    ensures Replied(db.runs, InsertDelivery(cfg, db, run, reply, now).db.deliveries)
  {
    var after := InsertDelivery(cfg, db, run, reply, now).db;
    forall r | r in db.runs && !Live(db.runs[r]) ensures HasDelivery(after.deliveries, r) {
      if r == run {
        if after.deliveries != db.deliveries { assert after.deliveries[reply.id].runId == run; }
      } else {
        var d :| d in db.deliveries && db.deliveries[d].runId == r;
        assert d in after.deliveries && after.deliveries[d] == db.deliveries[d];
      }
    }
  }

  lemma FinishKeepsReplied(cfg: Config, db: DB, i: FinishInput, reply: Option<DeliveryInput>, now: int)
    requires DeliveriesLinked(db.runs, db.deliveries) && Replied(db.runs, db.deliveries) && reply.Some?
    ensures var after := Finish(cfg, db, i, reply, now).db; Replied(after.runs, after.deliveries)
  {
    if Finish(cfg, db, i, reply, now).result.Done? {
      var run := db.runs[i.runId];
      var finished := if Terminal(run.state) then db else CommitTerminal(db, run, i, now);
      InsertKeepsReplied(cfg, finished, i.runId, reply.value, now);
    }
  }

  lemma ApplyKeepsReplied(cfg: Config, db: DB, op: Op)
    requires Inv(cfg, db) && Replied(db.runs, db.deliveries) && (op.OpFinish? ==> op.reply.Some?)
    ensures Replied(Apply(cfg, db, op).runs, Apply(cfg, db, op).deliveries)
  {
    match op
    case OpIngest(i, env) =>
      IngestCases(cfg, db, i, env);
      EvictKeepsReplied(cfg, db, i.connector, env.now);
    case OpFinish(i, reply, now) => FinishKeepsReplied(cfg, db, i, reply, now);
    case OpLease(c, limit, lease, tokens, now) =>
      LeaseRedelivers(db, c, limit, lease, tokens, now, Lease(db, c, limit, lease, tokens, now));
      RedeliverKeepsReplied(db.runs, db.deliveries, Lease(db, c, limit, lease, tokens, now).db.deliveries);
    case OpComplete(i, now) =>
      CompletePersists(cfg, db, i, now);
      CompleteKeepsInv(cfg, db, i, now);
      RedeliverKeepsReplied(db.runs, db.deliveries, Complete(cfg, db, i, now).db.deliveries);
    case _ => StartStepsKeepReplied(cfg, db, op);
  }

  lemma StartStepsKeepDeliveries(cfg: Config, db: DB, op: Op)
    requires op.OpClaim? || op.OpPrepare? || op.OpMark? || op.OpReset?
    ensures Apply(cfg, db, op).deliveries == db.deliveries
  {
    if op.OpClaim? { ClaimPersists(db, op.leaseNs, op.token, op.now); }
  }

  /** Claiming, preparing, marking and resetting neither finish a Run nor touch a delivery. */
  lemma StartStepsKeepReplied(cfg: Config, db: DB, op: Op)
    requires Inv(cfg, db) && Replied(db.runs, db.deliveries) && (op.OpClaim? || op.OpPrepare? || op.OpMark? || op.OpReset?)
    ensures Replied(Apply(cfg, db, op).runs, Apply(cfg, db, op).deliveries)
  {
    OnlyIngestAdmits(cfg, db, op);
    StartStepsKeepDeliveries(cfg, db, op);
    forall r | r in Apply(cfg, db, op).runs && !Live(Apply(cfg, db, op).runs[r]) ensures !Live(db.runs[r]) {
      OtherStepsKeepRunsLive(cfg, db, op, r);
    }
  }

  /** No reply is lost: in every engine-driven run each terminal Run has exactly one delivery. */
  lemma {:induction false} EveryTerminalRunHasOneReply(cfg: Config, ops: seq<Op>)
    requires ValidConfig(cfg) && EngineDriven(ops)
    ensures var db := After(cfg, ops);
      Replied(db.runs, db.deliveries) && DeliveriesLinked(db.runs, db.deliveries)
    decreases |ops|
  {
    EveryRunIsSound(cfg, ops);
    if |ops| > 0 {
      var before := ops[..|ops| - 1];
      EveryTerminalRunHasOneReply(cfg, before);
      EveryRunIsSound(cfg, before);
      assert ops[|ops| - 1].OpFinish? ==> ops[|ops| - 1].reply.Some?;
      ApplyKeepsReplied(cfg, After(cfg, before), ops[|ops| - 1]);
    }
  }

  /** The commit that terminates a Run is the commit that creates its pending delivery. */
  lemma ReplyIsCommittedWithTheRun(cfg: Config, ops: seq<Op>, op: Op, id: Str)
    requires ValidConfig(cfg) && Terminates(cfg, After(cfg, ops), op, id) && op.OpFinish? && op.reply.Some?
    ensures var db, after, reply := After(cfg, ops), Apply(cfg, After(cfg, ops), op), op.reply.value;
      && !HasDelivery(db.deliveries, id) && reply.id !in db.deliveries
      && after.deliveries == db.deliveries[reply.id := NewDelivery(id, reply.text, op.now)]
  {
    EveryRunIsSound(cfg, ops);
    OnlyFinishTerminates(cfg, After(cfg, ops), op, id);
    var db := After(cfg, ops);
    assert forall d :: d in db.deliveries ==> db.deliveries[d].runId != id;
  }
}
