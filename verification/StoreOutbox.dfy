/** Delivery leases over whole runs, and the retry schedule. */
module StoreOutbox {
  import opened GoTypes
  import opened StoreTypes
  import opened StoreSteps
  import opened StoreInvariant
  import opened StoreHistory
  import opened StoreReplies

  // ---- The latest claim of a delivery ----

  /** What one claim hands out for one delivery. */
  datatype Grant = Grant(token: Str, expires: int)

  /** The grant a claim made for delivery d, told from the batch it returned and the tokens drawn for it. */
  ghost function GrantIn(result: LeaseResult, tokens: seq<Str>, expires: int, d: Str): Option<Grant> {
    if result.LeasedBatch? && exists i :: 0 <= i < |result.ids| && i < |tokens| && result.ids[i] == d then
      var i :| 0 <= i < |result.ids| && i < |tokens| && result.ids[i] == d;
      Some(Grant(tokens[i], expires))
    else None
  }

  ghost function GrantOf(db: DB, op: Op, d: Str): Option<Grant> {
    if op.OpLease? then
      GrantIn(Lease(db, op.connector, op.limit, op.leaseNs, op.tokens, op.now).result, op.tokens,
              LeaseEnd(op.now, op.leaseNs), d)
    else None
  }

  /** The grant of the latest claim that returned delivery d, if any ever did. */
  ghost function LatestGrant(cfg: Config, ops: seq<Op>, d: Str): Option<Grant>
    decreases |ops|
  {
    if |ops| == 0 then None
    else
      var now := GrantOf(After(cfg, ops[..|ops| - 1]), ops[|ops| - 1], d);
      if now.Some? then now else LatestGrant(cfg, ops[..|ops| - 1], d)
  }

  /** A row that carries a lease token carries the latest one granted, and a leased row its expiry too. */
  ghost predicate Matches(d: Delivery, grant: Option<Grant>) {
    && (d.leaseToken != [] ==> grant.Some? && grant.value.token == d.leaseToken)
    && (d.state == Leased ==> grant.Some? && d.leaseExpires == Some(grant.value.expires))
  }

  /** After a claim, row d carries what the claim granted it, or else what it carried before. */
  ghost predicate RowMatches(step: LeaseStep, tokens: seq<Str>, expires: int, d: Str, grant: Option<Grant>) {
    var given := GrantIn(step.result, tokens, expires, d);
    d in step.db.deliveries ==> Matches(step.db.deliveries[d], if given.Some? then given else grant)
  }

  lemma LeaseRowMatches(db: DB, released: map<Str, Delivery>, c: Str, tokens: seq<Str>, expires: int, now: int, step: LeaseStep,
                        d: Str, grant: Option<Grant>)
    requires LeasesOrRefuses(db, released, c, tokens, expires, now, step) && released.Keys == db.deliveries.Keys
    requires d in db.deliveries ==> Matches(db.deliveries[d], grant) && Matches(released[d], grant)
    ensures RowMatches(step, tokens, expires, d, grant)
  {
    if step.result.LeasedBatch? {
      LeaseAllRows(released, step.result.ids, tokens, expires, now);
      if d in step.result.ids { var i :| 0 <= i < |step.result.ids| && step.result.ids[i] == d; }
    }
  }

  lemma ReleaseMatches(db: DB, c: Str, now: int, d: Str, grant: Option<Grant>)
    requires d in db.deliveries ==> Matches(db.deliveries[d], grant)
    ensures ReleaseLeases(db, c, now).Keys == db.deliveries.Keys
    ensures d in db.deliveries ==> Matches(ReleaseLeases(db, c, now)[d], grant)
  {
  }

  lemma LeaseMatches(db: DB, released: map<Str, Delivery>, c: Str, tokens: seq<Str>, expires: int, now: int, step: LeaseStep,
                     d: Str, grant: Option<Grant>)
    requires d in db.deliveries ==> Matches(db.deliveries[d], grant)
    requires released == ReleaseLeases(db, c, now) && LeasesOrRefuses(db, released, c, tokens, expires, now, step)
    ensures RowMatches(step, tokens, expires, d, grant)
  {
    ReleaseMatches(db, c, now, d, grant);
    LeaseRowMatches(db, released, c, tokens, expires, now, step, d, grant);
  }

  /** Rows stay as they were; a new row is pending and was never leased. */
  ghost predicate KeepsOrAdds(deliveries: map<Str, Delivery>, after: map<Str, Delivery>) {
    forall d :: d in after ==>
      (d in deliveries && after[d] == deliveries[d]) || (after[d].state == Pending && after[d].leaseToken == [])
  }

  lemma InsertAdds(cfg: Config, db: DB, run: Str, reply: DeliveryInput, now: int)
    requires run in db.runs
    ensures var after := InsertDelivery(cfg, db, run, reply, now).db.deliveries;
      KeepsOrAdds(db.deliveries, after)
      && forall d :: d in db.deliveries && db.deliveries[d].runId in db.runs ==> d in after && after[d] == db.deliveries[d]
  {
  }

  lemma FinishAdds(cfg: Config, db: DB, i: FinishInput, reply: Option<DeliveryInput>, now: int)
    ensures var after := Finish(cfg, db, i, reply, now).db.deliveries;
      KeepsOrAdds(db.deliveries, after)
      && forall d :: d in db.deliveries && db.deliveries[d].runId in db.runs ==> d in after && after[d] == db.deliveries[d]
  {
    if Finish(cfg, db, i, reply, now).result.Done? && reply.Some? {
      var run := db.runs[i.runId];
      InsertAdds(cfg, if Terminal(run.state) then db else CommitTerminal(db, run, i, now), i.runId, reply.value, now);
    }
  }

  /** A step other than a claim or a completion leaves leases alone. */
  lemma OtherStepsKeepOrAdd(cfg: Config, db: DB, op: Op)
    requires !op.OpLease? && !op.OpComplete?
    ensures KeepsOrAdds(db.deliveries, Apply(cfg, db, op).deliveries)
  {
    match op
    case OpIngest(i, env) => IngestCases(cfg, db, i, env); EvictShrinks(cfg, db, i.connector, env.now);
    case OpFinish(i, reply, now) => FinishAdds(cfg, db, i, reply, now);
    case _ => StartStepsKeepDeliveries(cfg, db, op);
  }

  lemma CompleteMatches(cfg: Config, db: DB, i: CompleteInput, now: int, d: Str, grant: Option<Grant>)
    requires d in Complete(cfg, db, i, now).db.deliveries && (d in db.deliveries ==> Matches(db.deliveries[d], grant))
    ensures Matches(Complete(cfg, db, i, now).db.deliveries[d], grant)
  {
    CompleteCases(cfg, db, i, now);
  }

  lemma RowMatchesMeans(step: LeaseStep, tokens: seq<Str>, expires: int, d: Str, grant: Option<Grant>, now: Option<Grant>)
    requires RowMatches(step, tokens, expires, d, grant) && d in step.db.deliveries && now == GrantIn(step.result, tokens, expires, d)
    ensures Matches(step.db.deliveries[d], if now.Some? then now else grant)
  {
  }

  lemma ClaimMatches(db: DB, released: map<Str, Delivery>, c: Str, tokens: seq<Str>, expires: int, now: int, step: LeaseStep,
                     d: Str, grant: Option<Grant>, given: Option<Grant>)
    requires released == ReleaseLeases(db, c, now) && LeasesOrRefuses(db, released, c, tokens, expires, now, step)
    requires d in step.db.deliveries && (d in db.deliveries ==> Matches(db.deliveries[d], grant)) && given == GrantIn(step.result, tokens, expires, d)
    ensures Matches(step.db.deliveries[d], if given.Some? then given else grant)
  {
    LeaseMatches(db, released, c, tokens, expires, now, step, d, grant);
    RowMatchesMeans(step, tokens, expires, d, grant, given);
  }

  lemma LeaseOpMatches(db: DB, c: Str, limit: int, leaseNs: int, tokens: seq<Str>, now: int, expires: int, step: LeaseStep,
                       d: Str, grant: Option<Grant>, given: Option<Grant>)
    requires step == Lease(db, c, limit, leaseNs, tokens, now) && expires == LeaseEnd(now, leaseNs)
    requires d in step.db.deliveries && (d in db.deliveries ==> Matches(db.deliveries[d], grant)) && given == GrantIn(step.result, tokens, expires, d)
    ensures Matches(step.db.deliveries[d], if given.Some? then given else grant)
  {
    LeaseCases(db, c, limit, leaseNs, tokens, now, expires, step);
    ClaimMatches(db, ReleaseLeases(db, c, now), c, tokens, expires, now, step, d, grant, given);
  }

  lemma ApplyMatches(cfg: Config, db: DB, op: Op, d: Str, grant: Option<Grant>)
    requires d in Apply(cfg, db, op).deliveries && (d in db.deliveries ==> Matches(db.deliveries[d], grant))
    ensures var now := GrantOf(db, op, d); Matches(Apply(cfg, db, op).deliveries[d], if now.Some? then now else grant)
  {
    if op.OpLease? {
      LeaseOpMatches(db, op.connector, op.limit, op.leaseNs, op.tokens, op.now, LeaseEnd(op.now, op.leaseNs),
                     Lease(db, op.connector, op.limit, op.leaseNs, op.tokens, op.now), d, grant, GrantOf(db, op, d));
    }
    else if op.OpComplete? { CompleteMatches(cfg, db, op.complete, op.now, d, grant); }
    else { OtherStepsKeepOrAdd(cfg, db, op); }
  }

  lemma {:induction false} EveryLeaseIsTheLatest(cfg: Config, ops: seq<Op>, d: Str)
    requires d in After(cfg, ops).deliveries
    ensures Matches(After(cfg, ops).deliveries[d], LatestGrant(cfg, ops, d))
    decreases |ops|
  {
    var before, op := ops[..|ops| - 1], ops[|ops| - 1];
    if d in After(cfg, before).deliveries { EveryLeaseIsTheLatest(cfg, before, d); }
    ApplyMatches(cfg, After(cfg, before), op, d, LatestGrant(cfg, before, d));
  }

  /**
   In every run, a completion changes the store only under the token of the latest claim of that delivery
   and strictly before that claim's lease expires, and then it changes that one row only.
   */
  lemma CompletionNeedsTheLatestLease(cfg: Config, ops: seq<Op>, i: CompleteInput, now: int)
    requires Complete(cfg, After(cfg, ops), i, now).db != After(cfg, ops)
    ensures var db, after := After(cfg, ops), Complete(cfg, After(cfg, ops), i, now).db;
      && i.deliveryId in db.deliveries && db.deliveries[i.deliveryId].state == Leased
      && LatestGrant(cfg, ops, i.deliveryId).Some? && LatestGrant(cfg, ops, i.deliveryId).value.token == i.token
      && now < LatestGrant(cfg, ops, i.deliveryId).value.expires
      && after == db.(deliveries := db.deliveries[i.deliveryId := CompletedDelivery(cfg, db.deliveries[i.deliveryId], i, now)])
  {
    CompleteCases(cfg, After(cfg, ops), i, now);
    EveryLeaseIsTheLatest(cfg, ops, i.deliveryId);
  }

  /** The converse: a well-formed completion by the holder of the latest, unexpired lease always takes effect. */
  lemma TheLatestLeaseCompletes(cfg: Config, ops: seq<Op>, i: CompleteInput, now: int, grant: Grant)
    requires ValidConfig(cfg) && now > 0 && ValidCompletion(i) && OwnedBy(After(cfg, ops), i.deliveryId, i.connector)
    requires After(cfg, ops).deliveries[i.deliveryId].state == Leased
    requires LatestGrant(cfg, ops, i.deliveryId) == Some(grant) && i.token == grant.token && now < grant.expires
    requires i.outcome.OutcomeRetry? ==> RetryAt(cfg, After(cfg, ops).deliveries[i.deliveryId].attempts, now) > now
    ensures Complete(cfg, After(cfg, ops), i, now).result.Done?
    ensures i.deliveryId in Complete(cfg, After(cfg, ops), i, now).db.deliveries
    ensures Complete(cfg, After(cfg, ops), i, now).db.deliveries[i.deliveryId]
            == CompletedDelivery(cfg, After(cfg, ops).deliveries[i.deliveryId], i, now)
  {
    EveryLeaseIsTheLatest(cfg, ops, i.deliveryId);
    EveryRunIsSound(cfg, ops);
  }

  // ---- Resolved deliveries ----

  /** The row of a resolved delivery after a step: as it was, or gone with its Run in an eviction. */
  ghost predicate StaysOrGoes(cfg: Config, db: DB, op: Op, d: Str, after: DB)
    requires d in db.deliveries
  {
    if d in after.deliveries then after.deliveries[d] == db.deliveries[d]
    else op.OpIngest? && db.deliveries[d].runId !in Evict(cfg, db, op.ingest.connector, op.env.now).runs
  }

  /** A resolved delivery never changes; compaction may remove it, and then its Run goes with it. */
  lemma ResolvedDeliveriesNeverChange(cfg: Config, ops: seq<Op>, op: Op, d: Str)
    requires ValidConfig(cfg) && d in After(cfg, ops).deliveries && Resolved(After(cfg, ops).deliveries[d])
    ensures StaysOrGoes(cfg, After(cfg, ops), op, d, Apply(cfg, After(cfg, ops), op))
  {
    EveryRunIsSound(cfg, ops);
    ResolvedRowStays(cfg, After(cfg, ops), op, d, Apply(cfg, After(cfg, ops), op));
  }

  lemma FinishKeepsRows(cfg: Config, db: DB, i: FinishInput, reply: Option<DeliveryInput>, now: int, d: Str, after: DB)
    requires after == Finish(cfg, db, i, reply, now).db && d in db.deliveries && db.deliveries[d].runId in db.runs
    ensures d in after.deliveries && after.deliveries[d] == db.deliveries[d]
  {
    FinishAdds(cfg, db, i, reply, now);
  }

  lemma LeaseKeepsResolved(db: DB, c: Str, limit: int, leaseNs: int, tokens: seq<Str>, now: int, d: Str, step: LeaseStep)
    requires DeliveryShapes(db.deliveries) && step == Lease(db, c, limit, leaseNs, tokens, now)
    requires d in db.deliveries && Resolved(db.deliveries[d])
    ensures d in step.db.deliveries && step.db.deliveries[d] == db.deliveries[d]
  {
    LeaseRedelivers(db, c, limit, leaseNs, tokens, now, step);
  }

  lemma CompleteKeepsResolved(cfg: Config, db: DB, i: CompleteInput, now: int, d: Str, after: DB)
    requires after == Complete(cfg, db, i, now).db && d in db.deliveries && Resolved(db.deliveries[d])
    ensures d in after.deliveries && after.deliveries[d] == db.deliveries[d]
  {
    CompleteCases(cfg, db, i, now);
  }

  lemma ResolvedRowStays(cfg: Config, db: DB, op: Op, d: Str, after: DB)
    requires LinksInv(db) && d in db.deliveries && Resolved(db.deliveries[d]) && after == Apply(cfg, db, op)
    ensures StaysOrGoes(cfg, db, op, d, after)
  {
    match op
    case OpIngest(i, env) => ResolvedAcrossIngest(cfg, db, i, env, d);
    case OpFinish(i, reply, now) => FinishKeepsRows(cfg, db, i, reply, now, d, after);
    case OpLease(c, limit, lease, tokens, now) =>
      LeaseKeepsResolved(db, c, limit, lease, tokens, now, d, Lease(db, c, limit, lease, tokens, now));
    case OpComplete(i, now) => CompleteKeepsResolved(cfg, db, i, now, d, after);
    case _ => StartStepsKeepDeliveries(cfg, db, op);
  }

  lemma ResolvedAcrossIngest(cfg: Config, db: DB, i: IngestInput, env: IngestEnv, d: Str)
    requires DeliveriesLinked(db.runs, db.deliveries) && d in db.deliveries
    ensures var after := Ingest(cfg, db, i, env).db;
      if d in after.deliveries then after.deliveries[d] == db.deliveries[d]
      else db.deliveries[d].runId !in Evict(cfg, db, i.connector, env.now).runs
  {
    IngestCases(cfg, db, i, env);
    EvictShrinks(cfg, db, i.connector, env.now);
    EvictionIsTogether(cfg, db, i.connector, env.now);
  }

  // ---- Repeated completions ----

  /** Repeating a completion at once is accepted and changes nothing. */
  lemma CompletionRepeats(cfg: Config, db: DB, i: CompleteInput, now: int, again: int)
    requires Complete(cfg, db, i, now).result.Done? && again > 0
    ensures Complete(cfg, Complete(cfg, db, i, now).db, i, again) == UnitStep(Complete(cfg, db, i, now).db, Done)
    ensures i.deliveryId in Complete(cfg, db, i, now).db.deliveries && Complete(cfg, db, i, now).db.deliveries[i.deliveryId].state != Leased
  {
  }

  /** The step grants delivery d a lease under this token. */
  ghost predicate Grants(db: DB, op: Op, d: Str, token: Str) { GrantOf(db, op, d).Some? && GrantOf(db, op, d).value.token == token }

  ghost predicate Leases(db: DB, d: Str) { d in db.deliveries && db.deliveries[d].state == Leased }

  lemma UngrantedRowStays(db: DB, released: map<Str, Delivery>, c: Str, tokens: seq<Str>, expires: int, now: int, step: LeaseStep, d: Str)
    requires LeasesOrRefuses(db, released, c, tokens, expires, now, step) && released == ReleaseLeases(db, c, now)
    requires GrantIn(step.result, tokens, expires, d).None? && Leases(step.db, d)
    ensures Leases(db, d)
  {
    if step.result.LeasedBatch? {
      LeaseAllRows(released, step.result.ids, tokens, expires, now);
      assert forall i :: 0 <= i < |step.result.ids| ==> step.result.ids[i] != d;
    }
  }

  lemma LeaseStepGrants(db: DB, c: Str, limit: int, leaseNs: int, tokens: seq<Str>, now: int, step: LeaseStep, d: Str)
    requires step == Lease(db, c, limit, leaseNs, tokens, now) && Leases(step.db, d)
    requires GrantIn(step.result, tokens, LeaseEnd(now, leaseNs), d).None?
    ensures Leases(db, d)
  {
    LeaseCases(db, c, limit, leaseNs, tokens, now, LeaseEnd(now, leaseNs), step);
    UngrantedRowStays(db, ReleaseLeases(db, c, now), c, tokens, LeaseEnd(now, leaseNs), now, step, d);
  }

  /** A row becomes leased only by a grant. */
  lemma LeasedByGrantOnly(cfg: Config, db: DB, op: Op, d: Str)
    requires Leases(Apply(cfg, db, op), d) && GrantOf(db, op, d).None?
    ensures Leases(db, d)
  {
    if op.OpLease? {
      LeaseStepGrants(db, op.connector, op.limit, op.leaseNs, op.tokens, op.now,
                      Lease(db, op.connector, op.limit, op.leaseNs, op.tokens, op.now), d);
    } else if op.OpComplete? {
      CompleteCases(cfg, db, op.complete, op.now);
    } else {
      OtherStepsKeepOrAdd(cfg, db, op);
    }
  }

  /** One of the later steps granted delivery d a lease under this token. */
  ghost predicate GrantedAgain(cfg: Config, ops: seq<Op>, more: seq<Op>, d: Str, token: Str) {
    exists n :: 0 <= n < |more| && Grants(After(cfg, ops + more[..n]), more[n], d, token)
  }

  lemma LatestGrantAfter(cfg: Config, ops: seq<Op>, op: Op, all: seq<Op>, d: Str)
    requires all == ops + [op] && Leases(After(cfg, all), d)
    ensures var now := GrantOf(After(cfg, ops), op, d);
      if now.Some? then LatestGrant(cfg, all, d) == now else LatestGrant(cfg, all, d) == LatestGrant(cfg, ops, d) && Leases(After(cfg, ops), d)
  {
    var db, now := After(cfg, ops), GrantOf(After(cfg, ops), op, d);
    AfterOneMore(cfg, ops, op, all);
    assert LatestGrant(cfg, all, d) == if now.Some? then now else LatestGrant(cfg, ops, d) by { assert all[..|all| - 1] == ops; }
    if now.None? { LeasedByGrantOnly(cfg, db, op, d); }
  }

  lemma GrantedBefore(cfg: Config, ops: seq<Op>, more: seq<Op>, op: Op, d: Str, token: Str)
    requires GrantedAgain(cfg, ops, more, d, token) || Grants(After(cfg, ops + more), op, d, token)
    ensures GrantedAgain(cfg, ops, more + [op], d, token)
  {
    var longer := more + [op];
    if Grants(After(cfg, ops + more), op, d, token) {
      assert longer[..|more|] == more;
      assert Grants(After(cfg, ops + longer[..|more|]), longer[|more|], d, token);
    } else {
      var n :| 0 <= n < |more| && Grants(After(cfg, ops + more[..n]), more[n], d, token);
      assert longer[..n] == more[..n] && longer[n] == more[n];
    }
  }

  /** If the row is leased after the later steps, one of them granted it its latest lease. */
  ghost predicate LeasedAnew(cfg: Config, ops: seq<Op>, more: seq<Op>, all: seq<Op>, d: Str) {
    Leases(After(cfg, all), d) ==>
      LatestGrant(cfg, all, d).Some? && GrantedAgain(cfg, ops, more, d, LatestGrant(cfg, all, d).value.token)
  }

  lemma LeasedAnewGoesOn(cfg: Config, ops: seq<Op>, more: seq<Op>, op: Op, sofar: seq<Op>, all: seq<Op>, d: Str)
    requires sofar == ops + more && all == sofar + [op] && LeasedAnew(cfg, ops, more, sofar, d)
    ensures LeasedAnew(cfg, ops, more + [op], all, d)
  {
    if Leases(After(cfg, all), d) {
      LatestGrantAfter(cfg, sofar, op, all, d);
      GrantedBefore(cfg, ops, more, op, d, LatestGrant(cfg, all, d).value.token);
    }
  }

  /** A row not leased after some run and leased after a longer one was granted its latest lease in between. */
  lemma {:induction false} LeasedAgainMeansGranted(cfg: Config, ops: seq<Op>, more: seq<Op>, d: Str)
    requires !Leases(After(cfg, ops), d)
    ensures LeasedAnew(cfg, ops, more, ops + more, d)
    decreases |more|
  {
    if |more| == 0 {
      assert ops + more == ops;
    } else {
      var rest, op := more[..|more| - 1], more[|more| - 1];
      LeasedAgainMeansGranted(cfg, ops, rest, d);
      LeasedAnewGoesOn(cfg, ops, rest, op, ops + rest, ops + more, d);
      assert rest + [op] == more;
    }
  }

  /**
   Repeating a completion that was accepted changes nothing, whatever other transactions came in between and
   whatever the clock says, unless one of them was a claim that granted the same delivery the same token again.
   */
  lemma CompletionIsIdempotent(cfg: Config, ops: seq<Op>, i: CompleteInput, now: int, more: seq<Op>, again: int)
    requires Complete(cfg, After(cfg, ops), i, now).result.Done?
    requires var done := ops + [OpComplete(i, now)]; !GrantedAgain(cfg, done, more, i.deliveryId, i.token)
    ensures var db := After(cfg, ops + [OpComplete(i, now)] + more); Complete(cfg, db, i, again).db == db
  {
    var done := ops + [OpComplete(i, now)];
    assert done[..|done| - 1] == ops && done[|done| - 1] == OpComplete(i, now);
    CompletionRepeats(cfg, After(cfg, ops), i, now, 1);
    assert !Leases(After(cfg, done), i.deliveryId);
    if Complete(cfg, After(cfg, done + more), i, again).db != After(cfg, done + more) {
      CompletionNeedsTheLatestLease(cfg, done + more, i, again);
      LeasedAgainMeansGranted(cfg, done, more, i.deliveryId);
    }
  }

  /** The delivery's row was there after every one of the later steps. */
  ghost predicate Stays(cfg: Config, ops: seq<Op>, more: seq<Op>, d: Str) {
    forall n :: 0 <= n <= |more| ==> d in After(cfg, ops + more[..n]).deliveries
  }

  lemma StaysBefore(cfg: Config, ops: seq<Op>, more: seq<Op>, rest: seq<Op>, d: Str)
    requires Stays(cfg, ops, more, d) && |more| > 0 && rest == more[..|more| - 1]
    ensures Stays(cfg, ops, rest, d) && d in After(cfg, ops + more).deliveries
  {
    forall n | 0 <= n <= |rest| ensures d in After(cfg, ops + rest[..n]).deliveries { assert rest[..n] == more[..n]; }
    assert more[..|more|] == more;
  }

  lemma IngestKeepsOwner(cfg: Config, db: DB, i: IngestInput, env: IngestEnv, d: Str, c: Str, after: DB)
    requires LinksInv(db) && OwnedBy(db, d, c) && after == Ingest(cfg, db, i, env).db && d in after.deliveries
    ensures OwnedBy(after, d, c)
  {
    IngestCases(cfg, db, i, env);
    EvictShrinks(cfg, db, i.connector, env.now);
    EvictKeepsLinks(cfg, db, i.connector, env.now);
  }

  /** A kept delivery stays its connector's: its Run is kept too, and a Run's origin never changes. */
  lemma OwnedStays(cfg: Config, db: DB, op: Op, d: Str, c: Str, after: DB)
    requires LinksInv(db) && OwnedBy(db, d, c) && Resolved(db.deliveries[d]) && after == Apply(cfg, db, op) && d in after.deliveries
    ensures OwnedBy(after, d, c) && after.deliveries[d] == db.deliveries[d]
  {
    ResolvedRowStays(cfg, db, op, d, after);
    if op.OpIngest? { IngestKeepsOwner(cfg, db, op.ingest, op.env, d, c, after); } else { OnlyIngestAdmits(cfg, db, op); }
  }

  /** The delivery is the connector's, and its row is this one. */
  ghost predicate Holds(db: DB, d: Str, c: Str, row: Delivery) { OwnedBy(db, d, c) && db.deliveries[d] == row }

  lemma HeldOnce(cfg: Config, db: DB, op: Op, d: Str, c: Str, row: Delivery, after: DB)
    requires Inv(cfg, db) && Holds(db, d, c, row) && Resolved(row) && after == Apply(cfg, db, op) && d in after.deliveries
    ensures Holds(after, d, c, row)
  {
    OwnedStays(cfg, db, op, d, c, after);
  }

  lemma {:induction false} HeldOn(cfg: Config, ops: seq<Op>, more: seq<Op>, d: Str, c: Str, row: Delivery)
    requires ValidConfig(cfg) && Stays(cfg, ops, more, d) && Holds(After(cfg, ops), d, c, row) && Resolved(row)
    ensures Holds(After(cfg, ops + more), d, c, row)
    decreases |more|
  {
    if |more| == 0 {
      assert ops + more == ops;
    } else {
      var rest, op := more[..|more| - 1], more[|more| - 1];
      StaysBefore(cfg, ops, more, rest, d);
      HeldOn(cfg, ops, rest, d, c, row);
      EveryRunIsSound(cfg, ops + rest);
      AfterOneMore(cfg, ops + rest, op, ops + more);
      HeldOnce(cfg, After(cfg, ops + rest), op, d, c, row, After(cfg, ops + more));
    }
  }

  /** And repeating a completion that resolved the delivery is accepted for as long as the delivery is kept. */
  lemma ResolvedCompletionRepeats(cfg: Config, ops: seq<Op>, i: CompleteInput, now: int, more: seq<Op>, again: int)
    requires ValidConfig(cfg) && Complete(cfg, After(cfg, ops), i, now).result.Done? && !i.outcome.OutcomeRetry? && again > 0
    requires Stays(cfg, ops + [OpComplete(i, now)], more, i.deliveryId)
    ensures var db := After(cfg, ops + [OpComplete(i, now)] + more); Complete(cfg, db, i, again) == UnitStep(db, Done)
  {
    var done := ops + [OpComplete(i, now)];
    assert done[..|done| - 1] == ops && done[|done| - 1] == OpComplete(i, now);
    CompletionRepeats(cfg, After(cfg, ops), i, now, again);
    CompletionResolves(cfg, After(cfg, ops), i, now);
    HeldOn(cfg, done, more, i.deliveryId, i.connector, After(cfg, done).deliveries[i.deliveryId]);
  }

  lemma CompletionResolves(cfg: Config, db: DB, i: CompleteInput, now: int)
    requires Complete(cfg, db, i, now).result.Done? && !i.outcome.OutcomeRetry?
    ensures var after := Complete(cfg, db, i, now).db; OwnedBy(after, i.deliveryId, i.connector) && Resolved(after.deliveries[i.deliveryId])
  {
  }

  // ---- Retry schedule ----

  function Pow2(n: nat): (p: nat)
    ensures p >= 1
  {
    if n == 0 then 1 else 2 * Pow2(n - 1)
  }

  function Min(a: int, b: int): int { if a < b then a else b }

  lemma DoublingStep(delay: int, n: nat)
    requires n > 0 && delay >= 1
    ensures delay * Pow2(n) == (delay * 2) * Pow2(n - 1) >= delay * 2
  {
    assert delay * (2 * Pow2(n - 1)) == (delay * 2) * Pow2(n - 1);
  }

  /** The doubling loop, stopped early, computes the capped power of two. */
  lemma {:induction false} BackoffIsCappedDoubling(delay: int, current: int, attempt: int)
    requires delay >= 1 && current <= attempt
    ensures BackoffLoop(delay, current, attempt) == Min(delay * Pow2(attempt - current), MAX_RETRY_NS)
    decreases attempt - current
  {
    if current < attempt {
      DoublingStep(delay, attempt - current);
      if delay <= MAX_RETRY_NS / 2 { BackoffIsCappedDoubling(delay * 2, current + 1, attempt); }
    }
  }

  /** The delay before attempt n + 1, in milliseconds: min(base * 2^(n-1), one hour). */
  function RetryDelay(cfg: Config, attempts: nat): int
    requires attempts > 0
  {
    Min(cfg.retryDelay * Pow2(attempts - 1), MAX_RETRY_NS) / NS_PER_MS
  }

  lemma RetryDelayIsPositive(cfg: Config, attempts: nat)
    requires ValidConfig(cfg) && attempts > 0
    ensures 1000 <= RetryDelay(cfg, attempts) <= 3_600_000
  {
    assert cfg.retryDelay * Pow2(attempts - 1) >= cfg.retryDelay;
  }

  lemma RetryAtIsExact(cfg: Config, attempts: nat, now: int)
    requires ValidConfig(cfg) && attempts > 0 && 0 < now <= MAX_INT64
    ensures var at := now + RetryDelay(cfg, attempts);
      if at <= MAX_INT64 then RetryAt(cfg, attempts, now) == at > now else RetryAt(cfg, attempts, now) <= now
  {
    BackoffIsCappedDoubling(cfg.retryDelay, 1, attempts);
    RetryDelayIsPositive(cfg, attempts);
  }

  /** The completion presents the current, unexpired lease. */
  ghost predicate HoldsLease(db: DB, i: CompleteInput, now: int) {
    && ValidCompletion(i) && OwnedBy(db, i.deliveryId, i.connector) && db.deliveries[i.deliveryId].attempts > 0
    && db.deliveries[i.deliveryId].state == Leased && db.deliveries[i.deliveryId].leaseToken == i.token
    && db.deliveries[i.deliveryId].leaseExpires.Some? && db.deliveries[i.deliveryId].leaseExpires.value > now
  }

  /**
   A retry completion of a leased delivery makes it claimable exactly from now plus the capped doubled
   delay on; it is refused, changing nothing, exactly when that instant does not fit an int64 timestamp.
   */
  lemma RetryBecomesClaimable(cfg: Config, db: DB, i: CompleteInput, now: int, later: int)
    requires ValidConfig(cfg) && 0 < now <= MAX_INT64 && i.outcome.OutcomeRetry? && HoldsLease(db, i, now)
    ensures var at, step := now + RetryDelay(cfg, db.deliveries[i.deliveryId].attempts), Complete(cfg, db, i, now);
      if at <= MAX_INT64 then
        step.result.Done? && i.deliveryId in step.db.deliveries && step.db.deliveries[i.deliveryId].availableAt == at
        && (Claimable(step.db, i.deliveryId, i.connector, later) <==> at <= later)
      else step == UnitStep(db, Refused(Invalid))
  {
    RetryAtIsExact(cfg, db.deliveries[i.deliveryId].attempts, now);
  }
}
