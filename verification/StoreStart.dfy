/** Every StartRun request ever offered for one Run ID is the same request. */
module StoreStart {
  import opened GoTypes
  import opened StoreTypes
  import opened StoreSteps
  import opened StoreInvariant
  import opened StoreHistory

  /** StartRunRequest. The scope digest is a fixed function of the six scope columns, so the scope stands for it. */
  datatype StartRequest = StartRequest(
    runId: Str, targetId: Str, expectedRevision: Str, scope: SessionKey, session: Option<Str>, input: Str, deadline: int)

  /** The request the dispatch engine builds from a claimed Run and the start that PrepareRunStart returned. */
  function BuildRequest(id: Str, run: Run, start: PreparedStart): StartRequest {
    StartRequest(id, run.origin.scope.targetId, run.origin.scope.targetRevision, run.origin.scope,
                 start.session, run.origin.input, start.deadline)
  }

  /** The requests a step makes available to be offered: one for each successful preparation. */
  ghost function OfferOf(db: DB, op: Op): seq<StartRequest> {
    if op.OpPrepare? && Prepare(db, op.prepare, op.now).result.Prepared? && op.prepare.runId in db.runs then
      [BuildRequest(op.prepare.runId, db.runs[op.prepare.runId], Prepare(db, op.prepare, op.now).result.start)]
    else []
  }

  /** Every request a whole run could ever have offered, in order, across workers, leases, clocks and restarts. */
  ghost function Offers(cfg: Config, ops: seq<Op>): seq<StartRequest>
    decreases |ops|
  {
    if |ops| == 0 then []
    else Offers(cfg, ops[..|ops| - 1]) + OfferOf(After(cfg, ops[..|ops| - 1]), ops[|ops| - 1])
  }

  /** The Run ID source never repeats a value it has given out. */
  ghost predicate FreshRunIds(cfg: Config, ops: seq<Op>) {
    forall m, n :: 0 <= m < n < |Admissions(cfg, ops)| ==> Admissions(cfg, ops)[m].runId != Admissions(cfg, ops)[n].runId
  }

  ghost predicate WasAdmitted(admissions: seq<Admission>, id: Str) {
    exists n :: 0 <= n < |admissions| && admissions[n].runId == id
  }

  /** Some admission made this row. */
  ghost predicate WasMade(admissions: seq<Admission>, id: Str, run: Run) {
    exists n :: 0 <= n < |admissions| && admissions[n].runId == id && MadeFrom(run, admissions[n])
  }

  /** An offered request is what the Run's row still says, or the Run is gone for good. */
  ghost predicate Stands(db: DB, request: StartRequest) {
    request.runId in db.runs ==>
      db.runs[request.runId].prepared
      && request == BuildRequest(request.runId, db.runs[request.runId], StartOf(db.runs[request.runId]))
  }

  /** A preparation that succeeds holds the dispatch, and reads or freezes the start of that one Run. */
  lemma PrepareCases(db: DB, i: PrepareInput, now: int, step: PrepareStep)
    requires step == Prepare(db, i, now)
    ensures match step.result
      case Prepared(start) =>
        && i.runId in db.runs && HoldsDispatch(db.runs[i.runId], i.token, now) && i.runId in step.db.runs
        && step.db.runs == db.runs[i.runId := step.db.runs[i.runId]]
        && step.db.runs[i.runId].prepared && StartOf(step.db.runs[i.runId]) == start
        && step.db.runs[i.runId] == (if db.runs[i.runId].prepared then db.runs[i.runId]
             else db.runs[i.runId].(prepared := true, startSession := i.session, startDeadline := i.deadline, updatedAt := now))
      case PrepareFailed(_) => step.db == db
  {
  }

  /** A row keeps its origin, or an admission has just made it. */
  lemma OriginsStay(cfg: Config, db: DB, op: Op, id: Str, after: DB)
    requires DeliveryShapes(db.deliveries) && after == Apply(cfg, db, op) && id in after.runs
    ensures (id in db.runs && after.runs[id].origin == db.runs[id].origin)
         || (|AdmissionOf(cfg, db, op)| == 1 && AdmissionOf(cfg, db, op)[0].runId == id && MadeFrom(after.runs[id], AdmissionOf(cfg, db, op)[0]))
  {
    if op.OpIngest? {
      IngestCases(cfg, db, op.ingest, op.env);
      EvictShrinks(cfg, db, op.ingest.connector, op.env.now);
    } else {
      OnlyIngestAdmits(cfg, db, op);
    }
  }

  lemma RowWasMade(before: seq<Admission>, more: seq<Admission>, id: Str, was: Run, run: Run)
    requires WasMade(before, id, was) && run.origin == was.origin
    ensures WasMade(before + more, id, run)
  {
    var n :| 0 <= n < |before| && before[n].runId == id && MadeFrom(was, before[n]);
    assert (before + more)[n] == before[n];
  }

  /** Every Run in the store has the columns of an event that was admitted under its ID. */
  lemma {:induction false} EveryRunWasAdmitted(cfg: Config, ops: seq<Op>, id: Str)
    requires ValidConfig(cfg) && id in After(cfg, ops).runs
    ensures WasMade(Admissions(cfg, ops), id, After(cfg, ops).runs[id])
    decreases |ops|
  {
    var before, op := ops[..|ops| - 1], ops[|ops| - 1];
    var db, sofar, more := After(cfg, before), Admissions(cfg, before), AdmissionOf(cfg, After(cfg, before), op);
    EveryRunIsSound(cfg, before);
    OriginsStay(cfg, db, op, id, After(cfg, ops));
    if |more| == 1 && more[0].runId == id && MadeFrom(After(cfg, ops).runs[id], more[0]) {
      assert Admissions(cfg, ops)[|sofar|] == more[0];
    } else {
      EveryRunWasAdmitted(cfg, before, id);
      RowWasMade(sofar, more, id, db.runs[id], After(cfg, ops).runs[id]);
    }
  }

  lemma NonIngestStands(cfg: Config, db: DB, op: Op, request: StartRequest)
    requires !op.OpIngest? && DeliveryShapes(db.deliveries) && Stands(db, request)
    ensures Stands(Apply(cfg, db, op), request)
  {
    OnlyIngestAdmits(cfg, db, op);
    if request.runId in db.runs { assert RunPersists(db.runs[request.runId], Apply(cfg, db, op).runs[request.runId]); }
  }

  lemma IngestStands(cfg: Config, db: DB, op: Op, request: StartRequest)
    requires op.OpIngest? && Stands(db, request)
    requires forall a :: AdmissionOf(cfg, db, op) == [a] ==> a.runId != request.runId
    ensures Stands(Apply(cfg, db, op), request)
  {
    IngestCases(cfg, db, op.ingest, op.env);
    EvictShrinks(cfg, db, op.ingest.connector, op.env.now);
    if Ingest(cfg, db, op.ingest, op.env).result.Created? {
      var a := AdmissionOf(cfg, db, op)[0];
      assert AdmissionOf(cfg, db, op) == [a];
    }
  }

  lemma FreshPrefix(cfg: Config, ops: seq<Op>)
    requires |ops| > 0 && FreshRunIds(cfg, ops)
    ensures FreshRunIds(cfg, ops[..|ops| - 1])
  {
    var before := ops[..|ops| - 1];
    assert forall n :: 0 <= n < |Admissions(cfg, before)| ==> Admissions(cfg, ops)[n] == Admissions(cfg, before)[n];
  }

  /** A new Run's ID differs from every earlier Run's. */
  lemma NewRunIdIsNew(cfg: Config, ops: seq<Op>, id: Str, a: Admission)
    requires |ops| > 0 && FreshRunIds(cfg, ops) && WasAdmitted(Admissions(cfg, ops[..|ops| - 1]), id)
    requires AdmissionOf(cfg, After(cfg, ops[..|ops| - 1]), ops[|ops| - 1]) == [a]
    ensures a.runId != id
  {
    var before := Admissions(cfg, ops[..|ops| - 1]);
    var m :| 0 <= m < |before| && before[m].runId == id;
    assert Admissions(cfg, ops)[m] == before[m] && Admissions(cfg, ops)[|before|] == a;
  }

  lemma {:induction false} EveryOfferStands(cfg: Config, ops: seq<Op>, n: nat)
    requires ValidConfig(cfg) && FreshRunIds(cfg, ops) && n < |Offers(cfg, ops)|
    ensures Stands(After(cfg, ops), Offers(cfg, ops)[n]) && WasAdmitted(Admissions(cfg, ops), Offers(cfg, ops)[n].runId)
    decreases |ops|
  {
    var before, op := ops[..|ops| - 1], ops[|ops| - 1];
    var db, request := After(cfg, before), Offers(cfg, ops)[n];
    EveryRunIsSound(cfg, before);
    if n < |Offers(cfg, before)| {
      FreshPrefix(cfg, ops);
      EveryOfferStands(cfg, before, n);
      var m :| 0 <= m < |Admissions(cfg, before)| && Admissions(cfg, before)[m].runId == request.runId;
      assert Admissions(cfg, ops)[m].runId == request.runId;
      if op.OpIngest? {
        forall a | AdmissionOf(cfg, db, op) == [a] ensures a.runId != request.runId { NewRunIdIsNew(cfg, ops, request.runId, a); }
        IngestStands(cfg, db, op, request);
      } else {
        NonIngestStands(cfg, db, op, request);
      }
    } else {
      EveryRunWasAdmitted(cfg, ops, request.runId);
    }
  }

  /** The request asks for what the event and its authorization say. */
  ghost predicate AsksFor(request: StartRequest, a: Admission) {
    && request.runId == a.runId && request.input == a.event.text
    && request.targetId == a.auth.targetId && request.expectedRevision == a.auth.targetRevision
    && request.scope.binding == a.auth.binding && request.scope.connector == a.event.connector
    && request.scope.actor == a.event.actor && request.scope.conversation == a.event.conversation
    && request.scope.targetId == a.auth.targetId && request.scope.targetRevision == a.auth.targetRevision
  }

  ghost predicate AskedFor(request: StartRequest, admissions: seq<Admission>) {
    exists m :: 0 <= m < |admissions| && AsksFor(request, admissions[m])
  }

  lemma {:induction false} AskedForStill(request: StartRequest, before: seq<Admission>, more: seq<Admission>)
    requires AskedFor(request, before)
    ensures AskedFor(request, before + more)
  {
    var m :| 0 <= m < |before| && AsksFor(request, before[m]);
    assert (before + more)[m] == before[m];
  }

  /** Every start ever offered asks for an admitted event's own input, for its own scope, of the target it was authorized for. */
  lemma {:induction false} OffersTellTheEvent(cfg: Config, ops: seq<Op>, n: nat)
    requires ValidConfig(cfg) && n < |Offers(cfg, ops)|
    ensures AskedFor(Offers(cfg, ops)[n], Admissions(cfg, ops))
    decreases |ops|
  {
    var before, op := ops[..|ops| - 1], ops[|ops| - 1];
    var request := Offers(cfg, ops)[n];
    if n < |Offers(cfg, before)| {
      OffersTellTheEvent(cfg, before, n);
    } else {
      EveryRunWasAdmitted(cfg, before, request.runId);
      var run := After(cfg, before).runs[request.runId];
      var m :| 0 <= m < |Admissions(cfg, before)| && Admissions(cfg, before)[m].runId == request.runId && MadeFrom(run, Admissions(cfg, before)[m]);
      assert AsksFor(request, Admissions(cfg, before)[m]);
    }
    AskedForStill(request, Admissions(cfg, before), AdmissionOf(cfg, After(cfg, before), op));
  }

  /** Two offers for one Run ID agree in every field. */
  lemma {:induction false} SameRequestEveryTime(cfg: Config, ops: seq<Op>, m: nat, n: nat)
    requires ValidConfig(cfg) && FreshRunIds(cfg, ops) && m < n < |Offers(cfg, ops)|
    requires Offers(cfg, ops)[m].runId == Offers(cfg, ops)[n].runId
    ensures Offers(cfg, ops)[m] == Offers(cfg, ops)[n]
    decreases |ops|
  {
    var before := ops[..|ops| - 1];
    FreshPrefix(cfg, ops);
    if n < |Offers(cfg, before)| {
      SameRequestEveryTime(cfg, before, m, n);
    } else {
      EveryOfferStands(cfg, before, m);
    }
  }
}
