/** The dispatch engine gets there: from any state it can be in, an undisturbed Run goes from the queue to its reply. */
module DispatchProgress {
  import opened GoTypes
  import opened StoreTypes
  import opened StoreSteps
  import opened StoreInvariant
  import opened StoreHistory
  import opened StoreStart
  import opened StoreChecked
  import opened OutboxVerdicts
  import opened StoreVerdicts
  import opened RunOutcome
  import opened Dispatch
  import opened DispatchAgreement
  import Exec = ExecutionWire
  import Bridge = RunnerBridge

  /** The steps may come one after the other from this state, and lead to that one. */
  ghost predicate Path(cfg: Config, s: System, more: seq<Step>, end: System)
    decreases |more|
  {
    if |more| == 0 then end == s else Allowed(s, more[0]) && Path(cfg, Do(cfg, s, more[0]), more[1..], end)
  }

  lemma StepThenPath(cfg: Config, s: System, step: Step, next: System, rest: seq<Step>, end: System)
    requires Allowed(s, step) && next == Do(cfg, s, step) && Path(cfg, next, rest, end)
    ensures Path(cfg, s, [step] + rest, end)
  {
    assert ([step] + rest)[1..] == rest;
  }

  lemma {:induction false} PathsJoin(cfg: Config, s: System, first: seq<Step>, mid: System, second: seq<Step>, end: System)
    requires Path(cfg, s, first, mid) && Path(cfg, mid, second, end)
    ensures Path(cfg, s, first + second, end)
    decreases |first|
  {
    if |first| == 0 { assert first + second == second; }
    else {
      PathsJoin(cfg, Do(cfg, s, first[0]), first[1..], mid, second, end);
      assert (first + second)[1..] == first[1..] + second;
    }
  }

  lemma OneStepMore(cfg: Config, steps: seq<Step>, step: Step, longer: seq<Step>)
    requires longer == steps + [step] && Possible(cfg, steps) && Allowed(Reached(cfg, steps), step)
    ensures Possible(cfg, longer) && Reached(cfg, longer) == Do(cfg, Reached(cfg, steps), step)
  {
    assert longer[..|longer| - 1] == steps;
  }

  /** A run of the system that such steps continue. */
  lemma {:induction false} PathIsPossible(cfg: Config, steps: seq<Step>, more: seq<Step>, end: System)
    requires Possible(cfg, steps) && Path(cfg, Reached(cfg, steps), more, end)
    ensures Possible(cfg, steps + more) && Reached(cfg, steps + more) == end
    decreases |more|
  {
    if |more| == 0 {
      assert steps + more == steps;
    } else {
      var step, rest := more[0], more[1..];
      var longer := steps + [step];
      OneStepMore(cfg, steps, step, longer);
      PathIsPossible(cfg, longer, rest, end);
      assert longer + rest == steps + more;
    }
  }

  // ---- From the queue to the offer ----

  /** The worker has claimed this Run and holds it. */
  ghost predicate Claimed(s: System, id: Str, token: Str, now: int) {
    && s.pc.AtSession? && s.pc.id == id && id in s.db.runs && s.pc.row == s.db.runs[id] && Held(s.db.runs[id], token, now)
  }

  lemma ClaimLeads(cfg: Config, s: System, leaseNs: int, token: Str, now: int, end: int, after: System)
    requires s.pc.Idle? && ValidLease(leaseNs) && now > 0 && CanClaim(s.db.runs, now) && ValidIdentifier(token, MAX_ID_BYTES)
    requires end == RunsOut(now, leaseNs) <= MAX_INT64 && after == Do(cfg, s, DispatchOne(leaseNs, Some(token), now))
    ensures after.pc.AtSession? && after.pc.id in s.db.runs && Waits(s.db.runs[after.pc.id], now) && Claimed(after, after.pc.id, token, now)
    ensures SameWork(s.db.runs[after.pc.id], after.pc.row)
    ensures after.db == s.db.(runs := after.db.runs) && after.sandbox == s.sandbox && after.digests == s.digests
    ensures forall c :: UnresolvedOf(after.db.runs, after.db.deliveries, c) == UnresolvedOf(s.db.runs, s.db.deliveries, c)
  {
    var step := Claim(s.db, leaseNs, Some(token), now);
    ClaimVerdict(s.db, leaseNs, Some(token), now, end, step);
    ClaimMoves(cfg, s, leaseNs, token, now, step, after);
    LaterThan(now, leaseNs, end);
    SameOwners(s.db.runs, after.db.runs, s.db.deliveries, step.result.id, token, end, now);
  }

  lemma ClaimMoves(cfg: Config, s: System, leaseNs: int, token: Str, now: int, step: ClaimStep, after: System)
    requires s.pc.Idle? && after == Do(cfg, s, DispatchOne(leaseNs, Some(token), now)) && step == Claim(s.db, leaseNs, Some(token), now)
    ensures after == AfterClaim(s, step)
  {
  }

  lemma LaterThan(now: int, leaseNs: int, end: int)
    requires ValidLease(leaseNs) && end == RunsOut(now, leaseNs)
    ensures now < end
  {
  }

  lemma SameOwners(runs: map<Str, Run>, after: map<Str, Run>, deliveries: map<Str, Delivery>, id: Str, token: Str, expires: int, now: int)
    requires TakesOldest(runs, token, expires, now, id, after)
    ensures forall c :: UnresolvedOf(after, deliveries, c) == UnresolvedOf(runs, deliveries, c)
  {
    forall r | r in runs ensures after[r].origin == runs[r].origin { assert r != id ==> Relined(runs[r], after[r], now); }
  }

  /** The worker offers this request. */
  ghost predicate Offering(s: System, id: Str, token: Str, now: int, request: StartRequest) {
    && s.pc.AtStart? && s.pc.id == id && s.pc.request == request && request.runId == id
    && id in s.db.runs && Held(s.db.runs[id], token, now) && s.pc.row.dispatchToken == token && s.pc.row.state == Dispatching
  }

  /** The request for a Run, with the start that its row has frozen, or the current session and this deadline. */
  ghost predicate RequestFor(request: StartRequest, id: Str, run: Run, session: Option<Str>, deadline: int) {
    && request.runId == id && request.input == run.origin.input && request.scope == run.origin.scope
    && request.targetId == run.origin.scope.targetId && request.expectedRevision == run.origin.scope.targetRevision
    && request.session == (if run.prepared then run.startSession else session)
    && request.deadline == (if run.prepared then run.startDeadline else deadline)
  }

  /** What the sandbox asks of names that Core does not. */
  predicate Startable(id: Str, run: Run) {
    && Exec.ValidRunId(id) && Exec.ValidName(run.origin.scope.targetId, Exec.MAX_TARGET_ID_BYTES)
    && Exec.ValidName(run.origin.scope.targetRevision, Exec.MAX_REVISION_BYTES)
  }

  lemma SessionRefsAreRefs(ref: Str)
    requires ValidSessionRef(ref)
    ensures Exec.ValidOpaqueRef(ref)
  {
  }

  lemma RequestIsValid(id: Str, run: Run, session: Option<Str>, deadline: int, request: StartRequest)
    requires RequestFor(request, id, run, session, deadline) && RunChecked(id, run) && Startable(id, run)
    requires request.session.Some? ==> ValidSessionRef(request.session.value)
    ensures ValidStart(request)
  {
    if request.session.Some? { SessionRefsAreRefs(request.session.value); }
  }

  /** Reading the session leads to the preparation with the current one. */
  lemma SessionLeads(cfg: Config, s: System, id: Str, token: Str, now: int, after: System)
    requires Claimed(s, id, token, now) && after == Do(cfg, s, ReadSession)
    ensures after == s.(pc := AtPrepare(id, s.db.runs[id], CurrentRef(s.db.sessions, s.db.runs[id].origin.scope)))
  {
  }

  lemma PrepareMoves(cfg: Config, s: System, deadline: int, now: int, i: PrepareInput, step: PrepareStep, after: System)
    requires s.pc.AtPrepare? && i == PrepareInput(s.pc.id, s.pc.row.dispatchToken, s.pc.session, deadline) && step == Prepare(s.db, i, now)
    requires after == Do(cfg, s, PrepareStart(deadline, now))
    ensures after.db == step.db && after.sandbox == s.sandbox && after.digests == s.digests
    ensures step.result.Prepared? ==> after.pc == OfferStart(s.pc.id, s.pc.row.(prepared := true, startSession := step.result.start.session,
                                        startDeadline := step.result.start.deadline), step.result.start)
  {
  }

  /** Preparing leads to the offer of the Run's own request. */
  lemma PrepareLeads(cfg: Config, s: System, id: Str, token: Str, session: Option<Str>, deadline: int, now: int, after: System)
    requires StoreOk(cfg, s.db) && s.pc.AtPrepare? && s.pc.id == id && id in s.db.runs && s.pc.row == s.db.runs[id] && s.pc.session == session
    requires Held(s.db.runs[id], token, now) && session == CurrentRef(s.db.sessions, s.db.runs[id].origin.scope) && Startable(id, s.db.runs[id])
    requires now > 0 && now < deadline <= MAX_DEADLINE_MS && after == Do(cfg, s, PrepareStart(deadline, now))
    ensures after.pc.AtStart? && Offering(after, id, token, now, after.pc.request)
    ensures RequestFor(after.pc.request, id, s.db.runs[id], session, deadline)
    ensures after.db == s.db.(runs := s.db.runs[id := after.db.runs[id]]) && after.db.runs[id].origin == s.db.runs[id].origin
    ensures after.sandbox == s.sandbox && after.digests == s.digests
  {
    var run := s.db.runs[id];
    var i := PrepareInput(id, run.dispatchToken, session, deadline);
    var step := Prepare(s.db, i, now);
    assert RunChecked(id, run);
    if session.Some? { assert run.origin.scope in s.db.sessions; }
    PrepareVerdict(s.db, i, now, step);
    PrepareMoves(cfg, s, deadline, now, i, step, after);
    var request := BuildRequest(id, run, step.result.start);
    RequestIsValid(id, run, session, deadline, request);
  }

  // ---- From the offer to the reply ----

  lemma StartLeads(cfg: Config, s: System, id: Str, token: Str, now: int, request: StartRequest, after: System)
    requires Offering(s, id, token, now, request) && id !in s.sandbox && Exec.ValidRunId(id)
    requires after == Do(cfg, s, CallStart(StartOk(Exec.Fresh(id).status), true))
    ensures Allowed(s, CallStart(StartOk(Exec.Fresh(id).status), true))
    ensures after == s.(sandbox := s.sandbox[id := Record(request, Exec.Fresh(id))], pc := AtPoll(id, s.pc.row, Exec.Accepted))
  {
  }

  function StartedEvent(id: Str): Exec.RunEvent { Exec.RunEvent(id, 1, Exec.Started, None, None, None) }

  function CompletedEvent(id: Str, result: Exec.Result): Exec.RunEvent { Exec.RunEvent(id, 2, Exec.EventCompleted, None, Some(result), None) }

  function CompletedLog(id: Str, result: Exec.Result): Exec.Snapshot {
    Exec.Snapshot(Exec.RunStatus(id, Exec.Completed, 2), [StartedEvent(id), CompletedEvent(id, result)])
  }

  lemma LogCompletes(id: Str, result: Exec.Result)
    requires Exec.ValidRunId(id) && Exec.ValidResult(result)
    ensures Exec.Append(Exec.Fresh(id), StartedEvent(id)).Some?
    ensures Exec.Append(Exec.Append(Exec.Fresh(id), StartedEvent(id)).value, CompletedEvent(id, result)) == Some(CompletedLog(id, result))
    ensures Exec.ValidSnapshot(CompletedLog(id, result))
  {
    var started := Exec.Snapshot(Exec.RunStatus(id, Exec.Running, 1), [StartedEvent(id)]);
    assert [] + [StartedEvent(id)] == started.events && Exec.Append(Exec.Fresh(id), StartedEvent(id)) == Some(started);
    assert started.events + [CompletedEvent(id, result)] == CompletedLog(id, result).events;
  }

  lemma SandboxRuns(cfg: Config, s: System, id: Str, event: Exec.RunEvent, log: Exec.Snapshot, after: System)
    requires id in s.sandbox && Exec.Append(s.sandbox[id].log, event) == Some(log) && after == Do(cfg, s, SandboxAppends(id, event))
    ensures after == s.(sandbox := s.sandbox[id := s.sandbox[id].(log := log)])
  {
  }

  lemma PollLeads(cfg: Config, s: System, id: Str, row: Run, log: Exec.Snapshot, after: System)
    requires s.pc == AtPoll(id, row, Exec.Accepted) && id in s.sandbox && s.sandbox[id].log == log && Exec.ValidSnapshot(log)
    requires log.status.runId == id && Exec.Terminal(log.status.state) && after == Do(cfg, s, CallGet(GetOk(log)))
    ensures Allowed(s, CallGet(GetOk(log))) && after == s.(pc := AtFinish(id, row, FinishOf(row.dispatchToken, log)))
  {
    CallGetMoves(cfg, s, GetOk(log), after);
  }

  /** The Run is completed in Core with this result, and its reply is pending and carries the output if there is any to see. */
  ghost predicate CompletedWith(s: System, id: Str, result: Exec.Result) {
    && id in s.db.runs && s.db.runs[id].state == Completed && s.db.runs[id].output == Some(result.text)
    && s.db.runs[id].resultSession == result.sessionRef
    && exists d :: d in s.db.deliveries && Replies(s.db.deliveries[d], id, result)
  }

  predicate Replies(d: Delivery, id: Str, result: Exec.Result) { d.runId == id && d.state == Pending && CompletedText(d.text, result.text) }

  lemma CommitLeads(cfg: Config, s: System, id: Str, row: Run, result: Exec.Result, now: int, after: System)
    requires SystemInv(cfg, s) && Exec.ValidRunId(id) && Exec.ValidResult(result)
    requires s.pc == AtFinish(id, row, FinishOf(row.dispatchToken, CompletedLog(id, result))) && CanCommit(cfg, s, now)
    requires after == Do(cfg, s, CommitFinish(now))
    ensures CompletedWith(after, id, result)
  {
    var log := CompletedLog(id, result);
    LogCompletes(id, result);
    FinishCommits(cfg, s, now);
    FinishKeepsTheOutcome(row.dispatchToken, log);
    ReplyTellsTheOutcome(row.dispatchToken, log);
    assert Replies(after.db.deliveries[ReplyOf(s).id], id, result);
  }

  /** A Run that nothing keeps from running: its names suit the sandbox, which has no record of it, and its reply has room. */
  ghost predicate Unhindered(cfg: Config, s: System, id: Str)
    requires id in s.db.runs
  {
    && Startable(id, s.db.runs[id]) && id !in s.sandbox
    && |UnresolvedOf(s.db.runs, s.db.deliveries, s.db.runs[id].origin.scope.connector)| < cfg.maxPending
  }

  /** The worker stands at the offer of a Run that waited, with everything else as it was. */
  ghost predicate AtOffer(cfg: Config, s: System, token: Str, now: int, at: System) {
    && at.pc.AtStart? && at.pc.id in s.db.runs && Waits(s.db.runs[at.pc.id], now) && Offering(at, at.pc.id, token, now, at.pc.request)
    && at.sandbox == s.sandbox && at.digests == s.digests && at.pc.id in at.db.runs && at.db.runs[at.pc.id].origin == s.db.runs[at.pc.id].origin
    && at.db.deliveries == s.db.deliveries
    && forall c :: UnresolvedOf(at.db.runs, at.db.deliveries, c) == UnresolvedOf(s.db.runs, s.db.deliveries, c)
  }

  function QueueSteps(leaseNs: int, token: Str, now: int, deadline: int): seq<Step> {
    [DispatchOne(leaseNs, Some(token), now)] + ([ReadSession] + ([PrepareStart(deadline, now)] + []))
  }

  /** What the clock, the lease and the token must be for a dispatch to go on. */
  predicate GoodDispatch(leaseNs: int, token: Str, now: int, deadline: int) {
    ValidLease(leaseNs) && ValidIdentifier(token, MAX_ID_BYTES) && 0 < now < deadline <= MAX_DEADLINE_MS && RunsOut(now, leaseNs) <= MAX_INT64
  }

  /** A Run waits, nothing is active, and no waiting Run is hindered. */
  ghost predicate ReadyToRun(cfg: Config, s: System, now: int) {
    s.pc.Idle? && CanClaim(s.db.runs, now) && forall id :: id in s.db.runs && Waits(s.db.runs[id], now) ==> Unhindered(cfg, s, id)
  }

  lemma ClaimedLeadsToOffer(cfg: Config, s: System, id: Str, token: Str, now: int, deadline: int, asked: System, at: System)
    requires StoreOk(cfg, s.db) && Claimed(s, id, token, now) && Startable(id, s.db.runs[id]) && 0 < now < deadline <= MAX_DEADLINE_MS
    requires asked == Do(cfg, s, ReadSession) && at == Do(cfg, asked, PrepareStart(deadline, now))
    ensures at.pc.AtStart? && Offering(at, id, token, now, at.pc.request) && at.db.runs[id].origin == s.db.runs[id].origin
    ensures at.sandbox == s.sandbox && at.digests == s.digests && at.db.deliveries == s.db.deliveries
    ensures at.db.runs.Keys == s.db.runs.Keys && forall r :: r in s.db.runs ==> at.db.runs[r].origin == s.db.runs[r].origin
  {
    SessionLeads(cfg, s, id, token, now, asked);
    PrepareLeads(cfg, asked, id, token, CurrentRef(s.db.sessions, s.db.runs[id].origin.scope), deadline, now, at);
  }

  /** Three undisturbed steps take the worker from idle to the offer of a Run that waited. */
  lemma QueueLeadsToOffer(cfg: Config, s: System, leaseNs: int, token: Str, now: int, deadline: int) returns (at: System)
    requires SystemInv(cfg, s) && GoodDispatch(leaseNs, token, now, deadline) && ReadyToRun(cfg, s, now)
    ensures Path(cfg, s, QueueSteps(leaseNs, token, now, deadline), at) && AtOffer(cfg, s, token, now, at)
  {
    var claimed := Do(cfg, s, DispatchOne(leaseNs, Some(token), now));
    ClaimLeads(cfg, s, leaseNs, token, now, RunsOut(now, leaseNs), claimed);
    StepKeepsInv(cfg, s, DispatchOne(leaseNs, Some(token), now), claimed);
    var id, asked := claimed.pc.id, Do(cfg, claimed, ReadSession);
    assert Unhindered(cfg, s, id);
    at := Do(cfg, asked, PrepareStart(deadline, now));
    ClaimedLeadsToOffer(cfg, claimed, id, token, now, deadline, asked, at);
    SameOrigins(claimed.db.runs, at.db.runs, at.db.deliveries);
    StepThenPath(cfg, asked, PrepareStart(deadline, now), at, [], at);
    StepThenPath(cfg, claimed, ReadSession, asked, [PrepareStart(deadline, now)] + [], at);
    StepThenPath(cfg, s, DispatchOne(leaseNs, Some(token), now), claimed, [ReadSession] + ([PrepareStart(deadline, now)] + []), at);
  }

  lemma SameOrigins(runs: map<Str, Run>, after: map<Str, Run>, deliveries: map<Str, Delivery>)
    requires after.Keys == runs.Keys && forall r :: r in runs ==> after[r].origin == runs[r].origin
    ensures forall c :: UnresolvedOf(after, deliveries, c) == UnresolvedOf(runs, deliveries, c)
  {
  }

  /** What the sandbox and the worker do once the offer is made: it is taken, runs to its end and is polled. */
  function RunSteps(id: Str, result: Exec.Result): seq<Step> {
    [CallStart(StartOk(Exec.Fresh(id).status), true)] + ([SandboxAppends(id, StartedEvent(id))]
      + ([SandboxAppends(id, CompletedEvent(id, result))] + ([CallGet(GetOk(CompletedLog(id, result)))] + [])))
  }

  /** From the offer on, the steps that take the Run to the worker's finish. */
  lemma OfferLeadsToFinish(cfg: Config, s: System, id: Str, token: Str, now: int, result: Exec.Result) returns (polled: System)
    requires s.pc.AtStart? && Offering(s, id, token, now, s.pc.request) && id !in s.sandbox && Exec.ValidRunId(id) && Exec.ValidResult(result)
    ensures Path(cfg, s, RunSteps(id, result), polled) && polled.db == s.db && polled.digests == s.digests
    ensures polled.pc == AtFinish(id, s.pc.row, FinishOf(s.pc.row.dispatchToken, CompletedLog(id, result)))
  {
    LogCompletes(id, result);
    var start, poll := CallStart(StartOk(Exec.Fresh(id).status), true), CallGet(GetOk(CompletedLog(id, result)));
    var one, two := SandboxAppends(id, StartedEvent(id)), SandboxAppends(id, CompletedEvent(id, result));
    var taken := Do(cfg, s, start);
    StartLeads(cfg, s, id, token, now, s.pc.request, taken);
    var running := Do(cfg, taken, one);
    SandboxRuns(cfg, taken, id, StartedEvent(id), Exec.Append(Exec.Fresh(id), StartedEvent(id)).value, running);
    var ended := Do(cfg, running, two);
    SandboxRuns(cfg, running, id, CompletedEvent(id, result), CompletedLog(id, result), ended);
    polled := Do(cfg, ended, poll);
    PollLeads(cfg, ended, id, s.pc.row, CompletedLog(id, result), polled);
    StepThenPath(cfg, ended, poll, polled, [], polled);
    StepThenPath(cfg, running, two, ended, [poll] + [], polled);
    StepThenPath(cfg, taken, one, running, [two] + ([poll] + []), polled);
    StepThenPath(cfg, s, start, taken, [one] + ([two] + ([poll] + [])), polled);
  }

  /** The last step: the finish is committed. */
  lemma FinishLeadsToReply(cfg: Config, s: System, id: Str, row: Run, result: Exec.Result, now: int) returns (done: System)
    requires SystemInv(cfg, s) && Exec.ValidRunId(id) && Exec.ValidResult(result)
    requires s.pc == AtFinish(id, row, FinishOf(row.dispatchToken, CompletedLog(id, result))) && CanCommit(cfg, s, now)
    ensures Path(cfg, s, [CommitFinish(now)], done) && CompletedWith(done, id, result)
  {
    done := Do(cfg, s, CommitFinish(now));
    CommitLeads(cfg, s, id, row, result, now, done);
    StepThenPath(cfg, s, CommitFinish(now), done, [], done);
    assert [CommitFinish(now)] + [] == [CommitFinish(now)];
  }

  lemma {:induction false} PathKeepsInv(cfg: Config, s: System, more: seq<Step>, end: System)
    requires SystemInv(cfg, s) && Path(cfg, s, more, end)
    ensures SystemInv(cfg, end)
    decreases |more|
  {
    if |more| > 0 {
      StepKeepsInv(cfg, s, more[0], Do(cfg, s, more[0]));
      PathKeepsInv(cfg, Do(cfg, s, more[0]), more[1..], end);
    }
  }

  lemma FinishCanCommit(cfg: Config, s: System, token: Str, now: int, at: System, polled: System)
    requires AtOffer(cfg, s, token, now, at) && Unhindered(cfg, s, at.pc.id) && now > 0
    requires polled.pc.AtFinish? && polled.pc.id == at.pc.id && polled.pc.row == at.pc.row && polled.db == at.db
    ensures CanCommit(cfg, polled, now)
  {
  }

  lemma OfferLeadsToReply(cfg: Config, s: System, token: Str, now: int, result: Exec.Result, at: System) returns (done: System)
    requires SystemInv(cfg, at) && AtOffer(cfg, s, token, now, at) && Unhindered(cfg, s, at.pc.id) && now > 0 && Exec.ValidResult(result)
    ensures Path(cfg, at, RunSteps(at.pc.id, result) + [CommitFinish(now)], done) && CompletedWith(done, at.pc.id, result)
  {
    var id := at.pc.id;
    var polled := OfferLeadsToFinish(cfg, at, id, token, now, result);
    PathKeepsInv(cfg, at, RunSteps(id, result), polled);
    FinishCanCommit(cfg, s, token, now, at, polled);
    done := FinishLeadsToReply(cfg, polled, id, at.pc.row, result, now);
    PathsJoin(cfg, at, RunSteps(id, result), polled, [CommitFinish(now)], done);
  }

  /**
   From every state the system can be in with the worker idle and a Run waiting, the steps of an undisturbed dispatch are
   possible, and they end with a Run that waited completed in Core and its output in the reply.
   */
  lemma UndisturbedRunCompletes(cfg: Config, steps: seq<Step>, leaseNs: int, token: Str, now: int, deadline: int, result: Exec.Result)
    returns (id: Str, more: seq<Step>)
    requires ValidConfig(cfg) && Possible(cfg, steps) && GoodDispatch(leaseNs, token, now, deadline) && Exec.ValidResult(result)
    requires ReadyToRun(cfg, Reached(cfg, steps), now)
    ensures id in Reached(cfg, steps).db.runs && Waits(Reached(cfg, steps).db.runs[id], now)
    ensures Possible(cfg, steps + more) && CompletedWith(Reached(cfg, steps + more), id, result)
  {
    var s := Reached(cfg, steps);
    EverySystemIsSound(cfg, steps);
    var first := QueueSteps(leaseNs, token, now, deadline);
    var at := QueueLeadsToOffer(cfg, s, leaseNs, token, now, deadline);
    PathKeepsInv(cfg, s, first, at);
    id := at.pc.id;
    assert Unhindered(cfg, s, id);
    var done := OfferLeadsToReply(cfg, s, token, now, result, at);
    more := first + (RunSteps(id, result) + [CommitFinish(now)]);
    PathsJoin(cfg, s, first, at, RunSteps(id, result) + [CommitFinish(now)], done);
    PathIsPossible(cfg, steps, more, done);
  }

  // ---- A start that the sandbox refuses ----

  /** The failure that a refused start is reported as; only a sandbox that could not answer leaves the Run as it is. */
  predicate ReportedAs(code: StartCode, failure: Option<FailureCode>) {
    match code
    case TargetNotFound => failure == Some(TargetUnavailable)
    case StartRevisionMismatch => failure == Some(RevisionMismatch)
    case StartInvalidSession => failure == Some(InvalidSession)
    case StartPolicyDenied => failure == Some(PolicyDenied)
    case StartInvalidState => failure == Some(DeadlineExceeded)
    case StartConflict => failure == Some(ProtocolViolation)
    case StartUnavailable => failure.None?
  }

  /** Where a refused start leads once absence is proved: to that failure, or back to idle. */
  lemma RefusedStartLeads(cfg: Config, s: System, code: StartCode, refused: System, after: System)
    requires s.pc.AtStart? && s.pc.request.runId == s.pc.id && s.pc.id !in s.sandbox && refused == Do(cfg, s, CallStart(StartError(code), false))
    requires after == if refused.pc.AtProve? then Do(cfg, refused, CallGet(GetNotFound)) else refused
    ensures Allowed(s, CallStart(StartError(code), false)) && (refused.pc.AtProve? ==> Allowed(refused, CallGet(GetNotFound)))
    ensures after == s.(pc := after.pc)
    ensures if code == StartUnavailable then after.pc == Idle
            else after.pc.AtFinish? && after.pc.id == s.pc.id && after.pc.row == s.pc.row && ReportedAs(code, after.pc.finish.input.failure)
                 && after.pc.finish.input.state == Failed
  {
    if refused.pc.AtProve? { CallGetMoves(cfg, refused, GetNotFound, after); }
  }

  // ---- Running Runs ----

  /** A record seen running is marked in Core, whether the start or the first poll showed it. */
  lemma RunningIsMarked(cfg: Config, s: System, now: int, after: System)
    requires s.pc.AtMark? || s.pc.AtNote?
    requires s.pc.id in s.db.runs && Held(s.db.runs[s.pc.id], s.pc.row.dispatchToken, now) && s.db.runs[s.pc.id].prepared
    requires now > 0 && ValidIdentifier(s.pc.id, MAX_ID_BYTES) && ValidIdentifier(s.pc.row.dispatchToken, MAX_ID_BYTES)
    requires after == Do(cfg, s, MarkRun(now))
    ensures s.pc.id in after.db.runs && after.db.runs[s.pc.id].state == Running
    ensures after.pc == if s.pc.AtMark? then AtPoll(s.pc.id, s.pc.row.(state := Running), s.pc.seen) else Idle
  {
    MarkVerdict(s.db, s.pc.id, s.pc.row.dispatchToken, now, MarkRunning(s.db, s.pc.id, s.pc.row.dispatchToken, now));
  }

  /** Where the worker goes when it is told that the Run is running, by the start or by a poll. */
  lemma SeenRunning(id: Str, row: Run, status: Exec.RunStatus, s: Exec.Snapshot)
    requires status.runId == id && Exec.ValidStatus(status) && status.state == Exec.Running
    requires s.status == status && Exec.ValidSnapshot(s) && row.state == Dispatching
    ensures AfterStart(id, row, StartOk(status)) == AtMark(id, row, Exec.Running)
    ensures AfterGot(AtPoll(id, row, Exec.Accepted), GetOk(s)) == AtNote(id, row)
  {
  }

  /** The worker takes up a Run it is told of where the row stands: dispatching again from its session, running from a poll. */
  lemma AdvanceLeads(cfg: Config, s: System, id: Str, after: System)
    requires s.pc.Idle? && id in s.db.runs && after == Do(cfg, s, AdvanceRun(id))
    ensures after == s.(pc := after.pc)
    ensures s.db.runs[id].state == Dispatching ==> after.pc == AtSession(id, s.db.runs[id])
    ensures s.db.runs[id].state == Running ==> after.pc == AtRunPoll(id, s.db.runs[id])
    ensures !Active(s.db.runs[id]) ==> after.pc == Idle
  {
  }

  // ---- From the runner to the user ----

  /**
   The whole way of an output: a runner's run.completed frame that the bridge has committed as the end of the record
   is what Core's row holds and, unless there is nothing to see in it, what the delivery carries.
   */
  lemma RunnerOutputIsDelivered(cfg: Config, steps: seq<Step>, d: Str, f: Bridge.Hrp.Frame, mode: Bridge.SessionMode, minted: Str)
    requires ValidConfig(cfg) && Possible(cfg, steps) && d in Reached(cfg, steps).db.deliveries
    requires var s := Reached(cfg, steps); s.db.deliveries[d].runId in s.sandbox && Bridge.EndsAs(f, mode, minted, s.sandbox[s.db.deliveries[d].runId].log)
    requires f.body.Completed?
    ensures var s := Reached(cfg, steps); var id := s.db.deliveries[d].runId;
      && id in s.db.runs && s.db.runs[id].output == Some(f.body.output) && CompletedText(s.db.deliveries[d].text, f.body.output)
      && s.db.runs[id].resultSession == if Bridge.Resumable(f, mode) then Some(minted) else None
  {
    DeliveriesTellTheOutcome(cfg, steps, d);
  }
}
