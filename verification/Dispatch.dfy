/**
 The dispatch engine between the Core store and a sandbox. One engine worker (a process lock admits no
 second) advances by single store transactions and single sandbox calls; it may crash between any two,
 any call's reply may be lost, the clock is arbitrary, and connectors and sandboxd act in between.
 */
module Dispatch {
  import opened GoTypes
  import opened Utf8
  import opened StoreTypes
  import opened StoreSteps
  import opened StoreHistory
  import opened StoreStart
  import opened RunOutcome
  import Exec = ExecutionWire

  // ---- The sandbox ----

  /** sandboxd's durable row for a Run: the request that registered it and its event log. */
  datatype Record = Record(request: StartRequest, log: Exec.Snapshot)

  datatype StartCode =
    TargetNotFound | StartRevisionMismatch | StartInvalidSession | StartPolicyDenied | StartInvalidState | StartConflict | StartUnavailable

  datatype StartReply = StartOk(status: Exec.RunStatus) | StartError(code: StartCode)

  datatype GetReply = GetOk(snapshot: Exec.Snapshot) | GetNotFound | GetError

  /** StartRunRequest.Validate. */
  predicate ValidStart(r: StartRequest) {
    && Exec.ValidRunId(r.runId) && Exec.ValidName(r.targetId, Exec.MAX_TARGET_ID_BYTES)
    && Exec.ValidName(r.expectedRevision, Exec.MAX_REVISION_BYTES)
    && (r.session.Some? ==> Exec.ValidOpaqueRef(r.session.value))
    && Exec.ValidText(r.input, Exec.MAX_TEXT_BYTES) && !AllSpace(r.input)
  }

  /**
   What a faithful sandbox may do with a StartRun call. It registers at most one record per Run ID, finds an
   existing record again by its exact request, and reports a conflict only when it holds no record of this
   request. Checks made before the lookup may fail at any time, and any reply may be lost.
   */
  ghost predicate FaithfulStart(sandbox: map<Str, Record>, request: StartRequest, created: bool, reply: StartReply) {
    var id := request.runId;
    && (created ==> id !in sandbox)
    && match reply {
      case StartOk(status) =>
        if created then status == Exec.Fresh(id).status
        else id in sandbox && sandbox[id].request == request && status == sandbox[id].log.status
      case StartError(code) =>
        && (created ==> code == StartUnavailable)
        && (code == StartConflict ==> id !in sandbox || sandbox[id].request != request)
    }
  }

  ghost predicate FaithfulGet(sandbox: map<Str, Record>, id: Str, reply: GetReply) {
    match reply
    case GetOk(snapshot) => id in sandbox && snapshot == sandbox[id].log
    case GetNotFound => id !in sandbox
    case GetError => true
  }

  // ---- The engine ----

  /** Where the worker stands between two interactions; row is its own copy of the Run. */
  datatype Pc =
    | Idle
    | AtSession(id: Str, row: Run)
    | AtPrepare(id: Str, row: Run, session: Option<Str>)
    | AtStart(id: Str, row: Run, request: StartRequest)
    | AtProve(id: Str, row: Run, code: FailureCode)
    | AtMark(id: Str, row: Run, seen: Exec.RunState)
    | AtPoll(id: Str, row: Run, seen: Exec.RunState)
    | AtRunPoll(id: Str, row: Run)
    | AtNote(id: Str, row: Run)
    | AtFinish(id: Str, row: Run, finish: Finish)

  /** terminalStartFailure. */
  function TerminalStartFailure(code: StartCode): Option<FailureCode> {
    match code
    case TargetNotFound => Some(TargetUnavailable)
    case StartRevisionMismatch => Some(RevisionMismatch)
    case StartInvalidSession => Some(InvalidSession)
    case StartPolicyDenied => Some(PolicyDenied)
    case StartInvalidState => Some(DeadlineExceeded)
    case StartConflict => Some(ProtocolViolation)
    case StartUnavailable => None
  }

  function Fail(id: Str, row: Run, code: FailureCode): Pc { AtFinish(id, row, FailedWith(id, row.dispatchToken, code)) }

  /** startRequest, validated before it is offered. */
  function OfferStart(id: Str, row: Run, start: PreparedStart): Pc {
    var request := BuildRequest(id, row, start);
    if ValidStart(request) then AtStart(id, row, request) else Fail(id, row, ProtocolViolation)
  }

  function AfterStart(id: Str, row: Run, reply: StartReply): Pc {
    match reply
    case StartOk(status) =>
      if !Exec.ValidStatus(status) || status.runId != id then Fail(id, row, ProtocolViolation)
      else if status.state == Exec.Running then AtMark(id, row, status.state)
      else AtPoll(id, row, status.state)
    case StartError(code) =>
      var failure := TerminalStartFailure(code);
      if failure.None? then Idle
      else if code == StartConflict then Fail(id, row, failure.value)
      else AtProve(id, row, failure.value)
  }

  /** applySnapshot. */
  function ApplySnapshot(id: Str, row: Run, s: Exec.Snapshot): Pc {
    if !Exec.ValidSnapshot(s) || s.status.runId != id then Fail(id, row, ProtocolViolation)
    else if Exec.Terminal(s.status.state) then AtFinish(id, row, FinishOf(row.dispatchToken, s))
    else match s.status.state
      case Accepted =>
        if row.state == Running then AtFinish(id, row, InterruptedBy(id, row.dispatchToken)) else Idle
      case Running => if row.state == Dispatching then AtNote(id, row) else Idle
      case _ => Idle
  }

  /** Absence must be proved before a start error becomes a failed Run. */
  function AfterProve(id: Str, row: Run, code: FailureCode, reply: GetReply): Pc {
    match reply
    case GetOk(s) => ApplySnapshot(id, row, s)
    case GetNotFound => Fail(id, row, code)
    case GetError => Idle
  }

  function AfterPoll(id: Str, row: Run, seen: Exec.RunState, reply: GetReply): Pc {
    if reply.GetOk? then
      if Exec.ValidSnapshot(reply.snapshot) && reply.snapshot.status.runId == id
         && !Exec.Progresses(seen, reply.snapshot.status.state)
      then Fail(id, row, ProtocolViolation)
      else ApplySnapshot(id, row, reply.snapshot)
    else Idle
  }

  function AfterRunPoll(id: Str, row: Run, reply: GetReply): Pc {
    match reply
    case GetOk(s) => ApplySnapshot(id, row, s)
    case GetNotFound => AtFinish(id, row, InterruptedBy(id, row.dispatchToken))
    case GetError => Idle
  }

  // ---- The whole system ----

  /** digests holds, for every Run ID ever given out, the digest that its delivery ID is made of. */
  datatype System = System(db: DB, sandbox: map<Str, Record>, digests: map<Str, Str>, pc: Pc)

  const START := System(EMPTY_DB, map[], map[], Idle)

  datatype Step =
    | Connector(op: Op, digest: Str)
    | DispatchOne(leaseNs: int, token: Option<Str>, now: int)
    | AdvanceRun(id: Str)
    | ReadSession
    | PrepareStart(deadline: int, now: int)
    | CallStart(reply: StartReply, created: bool)
    | CallGet(got: GetReply)
    | MarkRun(now: int)
    | CommitFinish(now: int)
    | Crash
    | SandboxAppends(id: Str, event: Exec.RunEvent)
    | SandboxCancels(id: Str)

  predicate FromConnector(op: Op) { op.OpIngest? || op.OpLease? || op.OpComplete? || op.OpReset? }

  /** The Run ID source never repeats itself, and no two IDs it gives out share a digest. */
  ghost predicate FreshId(digests: map<Str, Str>, id: Str, digest: Str) {
    id !in digests && Exec.ValidDigest(digest) && digest !in digests.Values
  }

  /** What the environment may choose: connectors and operators never dispatch, Run IDs are fresh, the sandbox is faithful. */
  ghost predicate Allowed(s: System, step: Step) {
    match step
    case Connector(op, digest) =>
      FromConnector(op) && (op.OpIngest? && op.env.newRunId.Some? ==> FreshId(s.digests, op.env.newRunId.value, digest))
    case CallStart(reply, created) => s.pc.AtStart? ==> FaithfulStart(s.sandbox, s.pc.request, created, reply)
    case CallGet(got) => !s.pc.Idle? ==> FaithfulGet(s.sandbox, s.pc.id, got)
    case _ => true
  }

  ghost function AfterConnector(cfg: Config, s: System, op: Op, digest: Str): System {
    s.(db := Apply(cfg, s.db, op),
       digests := if op.OpIngest? && op.env.newRunId.Some? then s.digests[op.env.newRunId.value := digest] else s.digests)
  }

  /** The reply that commitFinish sends along; its ID is derived from the Run's. */
  function ReplyOf(s: System): DeliveryInput
    requires s.pc.AtFinish? && s.pc.id in s.digests
  {
    DeliveryInput(DeliveryId(s.digests[s.pc.id]), s.pc.finish.text)
  }

  function AfterClaim(s: System, step: ClaimStep): System {
    s.(db := step.db, pc := if step.result.Claimed? then AtSession(step.result.id, step.result.run) else Idle)
  }

  /** Advance and each item of Reconcile: the worker reads a Run and goes on by its state. */
  function AfterRead(s: System, id: Str): System {
    if id !in s.db.runs then s
    else if s.db.runs[id].state == Dispatching then s.(pc := AtSession(id, s.db.runs[id]))
    else if s.db.runs[id].state == Running then s.(pc := AtRunPoll(id, s.db.runs[id]))
    else s
  }

  function AfterPrepare(s: System, step: PrepareStep): System
    requires s.pc.AtPrepare?
  {
    var row := s.pc.row;
    s.(db := step.db,
       pc := if step.result.Prepared? then
               OfferStart(s.pc.id, row.(prepared := true, startSession := step.result.start.session,
                                        startDeadline := step.result.start.deadline), step.result.start)
             else Idle)
  }

  function AfterCallStart(s: System, reply: StartReply, created: bool): System
    requires s.pc.AtStart?
  {
    s.(sandbox := if created then s.sandbox[s.pc.request.runId := Record(s.pc.request, Exec.Fresh(s.pc.request.runId))] else s.sandbox,
       pc := AfterStart(s.pc.id, s.pc.row, reply))
  }

  /** Where the worker goes on a reply to GetRun; elsewhere it waits for none. */
  function AfterGot(pc: Pc, got: GetReply): Pc {
    match pc
    case AtProve(id, row, code) => AfterProve(id, row, code, got)
    case AtPoll(id, row, seen) => AfterPoll(id, row, seen, got)
    case AtRunPoll(id, row) => AfterRunPoll(id, row, got)
    case _ => pc
  }

  function AfterMark(s: System, step: UnitStep): System {
    s.(db := step.db,
       pc := if s.pc.AtMark? && step.result.Done? then AtPoll(s.pc.id, s.pc.row.(state := Running), s.pc.seen) else Idle)
  }

  /** One step; a step the worker is not ready for changes nothing. */
  ghost function Do(cfg: Config, s: System, step: Step): System {
    match step
    case Connector(op, digest) => AfterConnector(cfg, s, op, digest)
    case DispatchOne(lease, token, now) => if s.pc.Idle? then AfterClaim(s, Claim(s.db, lease, token, now)) else s
    case AdvanceRun(id) => if s.pc.Idle? then AfterRead(s, id) else s
    case ReadSession =>
      if s.pc.AtSession? then s.(pc := AtPrepare(s.pc.id, s.pc.row, CurrentRef(s.db.sessions, s.pc.row.origin.scope))) else s
    case PrepareStart(deadline, now) =>
      if s.pc.AtPrepare? then
        AfterPrepare(s, Prepare(s.db, PrepareInput(s.pc.id, s.pc.row.dispatchToken, s.pc.session, deadline), now))
      else s
    case CallStart(reply, created) => if s.pc.AtStart? then AfterCallStart(s, reply, created) else s
    case CallGet(got) => s.(pc := AfterGot(s.pc, got))
    case MarkRun(now) =>
      if s.pc.AtMark? || s.pc.AtNote? then AfterMark(s, MarkRunning(s.db, s.pc.id, s.pc.row.dispatchToken, now)) else s
    case CommitFinish(now) =>
      if s.pc.AtFinish? && s.pc.id in s.digests then
        s.(db := StoreSteps.Finish(cfg, s.db, s.pc.finish.input, Some(ReplyOf(s)), now).db, pc := Idle)
      else s
    case Crash => s.(pc := Idle)
    case SandboxAppends(id, event) =>
      if id in s.sandbox && Exec.Append(s.sandbox[id].log, event).Some? then
        s.(sandbox := s.sandbox[id := s.sandbox[id].(log := Exec.Append(s.sandbox[id].log, event).value)])
      else s
    case SandboxCancels(id) =>
      if id in s.sandbox then s.(sandbox := s.sandbox[id := s.sandbox[id].(log := Exec.Cancel(s.sandbox[id].log))]) else s
  }

  /** A run of the system from nothing, in which the environment made only allowed choices. */
  ghost predicate Possible(cfg: Config, steps: seq<Step>)
    decreases |steps|
  {
    |steps| == 0
    || (Possible(cfg, steps[..|steps| - 1]) && Allowed(Reached(cfg, steps[..|steps| - 1]), steps[|steps| - 1]))
  }

  ghost function Reached(cfg: Config, steps: seq<Step>): System
    decreases |steps|
  {
    if |steps| == 0 then START else Do(cfg, Reached(cfg, steps[..|steps| - 1]), steps[|steps| - 1])
  }
}
