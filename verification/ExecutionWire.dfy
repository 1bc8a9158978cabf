/** The typed values agentd and sandboxd exchange, what each side accepts, and how sandboxd's event log grows. */
module ExecutionWire {
  import opened GoTypes
  import opened Utf8

  const MAX_RUN_ID_BYTES := 64
  const MAX_TARGET_ID_BYTES := 128
  const MAX_REVISION_BYTES := 160
  const MAX_SESSION_REF_BYTES := 512
  const MAX_TEXT_BYTES := 32768
  const MAX_PROGRESS_TEXT_BYTES := 8192
  const MAX_FAILURE_MESSAGE_BYTES := 4096
  const MAX_EVENTS := 512

  // Each enumeration is a Go string type, so a value outside it is representable and must be refused.

  datatype RunState = Accepted | Running | Cancelling | Completed | Failed | Cancelled | Interrupted | UnknownState

  datatype EventType = Started | Progressed | EventCompleted | EventFailed | EventCancelled | EventInterrupted | UnknownType

  datatype ProgressKind = StatusText | OutputDelta | UnknownKind

  datatype Failure =
    | TargetUnavailable | RevisionMismatch | InvalidSession | PolicyDenied | DeadlineExceeded
    | OutputLimit | RunnerFailed | ProtocolViolation | RuntimeInterrupted | InternalFailure | UnknownFailure

  datatype Progress = Progress(kind: ProgressKind, text: Str)
  datatype Result = Result(plainText: bool, text: Str, sessionRef: Option<Str>)
  datatype RunFailure = RunFailure(code: Failure, message: Str)

  datatype RunStatus = RunStatus(runId: Str, state: RunState, lastEventSeq: nat)

  datatype RunEvent = RunEvent(
    runId: Str, number: nat, kind: EventType,
    progress: Option<Progress>, result: Option<Result>, failure: Option<RunFailure>)

  /** GetRunResponse: the complete event log and the status that goes with it. */
  datatype Snapshot = Snapshot(status: RunStatus, events: seq<RunEvent>)

  // ---- Validators ----

  predicate RunIdByte(b: byte) { Alphanumeric(b) || b in {0x2D, 0x5F} }
  predicate NameByte(b: byte) { RunIdByte(b) || b in {0x2E, 0x3A, 0x40} }
  predicate RefByte(b: byte) { RunIdByte(b) || b in {0x2E, 0x7E} }

  predicate ValidRunId(s: Str) { 0 < |s| <= MAX_RUN_ID_BYTES && forall i :: 0 <= i < |s| ==> RunIdByte(s[i]) }

  predicate ValidName(s: Str, max: nat) { 0 < |s| <= max && forall i :: 0 <= i < |s| ==> NameByte(s[i]) }

  predicate ValidOpaqueRef(s: Str) { 0 < |s| <= MAX_SESSION_REF_BYTES && forall i :: 0 <= i < |s| ==> RefByte(s[i]) }

  predicate ValidDigest(s: Str) {
    |s| == 64 && forall i :: 0 <= i < |s| ==> 0x30 <= s[i] <= 0x39 || 0x61 <= s[i] <= 0x66
  }

  predicate ValidText(s: Str, max: nat) { ValidUtf8(s) && 0 !in s && |s| <= max }

  predicate Terminal(s: RunState) { s in {Completed, Failed, Cancelled, Interrupted} }

  predicate TerminalType(t: EventType) { t in {EventCompleted, EventFailed, EventCancelled, EventInterrupted} }

  predicate ValidStatus(s: RunStatus) {
    && ValidRunId(s.runId) && s.state != UnknownState && s.lastEventSeq <= MAX_EVENTS
    && (s.state == Accepted ==> s.lastEventSeq == 0)
    && (s.state != Accepted && s.state != Cancelling ==> s.lastEventSeq != 0)
  }

  predicate ValidProgress(p: Progress) {
    p.kind != UnknownKind && ValidText(p.text, MAX_PROGRESS_TEXT_BYTES) && !AllSpace(p.text)
  }

  predicate ValidResult(r: Result) {
    r.plainText && ValidText(r.text, MAX_TEXT_BYTES) && (r.sessionRef.Some? ==> ValidOpaqueRef(r.sessionRef.value))
  }

  predicate ValidFailure(f: RunFailure) {
    f.code != UnknownFailure && ValidText(f.message, MAX_FAILURE_MESSAGE_BYTES) && !AllSpace(f.message)
  }

  predicate ValidEvent(e: RunEvent) {
    && ValidRunId(e.runId) && 0 < e.number <= MAX_EVENTS
    && match e.kind {
      case Started => e.progress.None? && e.result.None? && e.failure.None?
      case EventCancelled => e.progress.None? && e.result.None? && e.failure.None?
      case Progressed => e.progress.Some? && e.result.None? && e.failure.None? && ValidProgress(e.progress.value)
      case EventCompleted => e.progress.None? && e.result.Some? && e.failure.None? && ValidResult(e.result.value)
      case EventFailed =>
        e.progress.None? && e.result.None? && e.failure.Some?
        && e.failure.value.code != RuntimeInterrupted && ValidFailure(e.failure.value)
      case EventInterrupted =>
        e.progress.None? && e.result.None? && e.failure.Some?
        && e.failure.value.code == RuntimeInterrupted && ValidFailure(e.failure.value)
      case UnknownType => false
    }
  }

  /** validateStateAgainstFinalEvent. */
  predicate StateMatchesFinal(s: RunState, t: EventType) {
    match s
    case Running => t == Started || t == Progressed
    case Cancelling => t == Started || t == Progressed
    case Completed => t == EventCompleted
    case Failed => t == EventFailed
    case Cancelled => t == EventCancelled
    case Interrupted => t == EventInterrupted
    case _ => false
  }

  predicate ValidSnapshot(r: Snapshot) {
    && ValidStatus(r.status) && |r.events| <= MAX_EVENTS
    && if |r.events| == 0 then r.status.state in {Accepted, Cancelling} && r.status.lastEventSeq == 0
       else
         && (forall i :: 0 <= i < |r.events| ==>
               ValidEvent(r.events[i]) && r.events[i].runId == r.status.runId && r.events[i].number == i + 1)
         && |r.events| == r.status.lastEventSeq
         && StateMatchesFinal(r.status.state, r.events[|r.events| - 1].kind)
  }

  /** sandboxStateProgresses: the order the dispatch engine expects of successive observations. */
  predicate Progresses(from: RunState, to: RunState) {
    match from
    case Accepted => to in {Accepted, Running, Cancelling} || Terminal(to)
    case Running => to in {Running, Cancelling} || Terminal(to)
    case Cancelling => to == Cancelling || Terminal(to)
    case UnknownState => false
    case _ => to == from
  }

  // ---- The event log ----

  function Fresh(runId: Str): Snapshot { Snapshot(RunStatus(runId, Accepted, 0), []) }

  /** transition: the state an event moves a Run to, if it may follow. */
  function Transition(s: RunState, t: EventType): Option<RunState> {
    if Terminal(s) || s == UnknownState then None
    else match t
      case Started => if s == Accepted then Some(Running) else None
      case Progressed => if s == Accepted then None else Some(s)
      case EventCompleted => if s == Accepted then None else Some(Completed)
      case EventFailed => Some(Failed)
      case EventCancelled => Some(Cancelled)
      case EventInterrupted => Some(Interrupted)
      case UnknownType => None
  }

  /** appendEventTx: contiguous, legal, and the last sequence number is kept for a terminal event. */
  function Append(r: Snapshot, e: RunEvent): Option<Snapshot> {
    if !ValidEvent(e) || e.runId != r.status.runId || e.number != r.status.lastEventSeq + 1 then None
    else if !TerminalType(e.kind) && e.number >= MAX_EVENTS then None
    else
      var next := Transition(r.status.state, e.kind);
      if next.None? then None
      else Some(Snapshot(RunStatus(r.status.runId, next.value, e.number), r.events + [e]))
  }

  /** MarkCancelling on a Run that has not ended. */
  function Cancel(r: Snapshot): Snapshot {
    if r.status.state in {Accepted, Running} then r.(status := r.status.(state := Cancelling)) else r
  }

  /** What every log sandboxd can hold satisfies. */
  ghost predicate Log(r: Snapshot) {
    ValidSnapshot(r) && (!Terminal(r.status.state) ==> r.status.lastEventSeq < MAX_EVENTS)
  }

  lemma FreshIsLog(runId: Str)
    requires ValidRunId(runId)
    ensures Log(Fresh(runId))
  {
  }

  /** Every accepted append and every cancellation of a valid log gives a valid log that has only progressed. */
  lemma GrowthKeepsLog(r: Snapshot, e: RunEvent)
    requires Log(r)
    ensures Log(Cancel(r)) && Progresses(r.status.state, Cancel(r).status.state)
    ensures Append(r, e).Some? ==> Log(Append(r, e).value) && Progresses(r.status.state, Append(r, e).value.status.state)
    ensures Append(r, e).Some? ==> !Terminal(r.status.state) && r.events < Append(r, e).value.events
  {
  }

  /** A Run that has not ended can always be ended: the next failed, cancelled or interrupted event fits. */
  lemma UnendedLogCanEnd(r: Snapshot, e: RunEvent)
    requires Log(r) && !Terminal(r.status.state)
    requires ValidEvent(e) && e.runId == r.status.runId && e.number == |r.events| + 1
    requires e.kind in {EventFailed, EventCancelled, EventInterrupted}
    ensures Append(r, e).Some? && Terminal(Append(r, e).value.status.state)
  {
  }
}
