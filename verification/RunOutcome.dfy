/** How the dispatch engine turns a terminal sandbox snapshot into a FinishRun call and a reply. */
module RunOutcome {
  import opened GoTypes
  import opened Utf8
  import opened StoreTypes
  import Exec = ExecutionWire

  const TEXT_COMPLETED_WITHOUT_OUTPUT := Ascii("Run completed without text output.")
  const TEXT_CANCELLED := Ascii("Run cancelled.")
  const TEXT_INTERRUPTED := Ascii("Run interrupted; it was not automatically retried.")

  /** mapFailureCode. */
  function MapFailure(code: Exec.Failure): FailureCode {
    match code
    case TargetUnavailable => TargetUnavailable
    case RevisionMismatch => RevisionMismatch
    case InvalidSession => InvalidSession
    case PolicyDenied => PolicyDenied
    case DeadlineExceeded => DeadlineExceeded
    case OutputLimit => OutputLimit
    case RunnerFailed => RunnerFailed
    case ProtocolViolation => ProtocolViolation
    case RuntimeInterrupted => RuntimeInterrupted
    case InternalFailure => InternalFailure
    case UnknownFailure => ProtocolViolation
  }

  /** safeFailureText. */
  function FailureText(code: FailureCode): Str {
    match code
    case TargetUnavailable => Ascii("Run failed: target unavailable.")
    case RevisionMismatch => Ascii("Run failed: target revision mismatch.")
    case InvalidSession => Ascii("Run failed: saved session is no longer valid.")
    case PolicyDenied => Ascii("Run failed: execution was denied by policy.")
    case DeadlineExceeded => Ascii("Run failed: deadline exceeded.")
    case OutputLimit => Ascii("Run failed: output limit exceeded.")
    case RunnerFailed => Ascii("Run failed in the runner.")
    case ProtocolViolation => Ascii("Run failed: protocol violation.")
    case _ => Ascii("Run failed due to an internal error.")
  }

  /** A FinishRun call with its reply text; the reply's ID is drawn from the Run ID by a digest. */
  datatype Finish = Finish(input: FinishInput, text: Str)

  function FailedWith(runId: Str, token: Str, code: FailureCode): Finish {
    Finish(FinishInput(runId, token, Failed, [], Some(code), []), FailureText(code))
  }

  function InterruptedBy(runId: Str, token: Str): Finish {
    Finish(FinishInput(runId, token, Interrupted, [], Some(RuntimeInterrupted), []), TEXT_INTERRUPTED)
  }

  function CompletedAs(runId: Str, token: Str, output: Str, session: Option<Str>): Finish {
    Finish(FinishInput(runId, token, Completed, output, None, if session.Some? then session.value else []),
           if AllSpace(output) then TEXT_COMPLETED_WITHOUT_OUTPUT else output)
  }

  /** The final event of a valid terminal snapshot carries the payload its state calls for. */
  lemma FinalEventPayload(s: Exec.Snapshot)
    requires Exec.ValidSnapshot(s) && Exec.Terminal(s.status.state)
    ensures |s.events| > 0
    ensures var final := s.events[|s.events| - 1];
      && Exec.ValidEvent(final)
      && (s.status.state.Completed? ==> final.result.Some? && Exec.ValidResult(final.result.value))
      && (s.status.state.Failed? ==>
            final.failure.Some? && !final.failure.value.code.RuntimeInterrupted? && !final.failure.value.code.UnknownFailure?)
  {
  }

  /** finishTerminalSnapshot. */
  function FinishOf(token: Str, s: Exec.Snapshot): Finish
    requires Exec.ValidSnapshot(s) && Exec.Terminal(s.status.state)
  {
    FinalEventPayload(s);
    var final := s.events[|s.events| - 1];
    var id := s.status.runId;
    match s.status.state
    case Completed => CompletedAs(id, token, final.result.value.text, final.result.value.sessionRef)
    case Failed => FailedWith(id, token, MapFailure(final.failure.value.code))
    case Cancelled => Finish(FinishInput(id, token, Cancelled, [], None, []), TEXT_CANCELLED)
    case _ => InterruptedBy(id, token)
  }

  /** deliveryIDForRun, given the digest. */
  function DeliveryId(digest: Str): Str { Ascii("delivery_") + digest }

  // ---- The store accepts what the pipeline produces ----

  lemma RunIdIsIdentifier(id: Str)
    requires Exec.ValidRunId(id)
    ensures ValidIdentifier(id, MAX_ID_BYTES)
  {
    assert forall i :: 0 <= i < |id| ==> Exec.RunIdByte(id[i]);
    PrintableIsText(id);
  }

  lemma DeliveryIdIsIdentifier(digest: Str)
    requires Exec.ValidDigest(digest)
    ensures ValidIdentifier(DeliveryId(digest), MAX_ID_BYTES)
  {
    var id := DeliveryId(digest);
    forall i | 0 <= i < |id| ensures 0x20 < id[i] <= 0x7E {
      if i < 9 { assert id[i] == Ascii("delivery_")[i] && "delivery_"[i] != ' '; } else { assert id[i] == digest[i - 9]; }
    }
    PrintableIsText(id);
  }

  lemma DeliveryIdIsInjective(a: Str, b: Str)
    requires DeliveryId(a) == DeliveryId(b)
    ensures a == b
  {
    assert DeliveryId(a)[9..] == a && DeliveryId(b)[9..] == b;
  }

  lemma LiteralIsReply(s: string)
    requires 0 < |s| <= 64 && s[|s| - 1] == '.'
    ensures ValidText(Ascii(s), false)
  {
    PrintableIsText(Ascii(s));
  }

  lemma FailureTextIsReply(code: FailureCode)
    ensures ValidText(FailureText(code), false)
  {
    match code
    case TargetUnavailable => LiteralIsReply("Run failed: target unavailable.");
    case RevisionMismatch => LiteralIsReply("Run failed: target revision mismatch.");
    case InvalidSession => LiteralIsReply("Run failed: saved session is no longer valid.");
    case PolicyDenied => LiteralIsReply("Run failed: execution was denied by policy.");
    case DeadlineExceeded => LiteralIsReply("Run failed: deadline exceeded.");
    case OutputLimit => LiteralIsReply("Run failed: output limit exceeded.");
    case RunnerFailed => LiteralIsReply("Run failed in the runner.");
    case ProtocolViolation => LiteralIsReply("Run failed: protocol violation.");
    case _ => LiteralIsReply("Run failed due to an internal error.");
  }

  lemma FixedTextsAreReplies()
    ensures ValidText(TEXT_CANCELLED, false) && ValidText(TEXT_INTERRUPTED, false)
    ensures ValidText(TEXT_COMPLETED_WITHOUT_OUTPUT, false)
  {
    LiteralIsReply("Run cancelled.");
    LiteralIsReply("Run interrupted; it was not automatically retried.");
    LiteralIsReply("Run completed without text output.");
  }

  /** A reply made from a valid result is one the store takes, and so is the finish. */
  lemma CompletedCanFinish(runId: Str, token: Str, result: Exec.Result)
    requires ValidIdentifier(runId, MAX_ID_BYTES) && ValidIdentifier(token, MAX_ID_BYTES) && Exec.ValidResult(result)
    ensures ValidFinish(CompletedAs(runId, token, result.text, result.sessionRef).input)
    ensures ValidText(CompletedAs(runId, token, result.text, result.sessionRef).text, false)
  {
    FixedTextsAreReplies();
    if result.sessionRef.Some? { RefIsSessionRef(result.sessionRef.value); }
  }

  lemma RefIsSessionRef(ref: Str)
    requires Exec.ValidOpaqueRef(ref)
    ensures ValidSessionRef(ref)
  {
    assert forall i :: 0 <= i < |ref| ==> Exec.RefByte(ref[i]);
  }

  lemma FailedCanFinish(runId: Str, token: Str, code: FailureCode)
    requires ValidIdentifier(runId, MAX_ID_BYTES) && ValidIdentifier(token, MAX_ID_BYTES)
    requires !code.UnlistedFailure? && !code.RuntimeInterrupted?
    ensures ValidFinish(FailedWith(runId, token, code).input) && ValidText(FailedWith(runId, token, code).text, false)
  {
    FailureTextIsReply(code);
  }

  /**
   The pipeline never gets stuck at its end: whatever valid terminal snapshot sandboxd returns, the store's
   own validators accept the FinishRun call and the reply the engine makes from it.
   */
  lemma TerminalSnapshotCanFinish(token: Str, digest: Str, s: Exec.Snapshot)
    requires Exec.ValidSnapshot(s) && Exec.Terminal(s.status.state)
    requires ValidIdentifier(token, MAX_ID_BYTES) && Exec.ValidDigest(digest)
    ensures ValidFinish(FinishOf(token, s).input)
    ensures ValidDelivery(DeliveryInput(DeliveryId(digest), FinishOf(token, s).text))
  {
    DeliveryIdIsIdentifier(digest);
    SnapshotCanFinish(token, s);
  }

  /** What finishTerminalSnapshot makes of each terminal state. */
  lemma FinishOfCases(token: Str, s: Exec.Snapshot, f: Finish)
    requires Exec.ValidSnapshot(s) && Exec.Terminal(s.status.state) && f == FinishOf(token, s)
    ensures |s.events| > 0
    ensures var id, final := s.status.runId, s.events[|s.events| - 1];
      match s.status.state
      case Completed => final.result.Some? && f == CompletedAs(id, token, final.result.value.text, final.result.value.sessionRef)
      case Failed => final.failure.Some? && f == FailedWith(id, token, MapFailure(final.failure.value.code))
      case Cancelled => f == Finish(FinishInput(id, token, Cancelled, [], None, []), TEXT_CANCELLED)
      case _ => f == InterruptedBy(id, token)
  {
    FinalEventPayload(s);
  }

  lemma SnapshotCanFinish(token: Str, s: Exec.Snapshot)
    requires Exec.ValidSnapshot(s) && Exec.Terminal(s.status.state) && ValidIdentifier(token, MAX_ID_BYTES)
    ensures ValidFinish(FinishOf(token, s).input) && ValidText(FinishOf(token, s).text, false)
  {
    FinalEventPayload(s);
    FinishOfCases(token, s, FinishOf(token, s));
    RunIdIsIdentifier(s.status.runId);
    var final := s.events[|s.events| - 1];
    match s.status.state
    case Completed => CompletedCanFinish(s.status.runId, token, final.result.value);
    case Failed => FailedCanFinish(s.status.runId, token, MapFailure(final.failure.value.code));
    case _ => FixedTextsAreReplies();
  }

  /** So are the engine's own failures, which no snapshot backs. */
  lemma OwnFailuresCanFinish(runId: Str, token: Str, code: FailureCode)
    requires ValidIdentifier(runId, MAX_ID_BYTES) && ValidIdentifier(token, MAX_ID_BYTES)
    requires !code.UnlistedFailure? && !code.RuntimeInterrupted?
    ensures ValidFinish(FailedWith(runId, token, code).input) && ValidText(FailedWith(runId, token, code).text, false)
    ensures ValidFinish(InterruptedBy(runId, token).input) && ValidText(InterruptedBy(runId, token).text, false)
  {
    FixedTextsAreReplies();
    FailureTextIsReply(code);
  }

  /** What a failure class is called between the daemons. */
  function WireName(code: Exec.Failure): string
    requires !code.UnknownFailure?
  {
    match code
    case TargetUnavailable => "target_unavailable"
    case RevisionMismatch => "revision_mismatch"
    case InvalidSession => "invalid_session"
    case PolicyDenied => "policy_denied"
    case DeadlineExceeded => "deadline_exceeded"
    case OutputLimit => "output_limit_exceeded"
    case RunnerFailed => "runner_failed"
    case ProtocolViolation => "protocol_violation"
    case RuntimeInterrupted => "runtime_interrupted"
    case InternalFailure => "internal"
  }

  /** What it is called in Core's rows. */
  function StoredName(code: FailureCode): string
    requires !code.UnlistedFailure?
  {
    match code
    case TargetUnavailable => "target_unavailable"
    case RevisionMismatch => "revision_mismatch"
    case InvalidSession => "invalid_session"
    case PolicyDenied => "policy_denied"
    case DeadlineExceeded => "deadline_exceeded"
    case OutputLimit => "output_limit_exceeded"
    case RunnerFailed => "runner_failed"
    case ProtocolViolation => "protocol_violation"
    case RuntimeInterrupted => "runtime_interrupted"
    case InternalFailure => "internal"
  }

  /** A failure class keeps its name in Core. */
  lemma MapFailureKeepsTheName(code: Exec.Failure)
    requires !code.UnknownFailure?
    ensures !MapFailure(code).UnlistedFailure? && StoredName(MapFailure(code)) == WireName(code)
  {
  }

  /** Different failure classes stay different in Core. */
  lemma MapFailureIsInjective(a: Exec.Failure, b: Exec.Failure)
    requires a != Exec.UnknownFailure && b != Exec.UnknownFailure && MapFailure(a) == MapFailure(b)
    ensures a == b
  {
  }

  /**
   The outcome is carried over: the Core state names the sandbox state, a completed Run keeps its output and
   session, a failed one its failure class, and the others carry neither.
   */
  lemma FinishKeepsTheOutcome(token: Str, s: Exec.Snapshot)
    requires Exec.ValidSnapshot(s) && Exec.Terminal(s.status.state)
    ensures var f := FinishOf(token, s).input;
      && (f.state == Completed <==> s.status.state == Exec.Completed) && (f.state == Failed <==> s.status.state == Exec.Failed)
      && (f.state == Cancelled <==> s.status.state == Exec.Cancelled)
      && (f.state == Interrupted <==> s.status.state == Exec.Interrupted)
      && f.runId == s.status.runId && f.token == token && Terminal(f.state)
    ensures |s.events| > 0
    ensures var f, final := FinishOf(token, s).input, s.events[|s.events| - 1];
      && (f.state == Completed ==>
            final.result.Some? && f.output == final.result.value.text && f.failure.None?
            && final.result.value.sessionRef == if f.resultSession == [] then None else Some(f.resultSession))
      && (f.state == Failed || f.state == Interrupted ==>
            final.failure.Some? && f.failure == Some(MapFailure(final.failure.value.code)))
      && (f.state != Completed ==> f.output == [] && f.resultSession == [])
  {
    FinalEventPayload(s);
  }

  // ---- What the reply tells ----

  /** The reply to a completed Run: its output, or a fixed text if there is nothing to see in it. */
  predicate CompletedText(text: Str, output: Str) {
    if AllSpace(output) then text == TEXT_COMPLETED_WITHOUT_OUTPUT else text == output
  }

  /** The reply text says what the outcome is. */
  predicate RepliesTo(text: Str, i: FinishInput) {
    match i.state
    case Completed => CompletedText(text, i.output)
    case Failed => i.failure.Some? && text == FailureText(i.failure.value)
    case Cancelled => text == TEXT_CANCELLED
    case Interrupted => text == TEXT_INTERRUPTED
    case _ => false
  }

  lemma OwnFailureReplies(runId: Str, token: Str, code: FailureCode)
    ensures RepliesTo(FailedWith(runId, token, code).text, FailedWith(runId, token, code).input)
    ensures RepliesTo(InterruptedBy(runId, token).text, InterruptedBy(runId, token).input)
  {
  }

  /**
   The reply made from a terminal snapshot: the output of its last event unless that is blank, the fixed text of its
   failure class and nothing of its message, or the fixed text of a cancelled or interrupted Run.
   */
  lemma ReplyTellsTheOutcome(token: Str, s: Exec.Snapshot)
    requires Exec.ValidSnapshot(s) && Exec.Terminal(s.status.state)
    ensures |s.events| > 0 && RepliesTo(FinishOf(token, s).text, FinishOf(token, s).input)
    ensures var text, final := FinishOf(token, s).text, s.events[|s.events| - 1];
      match s.status.state
      case Completed => final.result.Some? && CompletedText(text, final.result.value.text)
      case Failed => final.failure.Some? && text == FailureText(MapFailure(final.failure.value.code))
      case Cancelled => text == TEXT_CANCELLED
      case _ => text == TEXT_INTERRUPTED
  {
    FinalEventPayload(s);
  }
}
