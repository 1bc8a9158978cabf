/** The trusted loop between one runner's event stream and sandboxd's durable event log. */
module RunnerBridge {
  import opened GoTypes
  import opened Utf8
  import Exec = ExecutionWire
  import Hrp = RunnerWire

  datatype ErrorClass =
    | ProtocolViolation | RunnerFailed | InvalidSession | PolicyDenied | Deadline | OutputLimit | WasCancelled | Internal

  datatype SessionMode = NewOnly | OpaqueResume

  /** The target manifest's limits and the advertised feature that the loop consults. */
  datatype Target = Target(maxEvents: nat, maxProgressBytes: nat, maxOutputBytes: nat, mode: SessionMode, progressText: bool)

  /** One read of the runner's output: a decoded frame, or a failure already classified. */
  datatype Incoming = Received(frame: Hrp.Frame) | Unreadable(why: ErrorClass)

  datatype Emission = Emission(event: Exec.RunEvent, vendorToken: Option<Str>)

  /** What the sink does with the n-th emission: bind it, under a newly minted session reference, or fail. */
  datatype SinkReply = Bind(minted: Str) | SinkFails(why: ErrorClass)

  datatype Outcome = Finished | Stopped(why: ErrorClass)

  // ---- Translation ----

  /** mapFailureCode. */
  function MapFailure(code: Hrp.ErrorCode): Exec.Failure {
    match code
    case InvalidSession => Exec.InvalidSession
    case PolicyDenied => Exec.PolicyDenied
    case _ => Exec.RunnerFailed
  }

  /** translateEvent before its final check. */
  function Translate(f: Hrp.Frame, mode: SessionMode): Emission
    requires Hrp.IsEvent(f)
  {
    var bare := Exec.RunEvent(f.runId, f.number, Exec.UnknownType, None, None, None);
    match f.body
    case Started => Emission(bare.(kind := Exec.Started), None)
    case Progress(kind, text) =>
      Emission(bare.(kind := Exec.Progressed,
                     progress := Some(Exec.Progress(if kind == Hrp.OutputDelta then Exec.OutputDelta else Exec.StatusText, text))), None)
    case Completed(_, output, token) =>
      Emission(bare.(kind := Exec.EventCompleted, result := Some(Exec.Result(true, output, None))),
               if mode == OpaqueResume && token != [] then Some(token) else None)
    case Failed(code, message) =>
      Emission(bare.(kind := Exec.EventFailed, failure := Some(Exec.RunFailure(MapFailure(code), message))), None)
    case Cancelled => Emission(bare.(kind := Exec.EventCancelled), None)
  }

  /** The event as stored: a completion that carries a vendor token is published under the minted reference. */
  function Publish(e: Emission, minted: Str): Exec.RunEvent {
    if e.vendorToken.Some? && e.event.result.Some? then
      e.event.(result := Some(e.event.result.value.(sessionRef := Some(minted))))
    else e.event
  }

  /** The frame completes a Run that its target can resume. */
  predicate Resumable(f: Hrp.Frame, mode: SessionMode) { f.body.Completed? && mode == OpaqueResume && f.body.token != [] }

  /** The failure class that a runner's error is stored under: two keep their own, the others are the runner's failure. */
  predicate StoredAs(code: Hrp.ErrorCode, failure: Exec.Failure) {
    && (failure == Exec.InvalidSession <==> code == Hrp.InvalidSession)
    && (failure == Exec.PolicyDenied <==> code == Hrp.PolicyDenied)
    && (failure == Exec.RunnerFailed <==> code != Hrp.InvalidSession && code != Hrp.PolicyDenied)
  }

  /** The stored event says what the frame says, field by field. */
  ghost predicate Carries(f: Hrp.Frame, mode: SessionMode, minted: Str, e: Exec.RunEvent) {
    && e.runId == f.runId && e.number == f.number
    && (e.progress.Some? <==> f.body.Progress?) && (e.result.Some? <==> f.body.Completed?) && (e.failure.Some? <==> f.body.Failed?)
    && match f.body {
      case Ready => false
      case Started => e.kind == Exec.Started
      case Progress(kind, text) =>
        && e.kind == Exec.Progressed && e.progress.value.text == text
        && (if kind == Hrp.OutputDelta then e.progress.value.kind == Exec.OutputDelta else e.progress.value.kind == Exec.StatusText)
      case Completed(_, output, _) =>
        && e.kind == Exec.EventCompleted && e.result.value.plainText && e.result.value.text == output
        && e.result.value.sessionRef == (if Resumable(f, mode) then Some(minted) else None)
      case Failed(code, message) =>
        e.kind == Exec.EventFailed && StoredAs(code, e.failure.value.code) && e.failure.value.message == message
      case Cancelled => e.kind == Exec.EventCancelled
    }
  }

  lemma PublishedCarries(f: Hrp.Frame, mode: SessionMode, minted: Str)
    requires Hrp.IsEvent(f)
    ensures Carries(f, mode, minted, Publish(Translate(f, mode), minted))
    ensures Translate(f, mode).vendorToken == if Resumable(f, mode) then Some(f.body.token) else None
  {
  }

  /** Every event the stream validator lets through is one the execution side accepts, and it says what the frame says. */
  lemma AcceptedEventsTranslate(f: Hrp.Frame, mode: SessionMode, minted: Str)
    requires Hrp.IsEvent(f) && Hrp.ValidEvent(f) && Exec.ValidRunId(f.runId)
    ensures Exec.ValidEvent(Translate(f, mode).event)
    ensures Exec.TerminalType(Translate(f, mode).event.kind) <==> Hrp.Terminal(f)
    ensures Carries(f, mode, minted, Publish(Translate(f, mode), minted))
  {
    PublishedCarries(f, mode, minted);
  }

  /** The target's own limits on an event the stream validator accepted; None when it passes. */
  function TargetRefuses(f: Hrp.Frame, t: Target): Option<ErrorClass> {
    match f.body
    case Progress(_, text) =>
      if !t.progressText then Some(ProtocolViolation) else if |text| > t.maxProgressBytes then Some(OutputLimit) else None
    case Completed(_, output, token) =>
      if |output| > t.maxOutputBytes then Some(OutputLimit)
      else if t.mode == NewOnly && token != [] then Some(PolicyDenied)
      else if t.mode == OpaqueResume && token == [] then Some(ProtocolViolation)
      else None
    case _ => None
  }

  /** The frame keeps to what its target allows. */
  predicate WithinTarget(f: Hrp.Frame, t: Target) {
    && (f.body.Progress? ==> t.progressText && |f.body.text| <= t.maxProgressBytes)
    && (f.body.Completed? ==> |f.body.output| <= t.maxOutputBytes && (t.mode == NewOnly <==> f.body.token == []))
  }

  /** What a target's refusal means: text it does not want, too much of it, or a session token where none may be, or none where one must. */
  lemma TargetRefusalMeans(f: Hrp.Frame, t: Target)
    ensures TargetRefuses(f, t).None? <==> WithinTarget(f, t)
    ensures TargetRefuses(f, t) == Some(OutputLimit) <==>
      || (f.body.Progress? && t.progressText && |f.body.text| > t.maxProgressBytes)
      || (f.body.Completed? && |f.body.output| > t.maxOutputBytes)
    ensures TargetRefuses(f, t) == Some(PolicyDenied) <==>
      f.body.Completed? && |f.body.output| <= t.maxOutputBytes && t.mode == NewOnly && f.body.token != []
    ensures TargetRefuses(f, t) in {None, Some(OutputLimit), Some(PolicyDenied), Some(ProtocolViolation)}
  {
  }

  // ---- The loop ----

  /** The event committed in place i says what the stream's own event at that place says. */
  ghost predicate CommittedAt(stream: nat -> Incoming, sink: nat -> SinkReply, mode: SessionMode, i: nat, e: Exec.RunEvent) {
    && stream(i).Received? && Hrp.IsEvent(stream(i).frame) && sink(i).Bind?
    && Carries(stream(i).frame, mode, sink(i).minted, e)
  }

  ghost predicate Committed(stream: nat -> Incoming, sink: nat -> SinkReply, mode: SessionMode, events: seq<Exec.RunEvent>) {
    forall i :: 0 <= i < |events| ==> CommittedAt(stream, sink, mode, i, events[i])
  }

  /** What holds of the log and the validator between two reads. */
  ghost predicate InStep(log: Exec.Snapshot, runId: Str, accepted: seq<Hrp.Frame>) {
    && Exec.Log(log) && log.status.runId == runId
    && |accepted| == |log.events| && log.status.lastEventSeq == |log.events|
    && (Exec.Terminal(log.status.state) <==> |accepted| > 0 && Hrp.Terminal(accepted[|accepted| - 1]))
  }

  /** Appending the published translation of the next legal frame keeps the two in step. */
  lemma AppendKeepsStep(log: Exec.Snapshot, runId: Str, accepted: seq<Hrp.Frame>, f: Hrp.Frame, e: Exec.RunEvent, next: Exec.Snapshot)
    requires InStep(log, runId, accepted) && Hrp.LegalStream(runId, accepted + [f])
    requires Hrp.IsEvent(f) && e.kind == Translate(f, NewOnly).event.kind
    requires Exec.Append(log, e) == Some(next)
    ensures InStep(next, runId, accepted + [f]) && next.events == log.events + [e]
  {
    Exec.GrowthKeepsLog(log, e);
    assert (accepted + [f])[|accepted|] == f;
  }

  lemma CancelKeepsStep(log: Exec.Snapshot, runId: Str, accepted: seq<Hrp.Frame>)
    requires InStep(log, runId, accepted) && !Exec.Terminal(log.status.state)
    ensures InStep(Exec.Cancel(log), runId, accepted) && !Exec.Terminal(Exec.Cancel(log).status.state)
    ensures Exec.Cancel(log).events == log.events && Exec.Cancel(log).status.state == Exec.Cancelling
  {
    Exec.GrowthKeepsLog(log, Exec.RunEvent([], 0, Exec.UnknownType, None, None, None));
  }

  /** What keeps the log from taking an event that the stream validator and the target have let through. */
  predicate CannotAppend(f: Hrp.Frame, mode: SessionMode, minted: Str, cancelling: bool)
    requires Hrp.IsEvent(f)
  {
    || (!Hrp.Terminal(f) && f.number == Exec.MAX_EVENTS)
    || (f.body.Started? && cancelling)
    || (Resumable(f, mode) && !Exec.ValidOpaqueRef(minted))
  }

  lemma PublishedIsValid(f: Hrp.Frame, mode: SessionMode, minted: Str)
    requires Hrp.IsEvent(f) && Hrp.ValidEvent(f) && Exec.ValidRunId(f.runId)
    ensures var e := Publish(Translate(f, mode), minted);
      && (Exec.ValidEvent(e) <==> !Resumable(f, mode) || Exec.ValidOpaqueRef(minted))
      && e.kind == Translate(f, mode).event.kind && e.runId == f.runId && e.number == f.number
  {
    AcceptedEventsTranslate(f, mode, minted);
  }

  /** The store takes the next legal frame exactly when nothing of the above holds. */
  lemma AppendRefusesExactly(log: Exec.Snapshot, runId: Str, accepted: seq<Hrp.Frame>, f: Hrp.Frame, mode: SessionMode, minted: Str)
    requires InStep(log, runId, accepted) && !Exec.Terminal(log.status.state) && Hrp.LegalStream(runId, accepted + [f])
    ensures Hrp.IsEvent(f) && Hrp.ValidEvent(f)
    ensures Exec.Append(log, Publish(Translate(f, mode), minted)).None?
            <==> CannotAppend(f, mode, minted, log.status.state == Exec.Cancelling)
  {
    assert (accepted + [f])[|accepted|] == f;
    PublishedIsValid(f, mode, minted);
  }

  /** Why an accepted event is not committed; None when it is. */
  function CommitRefusal(f: Hrp.Frame, mode: SessionMode, reply: SinkReply, cancelling: bool): Option<ErrorClass>
    requires Hrp.IsEvent(f)
  {
    match reply
    case SinkFails(why) => Some(why)
    case Bind(minted) => if CannotAppend(f, mode, minted, cancelling) then Some(Internal) else None
  }

  /** Translates one accepted event and hands it to the sink; a cancellation may come first. */
  method CommitEvent(log: Exec.Snapshot, runId: Str, ghost accepted: seq<Hrp.Frame>, event: Hrp.Frame, mode: SessionMode,
                     reply: SinkReply, cancel: bool)
    returns (failure: Option<ErrorClass>, next: Exec.Snapshot)
    requires Hrp.IsEvent(event) && InStep(log, runId, accepted) && !Exec.Terminal(log.status.state)
    requires Hrp.LegalStream(runId, accepted + [event])
    ensures failure == CommitRefusal(event, mode, reply, cancel || log.status.state == Exec.Cancelling)
    ensures failure.Some? ==> InStep(next, runId, accepted) && !Exec.Terminal(next.status.state) && next.events == log.events
    ensures failure.None? ==> InStep(next, runId, accepted + [event])
                              && next.events == log.events + [Publish(Translate(event, mode), reply.minted)]
  {
    next := log;
    var emission := Translate(event, mode);
    assert Exec.ValidEvent(emission.event) by {
      assert (accepted + [event])[|accepted|] == event;
      AcceptedEventsTranslate(event, mode, []);
    }
    CancelKeepsStep(log, runId, accepted);
    if cancel { next := Exec.Cancel(log); }
    if reply.SinkFails? { return Some(reply.why), next; }
    AppendRefusesExactly(next, runId, accepted, event, mode, reply.minted);
    var published := Publish(emission, reply.minted);
    var grown := Exec.Append(next, published);
    if grown.None? { return Some(Internal), next; }
    AppendKeepsStep(next, runId, accepted, event, published, grown.value);
    return None, grown.value;
  }

  // ---- One read ----

  /** Why one read goes no further, after the accepted frames; None when its event is committed. */
  ghost function Refusal(runId: Str, accepted: seq<Hrp.Frame>, incoming: Incoming, t: Target, reply: SinkReply, cancelling: bool)
    : Option<ErrorClass>
  {
    match incoming
    case Unreadable(why) => Some(why)
    case Received(f) =>
      if !Hrp.IsEvent(f) then Some(ProtocolViolation)
      else if f.number > t.maxEvents then Some(OutputLimit)
      else if !Hrp.LegalStream(runId, accepted + [f]) then Some(ProtocolViolation)
      else if TargetRefuses(f, t).Some? then TargetRefuses(f, t)
      else CommitRefusal(f, t.mode, reply, cancelling)
  }

  /** One pass of the loop: it commits the event read, or stops for the one reason the read gives. */
  method BridgeOne(validator: Hrp.Sequence, log: Exec.Snapshot, incoming: Incoming, t: Target, reply: SinkReply, cancel: bool)
    returns (failure: Option<ErrorClass>, next: Exec.Snapshot, taken: bool)
    requires validator.Valid() && InStep(log, validator.runId, validator.accepted) && !Exec.Terminal(log.status.state)
    modifies validator
    ensures validator.Valid()
    ensures failure == Refusal(validator.runId, old(validator.accepted), incoming, t, reply, cancel || log.status.state == Exec.Cancelling)
    ensures taken ==> incoming.Received? && validator.accepted == old(validator.accepted) + [incoming.frame]
                      && incoming.frame.number <= t.maxEvents
    ensures !taken ==> failure.Some? && validator.accepted == old(validator.accepted)
    ensures failure.Some? ==> InStep(next, validator.runId, old(validator.accepted)) && !Exec.Terminal(next.status.state)
                              && next.events == log.events
    ensures failure.None? ==> taken && InStep(next, validator.runId, validator.accepted) && Hrp.IsEvent(incoming.frame) && reply.Bind?
                              && next.events == log.events + [Publish(Translate(incoming.frame, t.mode), reply.minted)]
  {
    if incoming.Unreadable? { return Some(incoming.why), log, false; }
    var event := incoming.frame;
    if !Hrp.IsEvent(event) { return Some(ProtocolViolation), log, false; }
    if event.number > t.maxEvents { return Some(OutputLimit), log, false; }
    ghost var before := validator.accepted;
    var ok := validator.Accept(event);
    if !ok { return Some(ProtocolViolation), log, false; }
    var refusal := TargetRefuses(event, t);
    if refusal.Some? { return refusal, log, true; }
    failure, next := CommitEvent(log, validator.runId, before, event, t.mode, reply, cancel);
    taken := true;
  }

  // ---- The whole stream ----

  lemma LegalStreamIsBounded(runId: Str, accepted: seq<Hrp.Frame>)
    requires Hrp.LegalStream(runId, accepted)
    ensures |accepted| <= Hrp.MAX_EVENTS
    ensures |accepted| > 0 ==> accepted[|accepted| - 1].number == |accepted|
  {
    if |accepted| > 0 { assert Hrp.ValidEvent(accepted[|accepted| - 1]); }
  }

  /** The outside of one Run: what the runner sends, what the sink answers, and when a cancellation comes. */
  datatype Outside = Outside(stream: nat -> Incoming, sink: nat -> SinkReply, cancelled: nat -> bool)

  /** The frames read so far. */
  ghost function Frames(w: Outside, n: nat): (frames: seq<Hrp.Frame>)
    ensures |frames| <= n
  {
    if n == 0 then [] else Frames(w, n - 1) + if w.stream(n - 1).Received? then [w.stream(n - 1).frame] else []
  }

  /** Why the n-th read stops the bridge if none before it did. A cancellation matters only to the opening run.started. */
  ghost function RefusalAt(runId: Str, w: Outside, t: Target, n: nat): Option<ErrorClass> {
    Refusal(runId, Frames(w, n), w.stream(n), t, w.sink(n), w.cancelled(0))
  }

  ghost predicate Passes(runId: Str, w: Outside, t: Target, n: nat) { forall i: nat :: i < n ==> RefusalAt(runId, w, t, i).None? }

  /** The first n reads bring a whole Run, to its terminal event. */
  ghost predicate Delivers(runId: Str, w: Outside, t: Target, n: nat) {
    n > 0 && Passes(runId, w, t, n) && w.stream(n - 1).Received? && Hrp.Terminal(w.stream(n - 1).frame)
  }

  lemma StartedComesFirst(runId: Str, accepted: seq<Hrp.Frame>, f: Hrp.Frame)
    requires Hrp.LegalStream(runId, accepted + [f]) && |accepted| > 0
    ensures !f.body.Started?
  {
    assert (accepted + [f])[|accepted|] == f;
  }

  /** Only run.started asks whether the Run is cancelling, and only the first frame is run.started. */
  lemma CancellationMatters(runId: Str, accepted: seq<Hrp.Frame>, incoming: Incoming, t: Target, reply: SinkReply, x: bool, y: bool)
    requires |accepted| > 0 || x == y
    ensures Refusal(runId, accepted, incoming, t, reply, x) == Refusal(runId, accepted, incoming, t, reply, y)
  {
    if incoming.Received? && |accepted| > 0 && Hrp.LegalStream(runId, accepted + [incoming.frame]) {
      StartedComesFirst(runId, accepted, incoming.frame);
    }
  }

  /** Nothing passes after a whole Run. */
  lemma DeliversOnce(runId: Str, w: Outside, t: Target, n: nat)
    requires Delivers(runId, w, t, n)
    ensures RefusalAt(runId, w, t, n).Some?
  {
    assert Frames(w, n) == Frames(w, n - 1) + [w.stream(n - 1).frame];
    if w.stream(n).Received? {
      var longer := Frames(w, n) + [w.stream(n).frame];
      assert Hrp.Terminal(longer[|Frames(w, n)| - 1]);
    }
  }

  /** What the i-th frame of a stream must be for the bridge to commit it, said without the bridge. */
  ghost predicate Committable(w: Outside, t: Target, i: nat, f: Hrp.Frame) {
    && w.stream(i) == Received(f) && Hrp.IsEvent(f) && f.number <= t.maxEvents && WithinTarget(f, t)
    && w.sink(i).Bind? && (Resumable(f, t.mode) ==> Exec.ValidOpaqueRef(w.sink(i).minted))
    && (Hrp.Terminal(f) || f.number < Exec.MAX_EVENTS)
  }

  /** A legal stream to its terminal event, within the target's limits and those of the log, not cancelled before it starts. */
  ghost predicate WholeRun(runId: Str, w: Outside, t: Target, frames: seq<Hrp.Frame>) {
    && |frames| > 0 && Hrp.LegalStream(runId, frames) && Hrp.Terminal(frames[|frames| - 1]) && !w.cancelled(0)
    && forall i :: 0 <= i < |frames| ==> Committable(w, t, i, frames[i])
  }

  lemma {:induction false} FramesAre(w: Outside, frames: seq<Hrp.Frame>, n: nat)
    requires n <= |frames| && forall i :: 0 <= i < n ==> w.stream(i) == Received(frames[i])
    ensures Frames(w, n) == frames[..n]
  {
    if n > 0 { FramesAre(w, frames, n - 1); }
  }

  lemma LegalPrefix(runId: Str, frames: seq<Hrp.Frame>, n: nat)
    requires Hrp.LegalStream(runId, frames) && n <= |frames|
    ensures Hrp.LegalStream(runId, frames[..n])
  {
  }

  lemma WholeRunPasses(runId: Str, w: Outside, t: Target, frames: seq<Hrp.Frame>, i: nat)
    requires WholeRun(runId, w, t, frames) && i < |frames|
    ensures RefusalAt(runId, w, t, i).None?
  {
    assert forall j :: 0 <= j < i ==> Committable(w, t, j, frames[j]);
    FramesAre(w, frames, i);
    LegalPrefix(runId, frames, i + 1);
    assert frames[..i] + [frames[i]] == frames[..i + 1];
    assert Committable(w, t, i, frames[i]);
    TargetRefusalMeans(frames[i], t);
  }

  /** Every such Run is delivered. */
  lemma WholeRunsAreDelivered(runId: Str, w: Outside, t: Target, frames: seq<Hrp.Frame>)
    requires WholeRun(runId, w, t, frames)
    ensures Delivers(runId, w, t, |frames|)
  {
    forall i: nat | i < |frames| ensures RefusalAt(runId, w, t, i).None? { WholeRunPasses(runId, w, t, frames, i); }
    assert Committable(w, t, |frames| - 1, frames[|frames| - 1]);
  }

  lemma {:induction false} PassedFrames(runId: Str, w: Outside, t: Target, n: nat)
    requires Passes(runId, w, t, n)
    ensures |Frames(w, n)| == n && Hrp.LegalStream(runId, Frames(w, n)) && (n > 0 ==> !w.cancelled(0))
    ensures forall i :: 0 <= i < n ==> Committable(w, t, i, Frames(w, n)[i])
  {
    if n > 0 {
      PassedFrames(runId, w, t, n - 1);
      assert RefusalAt(runId, w, t, n - 1).None?;
      assert Frames(w, n)[n - 1] == w.stream(n - 1).frame;
      TargetRefusalMeans(w.stream(n - 1).frame, t);
    }
  }

  /** And nothing else is. */
  lemma OnlyWholeRunsAreDelivered(runId: Str, w: Outside, t: Target, n: nat)
    requires Delivers(runId, w, t, n)
    ensures |Frames(w, n)| == n && WholeRun(runId, w, t, Frames(w, n))
  {
    PassedFrames(runId, w, t, n);
    assert Frames(w, n)[n - 1] == w.stream(n - 1).frame;
  }

  /** A runner that starts and then reports progress without end. */
  function ChattyFrame(runId: Str, i: nat): Hrp.Frame {
    if i == 0 then Hrp.Frame(true, Hrp.TypeStarted, runId, 1, Hrp.Started)
    else Hrp.Frame(true, Hrp.TypeProgress, runId, i + 1, Hrp.Progress(Hrp.Status, [0x78]))
  }

  ghost function ChattyRun(runId: Str, n: nat): seq<Hrp.Frame> { seq(n, i requires 0 <= i => ChattyFrame(runId, i)) }

  ghost function Chatty(runId: Str, cancel: bool): Outside {
    Outside((i: nat) => Received(ChattyFrame(runId, i)), (i: nat) => Bind([0x78]), (i: nat) => cancel)
  }

  lemma ChattyIsLegal(runId: Str, n: nat)
    requires Hrp.ValidIdentifier(runId, Hrp.MAX_RUN_ID_BYTES) && n <= Hrp.MAX_EVENTS
    ensures Hrp.LegalStream(runId, ChattyRun(runId, n))
  {
    PrintableIsText([0x78]);
  }

  lemma ChattyFrames(runId: Str, cancel: bool, n: nat)
    ensures Frames(Chatty(runId, cancel), n) == ChattyRun(runId, n)
  {
    FramesAre(Chatty(runId, cancel), ChattyRun(runId, n), n);
    assert ChattyRun(runId, n)[..n] == ChattyRun(runId, n);
  }

  lemma ChattyGrows(runId: Str, n: nat, next: nat)
    requires next == n + 1
    ensures ChattyRun(runId, n) + [ChattyFrame(runId, n)] == ChattyRun(runId, next)
  {
  }

  /** One frame of the chatty runner passes its target, and the log unless it is the last or starts a cancelled Run. */
  lemma ChattyFramePasses(runId: Str, t: Target, cancel: bool, i: nat)
    requires t.progressText && t.maxProgressBytes >= 1 && i < Hrp.MAX_EVENTS
    ensures TargetRefuses(ChattyFrame(runId, i), t).None?
    ensures CommitRefusal(ChattyFrame(runId, i), t.mode, Bind([0x78]), cancel)
            == if (i == 0 && cancel) || i == Hrp.MAX_EVENTS - 1 then Some(Internal) else None
  {
  }

  /** One read of the chatty runner's stream: legal and within the target's limits, it passes unless the log refuses it. */
  lemma ChattyRead(runId: Str, t: Target, cancel: bool, i: nat, next: nat)
    requires Hrp.ValidIdentifier(runId, Hrp.MAX_RUN_ID_BYTES) && t.progressText && t.maxProgressBytes >= 1
    requires i < Hrp.MAX_EVENTS <= t.maxEvents && next == i + 1
    ensures Hrp.LegalStream(runId, Frames(Chatty(runId, cancel), next)) && TargetRefuses(ChattyFrame(runId, i), t).None?
    ensures RefusalAt(runId, Chatty(runId, cancel), t, i)
            == if (i == 0 && cancel) || i == Hrp.MAX_EVENTS - 1 then Some(Internal) else None
  {
    ChattyFrames(runId, cancel, i);
    ChattyFrames(runId, cancel, next);
    ChattyGrows(runId, i, next);
    ChattyIsLegal(runId, next);
    ChattyFramePasses(runId, t, cancel, i);
  }

  /**
   An accepted stream can get stuck: the log keeps its last number for a terminal event, which neither the
   stream validator nor a target with 512 events knows, and it takes no run.started once the Run is cancelling.
   Every read before the one that sticks passes.
   */
  lemma LegalStreamsCanStick(runId: Str, t: Target, cancel: bool)
    requires Hrp.ValidIdentifier(runId, Hrp.MAX_RUN_ID_BYTES) && t.progressText && t.maxProgressBytes >= 1 && t.maxEvents == Hrp.MAX_EVENTS
    ensures var n := if cancel then 0 else Hrp.MAX_EVENTS - 1;
      && Hrp.LegalStream(runId, Frames(Chatty(runId, cancel), n + 1)) && TargetRefuses(ChattyFrame(runId, n), t).None?
      && Passes(runId, Chatty(runId, cancel), t, n) && RefusalAt(runId, Chatty(runId, cancel), t, n) == Some(Internal)
  {
    var n := if cancel then 0 else Hrp.MAX_EVENTS - 1;
    ChattyRead(runId, t, cancel, n, n + 1);
    forall i: nat | i < n ensures RefusalAt(runId, Chatty(runId, cancel), t, i).None? { ChattyRead(runId, t, cancel, i, i + 1); }
  }

  /** Between two reads: every read so far passed and is in the log, and none ended the Run. */
  ghost predicate Reading(runId: Str, w: Outside, t: Target, log: Exec.Snapshot, frames: seq<Hrp.Frame>) {
    && InStep(log, runId, frames) && frames == Frames(w, |frames|) && !Exec.Terminal(log.status.state)
    && Committed(w.stream, w.sink, t.mode, log.events) && Passes(runId, w, t, |frames|)
    && (|frames| == 0 ==> log.status.state == Exec.Accepted)
  }

  /** The log ends as the frame says: in its state and with its payload. */
  ghost predicate EndsAs(f: Hrp.Frame, mode: SessionMode, minted: Str, log: Exec.Snapshot) {
    && |log.events| > 0 && Carries(f, mode, minted, log.events[|log.events| - 1])
    && (log.status.state == Exec.Completed <==> f.body.Completed?) && (log.status.state == Exec.Failed <==> f.body.Failed?)
    && (log.status.state == Exec.Cancelled <==> f.body.Cancelled?)
  }

  lemma FinishedEndsAs(w: Outside, mode: SessionMode, log: Exec.Snapshot)
    requires Exec.Log(log) && Exec.Terminal(log.status.state) && Committed(w.stream, w.sink, mode, log.events)
    ensures |log.events| > 0 && w.stream(|log.events| - 1).Received? && w.sink(|log.events| - 1).Bind?
    ensures EndsAs(w.stream(|log.events| - 1).frame, mode, w.sink(|log.events| - 1).minted, log)
  {
    assert CommittedAt(w.stream, w.sink, mode, |log.events| - 1, log.events[|log.events| - 1]);
  }

  /** After the last read: the log, and why it is what it is. */
  ghost predicate Ended(runId: Str, w: Outside, t: Target, log: Exec.Snapshot, outcome: Outcome) {
    && Exec.Log(log) && log.status.runId == runId
    && Committed(w.stream, w.sink, t.mode, log.events) && Passes(runId, w, t, |log.events|)
    && match outcome {
      case Finished => Exec.Terminal(log.status.state) && Delivers(runId, w, t, |log.events|)
      case Stopped(why) => !Exec.Terminal(log.status.state) && RefusalAt(runId, w, t, |log.events|) == Some(why)
    }
  }

  lemma CommittedGrows(w: Outside, mode: SessionMode, events: seq<Exec.RunEvent>, e: Exec.RunEvent)
    requires Committed(w.stream, w.sink, mode, events) && CommittedAt(w.stream, w.sink, mode, |events|, e)
    ensures Committed(w.stream, w.sink, mode, events + [e])
  {
  }

  /** A read that passed leads to the next place between two reads, or ends a whole Run. */
  lemma ReadPasses(runId: Str, w: Outside, t: Target, log: Exec.Snapshot, frames: seq<Hrp.Frame>, f: Hrp.Frame, next: Exec.Snapshot)
    requires Reading(runId, w, t, log, frames) && Hrp.IsEvent(f) && RefusalAt(runId, w, t, |frames|).None?
    requires w.stream(|frames|) == Received(f) && w.sink(|frames|).Bind? && InStep(next, runId, frames + [f])
    requires next.events == log.events + [Publish(Translate(f, t.mode), w.sink(|frames|).minted)]
    ensures if Hrp.Terminal(f) then Ended(runId, w, t, next, Finished) else Reading(runId, w, t, next, frames + [f])
  {
    PublishedCarries(f, t.mode, w.sink(|frames|).minted);
    CommittedGrows(w, t.mode, log.events, Publish(Translate(f, t.mode), w.sink(|frames|).minted));
    var longer := frames + [f];
    assert longer[|frames|] == f && longer == Frames(w, |longer|);
    assert Passes(runId, w, t, |longer|);
  }

  lemma ReadStops(runId: Str, w: Outside, t: Target, log: Exec.Snapshot, frames: seq<Hrp.Frame>, next: Exec.Snapshot, why: ErrorClass)
    requires Reading(runId, w, t, log, frames) && RefusalAt(runId, w, t, |frames|) == Some(why)
    requires InStep(next, runId, frames) && !Exec.Terminal(next.status.state) && next.events == log.events
    ensures Ended(runId, w, t, next, Stopped(why))
  {
  }

  /** A bridge that stopped with an unended log has not seen a whole Run. */
  lemma StoppedShortOfTheEnd(runId: Str, w: Outside, t: Target, log: Exec.Snapshot, why: ErrorClass)
    requires Ended(runId, w, t, log, Stopped(why))
    ensures forall n: nat :: !Delivers(runId, w, t, n)
  {
    forall n: nat ensures !Delivers(runId, w, t, n) {
      if 0 < n == |log.events| { assert CommittedAt(w.stream, w.sink, t.mode, n - 1, log.events[n - 1]); }
      if n < |log.events| && Delivers(runId, w, t, n) { DeliversOnce(runId, w, t, n); }
    }
  }

  /** One pass of the loop, with what it means for the whole stream. */
  method BridgeNext(validator: Hrp.Sequence, log: Exec.Snapshot, w: Outside, t: Target, n: nat)
    returns (stopped: Option<Outcome>, next: Exec.Snapshot, taken: bool)
    requires validator.Valid() && n == |validator.accepted| && Reading(validator.runId, w, t, log, validator.accepted)
    modifies validator
    ensures validator.Valid() && |validator.accepted| == (if taken then n + 1 else n)
    ensures taken ==> n + 1 <= t.maxEvents && n + 1 <= Hrp.MAX_EVENTS
    ensures |next.events| == if taken && stopped in {None, Some(Finished)} then n + 1 else n
    ensures if stopped.None? then taken && Reading(validator.runId, w, t, next, validator.accepted)
            else Ended(validator.runId, w, t, next, stopped.value)
  {
    var incoming, cancel := w.stream(n), w.cancelled(n);
    ghost var frames := validator.accepted;
    CancellationMatters(validator.runId, frames, incoming, t, w.sink(n), cancel || log.status.state == Exec.Cancelling, w.cancelled(0));
    var failure;
    failure, next, taken := BridgeOne(validator, log, incoming, t, w.sink(n), cancel);
    LegalStreamIsBounded(validator.runId, validator.accepted);
    if failure.Some? {
      ReadStops(validator.runId, w, t, log, frames, next, failure.value);
      return Some(Stopped(failure.value)), next, taken;
    }
    ReadPasses(validator.runId, w, t, log, frames, incoming.frame, next);
    if !Hrp.Terminal(incoming.frame) { return None, next, taken; }
    var ended := validator.Finalize();
    return Some(if ended then Finished else Stopped(ProtocolViolation)), next, taken;
  }

  /**
   Reads frames until a terminal event is committed or something is refused. For any runner stream at
   all it stops after at most MaxEvents accepted frames, and the log is a valid snapshot throughout. The log
   holds the events of exactly the reads that pass, in order; the bridge stops at the first that does not, for
   the reason that read gives, and succeeds exactly when the reads bring a whole Run.
   */
  method BridgeEvents(runId: Str, w: Outside, t: Target) returns (outcome: Outcome, log: Exec.Snapshot, accepted: nat)
    requires Exec.ValidRunId(runId)
    ensures accepted <= Hrp.MAX_EVENTS && accepted <= t.maxEvents
    ensures Exec.Log(log) && log.status.runId == runId
    ensures |log.events| <= accepted <= |log.events| + 1
    ensures Committed(w.stream, w.sink, t.mode, log.events) && Passes(runId, w, t, |log.events|)
    ensures outcome.Stopped? ==> RefusalAt(runId, w, t, |log.events|) == Some(outcome.why)
    ensures outcome.Finished? ==> Delivers(runId, w, t, |log.events|)
    ensures outcome.Finished? <==> exists n: nat :: Delivers(runId, w, t, n)
    ensures outcome.Finished? <==> Exec.Terminal(log.status.state)
    ensures outcome.Finished? ==>
      && |log.events| > 0 && w.stream(|log.events| - 1).Received? && w.sink(|log.events| - 1).Bind?
      && EndsAs(w.stream(|log.events| - 1).frame, t.mode, w.sink(|log.events| - 1).minted, log)
  {
    var validator := new Hrp.Sequence(runId);
    log, accepted := Exec.Fresh(runId), 0;
    var stopped: Option<Outcome> := None;
    while stopped.None?
      invariant fresh(validator) && validator.Valid() && validator.runId == runId
      invariant |log.events| <= accepted <= |log.events| + 1 && accepted == |validator.accepted|
      invariant accepted <= t.maxEvents && accepted <= Hrp.MAX_EVENTS
      invariant if stopped.None? then Reading(runId, w, t, log, validator.accepted) else Ended(runId, w, t, log, stopped.value)
      decreases stopped.None?, Hrp.MAX_EVENTS - accepted
    {
      var taken;
      stopped, log, taken := BridgeNext(validator, log, w, t, accepted);
      accepted := if taken then accepted + 1 else accepted;
    }
    outcome := stopped.value;
    if outcome.Stopped? { StoppedShortOfTheEnd(runId, w, t, log, outcome.why); }
    else { FinishedEndsAs(w, t.mode, log); }
  }
}
