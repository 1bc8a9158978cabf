/** HRP/1, the runner's side of the pipe: frames, what makes one valid, and the stream validator. */
module RunnerWire {
  import opened GoTypes
  import opened Utf8

  const MAX_RUN_ID_BYTES := 64
  const MAX_EVENTS := 512
  const MAX_OUTPUT_TEXT_BYTES := 32768
  const MAX_PROGRESS_TEXT_BYTES := 4096
  const MAX_ERROR_MESSAGE_BYTES := 4096
  const MAX_SESSION_TOKEN_BYTES := 1024

  datatype FrameType = TypeReady | TypeStarted | TypeProgress | TypeCompleted | TypeFailed | TypeCancelled | TypeOther

  datatype ProgressKind = Status | OutputDelta | OtherKind

  datatype ErrorCode = InputRejected | InvalidSession | PolicyDenied | HarnessError | RunnerInternal | OtherCode

  /** What follows the envelope of each runner frame; the envelope repeats the protocol and the type. */
  datatype Body =
    | Ready
    | Started
    | Progress(kind: ProgressKind, text: Str)
    | Completed(plainText: bool, output: Str, token: Str)
    | Failed(code: ErrorCode, message: Str)
    | Cancelled

  datatype Frame = Frame(protocolV1: bool, declared: FrameType, runId: Str, number: nat, body: Body)

  function FrameTypeOf(b: Body): FrameType {
    match b
    case Ready => TypeReady
    case Started => TypeStarted
    case Progress(_, _) => TypeProgress
    case Completed(_, _, _) => TypeCompleted
    case Failed(_, _) => TypeFailed
    case Cancelled => TypeCancelled
  }

  predicate IsEvent(f: Frame) { !f.body.Ready? }

  predicate Terminal(f: Frame) { f.body.Completed? || f.body.Failed? || f.body.Cancelled? }

  predicate IdentifierByte(b: byte) { Alphanumeric(b) || b in {0x2D, 0x5F, 0x2E, 0x3A, 0x2F, 0x40} }

  predicate TokenByte(b: byte) { IdentifierByte(b) || b in {0x7E, 0x2B, 0x3D} }

  predicate ValidIdentifier(s: Str, max: nat) { 0 < |s| <= max && forall i :: 0 <= i < |s| ==> IdentifierByte(s[i]) }

  predicate ValidToken(s: Str, max: nat) { 0 < |s| <= max && forall i :: 0 <= i < |s| ==> TokenByte(s[i]) }

  predicate ValidText(s: Str, max: nat) { ValidUtf8(s) && 0 !in s && |s| <= max }

  /** Validate of the five event frames. */
  predicate ValidEvent(f: Frame)
    requires IsEvent(f)
  {
    && f.protocolV1 && f.declared == FrameTypeOf(f.body)
    && ValidIdentifier(f.runId, MAX_RUN_ID_BYTES) && 0 < f.number <= MAX_EVENTS
    && match f.body {
      case Started => true
      case Cancelled => true
      case Progress(kind, text) => kind != OtherKind && ValidText(text, MAX_PROGRESS_TEXT_BYTES) && !AllSpace(text)
      case Completed(plain, output, token) =>
        plain && ValidText(output, MAX_OUTPUT_TEXT_BYTES) && (token != [] ==> ValidToken(token, MAX_SESSION_TOKEN_BYTES))
      case Failed(code, message) => code != OtherCode && !AllSpace(message) && ValidText(message, MAX_ERROR_MESSAGE_BYTES)
    }
  }

  /**
   What HRP/1 asks of a Run's event stream so far: valid events of this Run, numbered from one without a
   gap, opened by the only run.started, with a terminal event nowhere but at the end.
   */
  predicate LegalStream(runId: Str, events: seq<Frame>) {
    forall i :: 0 <= i < |events| ==>
      && IsEvent(events[i]) && ValidEvent(events[i]) && events[i].runId == runId && events[i].number == i + 1
      && (events[i].body.Started? <==> i == 0)
      && (Terminal(events[i]) ==> i == |events| - 1)
  }

  /** Sequence: the stream validator keeps only a counter and two flags. */
  class Sequence {
    const runId: Str
    var lastSeq: nat
    var started: bool
    var terminal: bool
    ghost var accepted: seq<Frame>

    ghost predicate Valid()
      reads this
    {
      && LegalStream(runId, accepted) && lastSeq == |accepted| && (started <==> |accepted| > 0)
      && (terminal <==> |accepted| > 0 && Terminal(accepted[|accepted| - 1]))
    }

    constructor (runId: Str)
      ensures Valid() && this.runId == runId && accepted == []
    {
      this.runId := runId;
      lastSeq, started, terminal := 0, false, false;
      accepted := [];
    }

    /** Accepts an event exactly when the stream it extends is legal, and remembers nothing of a refused one. */
    method Accept(event: Frame) returns (ok: bool)
      requires Valid() && IsEvent(event)
      modifies this
      ensures Valid()
      ensures ok <==> LegalStream(runId, old(accepted) + [event])
      ensures accepted == if ok then old(accepted) + [event] else old(accepted)
    {
      ghost var longer := accepted + [event];
      assert longer[|accepted|] == event;
      if !ValidEvent(event) { return false; }
      if event.runId != runId { return false; }
      if terminal {
        assert Terminal(longer[|accepted| - 1]);
        return false;
      }
      if !started {
        if event.declared != TypeStarted { return false; }
        if event.number != 1 { return false; }
        started := true;
      } else if event.declared == TypeStarted {
        return false;
      }
      if lastSeq != 0 && event.number != lastSeq + 1 { return false; }
      lastSeq := event.number;
      if Terminal(event) { terminal := true; }
      accepted := longer;
      return true;
    }

    method Finalize() returns (ok: bool)
      requires Valid()
      ensures ok <==> |accepted| > 0 && Terminal(accepted[|accepted| - 1])
    {
      if !started { return false; }
      if !terminal { return false; }
      return true;
    }
  }
}
