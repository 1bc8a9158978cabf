/**
 Reply delivery by the Discord connector: a reply goes out chunk by chunk, each acknowledged chunk is
 recorded before the next is tried, and an attempt may stop anywhere. Whatever a stopped attempt knew is
 lost; only the two tables and what the platform and Core have seen remain.
 */
module DiscordDelivery {
  import opened GoTypes
  import Core = StoreTypes
  import Utf8

  const MAX_CHUNKS := 8
  const MAX_ID_DIGITS := 20

  /** What a reply digest binds; the digest is taken to be injective, so the reply stands for it. */
  datatype Reply = Reply(channel: Str, replyTo: Str, chunks: seq<Str>)

  datatype ChunkKey = ChunkKey(delivery: Str, index: nat)

  /** A row of sent_chunks, keyed by delivery and index. */
  datatype ChunkRow = ChunkRow(reply: Reply, ref: Str, sentAt: int)

  /** A row of sent_deliveries, keyed by delivery. */
  datatype SentRow = SentRow(ref: Str, sentAt: int)

  datatype Outcome = Delivered(ref: Str) | Retry(why: Core.DeliveryFailure) | PermanentFailure(why: Core.DeliveryFailure)

  /** What a delivery asks for once it is checked and split. */
  datatype Offer = Deliverable(reply: Reply) | WrongConversation | Unsplittable

  /** What the platform, this connector's tables and Core have seen. */
  datatype Event =
    | Attempted(delivery: Str, reply: Reply, index: nat)
    | Acknowledged(delivery: Str, reply: Reply, index: nat, ref: Str)
    | Recorded(delivery: Str, index: nat)
    | Refused(delivery: Str, error: PlatformError)
    | Told(delivery: Str, outcome: Outcome)

  /** APIError: no response at all, or one with this HTTP status. */
  datatype PlatformError = PlatformError(transport: bool, status: int)

  datatype SendAnswer = Ack(id: Str) | ApiError(error: PlatformError) | OtherError

  /** The outside of one interaction: the attempt may stop before it, storing or reporting may fail, and the send gets an answer. */
  datatype World = World(stops: bool, storeFails: bool, answer: SendAnswer, now: int)

  /** The k-th interaction; an attempt stops for good when its worlds run out. */
  function At(worlds: seq<World>, k: nat): World {
    if k < |worlds| then worlds[k] else World(true, true, OtherError, 0)
  }

  predicate Digits(s: Str) { |s| == 0 || (0x30 <= s[0] <= 0x39 && Digits(s[1..])) }

  predicate ValidSnowflake(s: Str) { 0 < |s| <= MAX_ID_DIGITS && Digits(s) && s[0] != 0x30 }

  // ---- Platform errors ----

  /** APIError.Outcome. */
  function Classify(e: PlatformError): Outcome {
    if e.transport then Retry(Core.TemporaryFailure)
    else if e.status == 429 then Retry(Core.RateLimited)
    else if 500 <= e.status <= 599 then Retry(Core.TemporaryFailure)
    else if e.status == 401 || e.status == 403 then PermanentFailure(Core.NotAuthorized)
    else if e.status == 404 || e.status == 410 then PermanentFailure(Core.RecipientUnavailable)
    else if e.status == 400 || e.status == 413 then PermanentFailure(Core.ContentRejected)
    else PermanentFailure(Core.ConnectorInternal)
  }

  /** Another try may help: there was no answer, too many requests came, or the platform itself failed. */
  predicate MayPass(e: PlatformError) { e.transport || e.status == 429 || e.status / 100 == 5 }

  /** The outcome is the one the error calls for, with its class. */
  predicate Explains(e: PlatformError, outcome: Outcome) {
    match outcome
    case Delivered(_) => false
    case Retry(why) => MayPass(e) && why == if !e.transport && e.status == 429 then Core.RateLimited else Core.TemporaryFailure
    case PermanentFailure(why) =>
      && !MayPass(e)
      && (why == Core.NotAuthorized <==> e.status in {401, 403}) && (why == Core.RecipientUnavailable <==> e.status in {404, 410})
      && (why == Core.ContentRejected <==> e.status in {400, 413}) && why !in {Core.TemporaryFailure, Core.RateLimited}
  }

  lemma ClassIsExplained(e: PlatformError)
    ensures Explains(e, Classify(e))
  {
  }

  // ---- Recorded progress ----

  /** Recorded progress on a delivery is a prefix of one reply. */
  ghost predicate Contiguous(rows: map<ChunkKey, ChunkRow>) {
    forall k :: k in rows ==>
      && k.index < MAX_CHUNKS && k.index < |rows[k].reply.chunks| && ValidSnowflake(rows[k].ref)
      && forall j :: 0 <= j < k.index ==> ChunkKey(k.delivery, j) in rows && rows[ChunkKey(k.delivery, j)].reply == rows[k].reply
  }

  /** Exactly the first n chunks of this reply are recorded. */
  ghost predicate Progress(rows: map<ChunkKey, ChunkRow>, d: Str, reply: Reply, n: nat) {
    && (forall i: nat :: ChunkKey(d, i) in rows <==> i < n)
    && forall i: nat :: i < n ==> rows[ChunkKey(d, i)].reply == reply
  }

  // ---- The log ----

  predicate AckedAt(log: seq<Event>, d: Str, reply: Reply, i: nat) {
    exists e :: e in log && e.Acknowledged? && e.delivery == d && e.reply == reply && e.index == i
  }

  predicate AllAcked(log: seq<Event>, d: Str, reply: Reply) {
    |reply.chunks| > 0 && forall i :: 0 <= i < |reply.chunks| ==> AckedAt(log, d, reply, i)
  }

  /** All of one reply is acknowledged, and its first chunk under this reference. */
  ghost predicate Proved(log: seq<Event>, d: Str, ref: Str) {
    ValidSnowflake(ref) && exists reply :: AllAcked(log, d, reply) && Acknowledged(d, reply, 0, ref) in log
  }

  /** The platform has just refused a chunk of the delivery, for a reason that explains the outcome. */
  predicate JustRefused(log: seq<Event>, d: Str, outcome: Outcome) {
    |log| > 0 && log[|log| - 1].Refused? && log[|log| - 1].delivery == d && Explains(log[|log| - 1].error, outcome)
  }

  /** What must already be in the log when an event happens. */
  ghost predicate InOrder(log: seq<Event>, e: Event) {
    match e
    case Attempted(d, reply, i) =>
      i < |reply.chunks| && (forall j :: 0 <= j < i ==> Recorded(d, j) in log) && Recorded(d, i) !in log
    case Told(d, outcome) =>
      (match outcome
       case Delivered(ref) => Proved(log, d, ref)
       case Retry(_) => JustRefused(log, d, outcome)
       case PermanentFailure(why) => JustRefused(log, d, outcome) || why in {Core.ConnectorInternal, Core.ContentRejected})
    case _ => true
  }

  ghost predicate Orderly(log: seq<Event>)
    decreases |log|
  {
    |log| == 0 || (Orderly(log[..|log| - 1]) && InOrder(log[..|log| - 1], log[|log| - 1]))
  }

  lemma OrderlyGrows(log: seq<Event>, e: Event)
    requires Orderly(log) && InOrder(log, e)
    ensures Orderly(log + [e])
  {
    assert (log + [e])[..|log|] == log;
  }

  lemma {:induction false} OrderlyAt(log: seq<Event>, p: nat)
    requires Orderly(log) && p < |log|
    ensures InOrder(log[..p], log[p])
    decreases |log|
  {
    if p < |log| - 1 {
      OrderlyAt(log[..|log| - 1], p);
      assert log[..|log| - 1][..p] == log[..p];
    }
  }

  lemma AcksStay(log: seq<Event>, more: seq<Event>, d: Str, reply: Reply)
    requires log <= more
    ensures forall i :: AckedAt(log, d, reply, i) ==> AckedAt(more, d, reply, i)
    ensures AllAcked(log, d, reply) ==> AllAcked(more, d, reply)
  {
    forall i | AckedAt(log, d, reply, i) ensures AckedAt(more, d, reply, i) {
      var e :| e in log && e.Acknowledged? && e.delivery == d && e.reply == reply && e.index == i;
      assert e in more;
    }
  }

  /** The tables say nothing the log does not back, and every recorded chunk is still in the table. */
  ghost predicate Backed(rows: map<ChunkKey, ChunkRow>, sent: map<Str, SentRow>, log: seq<Event>) {
    && (forall k :: k in rows ==> Acknowledged(k.delivery, rows[k].reply, k.index, rows[k].ref) in log)
    && (forall d: Str, i: nat :: Recorded(d, i) in log <==> ChunkKey(d, i) in rows)
    && (forall d :: d in sent ==> Proved(log, d, sent[d].ref))
  }

  /** The connector's two tables, and the journal of what the outside has seen. */
  datatype State = State(rows: map<ChunkKey, ChunkRow>, sent: map<Str, SentRow>, log: seq<Event>)

  const FRESH := State(map[], map[], [])

  ghost predicate Sound(s: State) { Contiguous(s.rows) && Backed(s.rows, s.sent, s.log) && Orderly(s.log) }

  function Observe(s: State, e: Event): State { s.(log := s.log + [e]) }

  lemma ObserveKeepsSound(s: State, e: Event)
    requires Sound(s) && InOrder(s.log, e) && !e.Recorded?
    ensures Sound(Observe(s, e))
  {
    OrderlyGrows(s.log, e);
    AcksOfAllStay(s.rows, s.sent, s.log, s.log + [e]);
  }

  function AddRow(s: State, d: Str, index: nat, row: ChunkRow): State {
    s.(rows := s.rows[ChunkKey(d, index) := row], log := s.log + [Recorded(d, index)])
  }

  lemma ProofsStay(log: seq<Event>, longer: seq<Event>, d: Str, ref: Str)
    requires log <= longer && Proved(log, d, ref)
    ensures Proved(longer, d, ref)
  {
    var reply :| AllAcked(log, d, reply) && Acknowledged(d, reply, 0, ref) in log;
    AcksStay(log, longer, d, reply);
  }

  lemma AcksOfAllStay(rows: map<ChunkKey, ChunkRow>, sent: map<Str, SentRow>, log: seq<Event>, longer: seq<Event>)
    requires log <= longer
    requires forall k :: k in rows ==> Acknowledged(k.delivery, rows[k].reply, k.index, rows[k].ref) in log
    requires forall d :: d in sent ==> Proved(log, d, sent[d].ref)
    ensures forall k :: k in rows ==> Acknowledged(k.delivery, rows[k].reply, k.index, rows[k].ref) in longer
    ensures forall d :: d in sent ==> Proved(longer, d, sent[d].ref)
  {
    forall d | d in sent ensures Proved(longer, d, sent[d].ref) { ProofsStay(log, longer, d, sent[d].ref); }
  }

  lemma RecordKeepsRows(rows: map<ChunkKey, ChunkRow>, d: Str, reply: Reply, i: nat, row: ChunkRow, after: map<ChunkKey, ChunkRow>)
    requires Contiguous(rows) && Progress(rows, d, reply, i) && after == rows[ChunkKey(d, i) := row]
    requires row.reply == reply && ValidSnowflake(row.ref) && i < MAX_CHUNKS && i < |reply.chunks|
    ensures Contiguous(after) && Progress(after, d, reply, i + 1)
  {
  }

  lemma RecordKeepsBacked(s: State, d: Str, reply: Reply, i: nat, row: ChunkRow, after: map<ChunkKey, ChunkRow>, longer: seq<Event>)
    requires Backed(s.rows, s.sent, s.log) && Acknowledged(d, reply, i, row.ref) in s.log && row.reply == reply
    requires after == s.rows[ChunkKey(d, i) := row] && longer == s.log + [Recorded(d, i)]
    ensures Backed(after, s.sent, longer)
  {
    AcksOfAllStay(after, s.sent, s.log, longer);
    forall x: Str, j: nat ensures Recorded(x, j) in longer <==> ChunkKey(x, j) in after {
      assert Recorded(x, j) in longer <==> Recorded(x, j) in s.log || (x == d && j == i);
    }
  }

  lemma RecordKeepsSound(s: State, d: Str, reply: Reply, i: nat, row: ChunkRow)
    requires Sound(s) && Progress(s.rows, d, reply, i) && Acknowledged(d, reply, i, row.ref) in s.log
    requires row.reply == reply && ValidSnowflake(row.ref) && i < MAX_CHUNKS && i < |reply.chunks|
    ensures Sound(AddRow(s, d, i, row)) && Progress(AddRow(s, d, i, row).rows, d, reply, i + 1)
  {
    var after, longer := s.rows[ChunkKey(d, i) := row], s.log + [Recorded(d, i)];
    OrderlyGrows(s.log, Recorded(d, i));
    RecordKeepsRows(s.rows, d, reply, i, row, after);
    RecordKeepsBacked(s, d, reply, i, row, after, longer);
  }

  lemma CompleteProgressIsAcked(s: State, d: Str, reply: Reply)
    requires Sound(s) && Progress(s.rows, d, reply, |reply.chunks|) && |reply.chunks| > 0
    ensures AllAcked(s.log, d, reply) && Proved(s.log, d, FirstRef(s.rows, d))
  {
    forall i | 0 <= i < |reply.chunks| ensures AckedAt(s.log, d, reply, i) {
      var k := ChunkKey(d, i);
      assert k in s.rows && Acknowledged(k.delivery, s.rows[k].reply, k.index, s.rows[k].ref) in s.log;
    }
    var first := ChunkKey(d, 0);
    assert first in s.rows && Acknowledged(d, reply, 0, s.rows[first].ref) in s.log;
  }

  lemma TryIsInOrder(s: State, d: Str, reply: Reply, index: nat)
    requires Sound(s) && Progress(s.rows, d, reply, index) && index < |reply.chunks|
    ensures InOrder(s.log, Attempted(d, reply, index))
  {
    assert ChunkKey(d, index) !in s.rows;
    forall j | 0 <= j < index ensures Recorded(d, j) in s.log { assert ChunkKey(d, j) in s.rows; }
  }

  // ---- Rows in index order ----

  predicate Readable(rows: map<ChunkKey, ChunkRow>, d: Str, reply: Reply) {
    forall k :: k in rows && k.delivery == d ==>
      && k.index < MAX_CHUNKS && rows[k].reply == reply && ValidSnowflake(rows[k].ref)
      && forall j :: 0 <= j < k.index ==> ChunkKey(d, j) in rows
  }

  function Indexes(rows: map<ChunkKey, ChunkRow>, d: Str): set<nat> { set k | k in rows && k.delivery == d :: k.index }

  lemma {:induction false} LeastExists(s: set<nat>) returns (least: nat)
    requires s != {}
    ensures least in s && forall i :: i in s ==> least <= i
    decreases |s|
  {
    var some :| some in s;
    if s == {some} { return some; }
    least := LeastExists(s - {some});
    if some < least { least := some; }
    forall i | i in s ensures least <= i { assert i == some || i in s - {some}; }
  }

  /** The first rows of a delivery, read and found proper. */
  ghost predicate ReadSoFar(rows: map<ChunkKey, ChunkRow>, d: Str, reply: Reply, list: seq<Str>) {
    forall i: nat :: i < |list| ==>
      && ChunkKey(d, i) in rows && list[i] == rows[ChunkKey(d, i)].ref
      && rows[ChunkKey(d, i)].reply == reply && ValidSnowflake(list[i])
  }

  lemma AllReadIsProgress(rows: map<ChunkKey, ChunkRow>, d: Str, reply: Reply, list: seq<Str>)
    requires ReadSoFar(rows, d, reply, list) && |list| <= MAX_CHUNKS
    requires forall k :: k in rows && k.delivery == d ==> k.index < |list|
    ensures Readable(rows, d, reply) && Progress(rows, d, reply, |list|) && |list| == NextIndex(rows, d, 0)
    ensures FirstRef(rows, d) == if |list| > 0 then list[0] else []
  {
    forall i: nat ensures i < |list| <==> ChunkKey(d, i) in rows {
      if ChunkKey(d, i) in rows { assert ChunkKey(d, i).index < |list|; }
    }
    ProgressIsNextIndex(rows, d, reply, |list|, 0);
    assert ChunkKey(d, 0) in rows <==> 0 < |list|;
  }

  /** readSentChunks: the rows come in index order, and any gap, foreign digest or bad reference is an error. */
  method ReadSentChunks(rows: map<ChunkKey, ChunkRow>, d: Str, reply: Reply) returns (refs: Option<seq<Str>>)
    ensures refs.Some? <==> Readable(rows, d, reply)
    ensures refs.Some? ==> Progress(rows, d, reply, |refs.value|)
    ensures refs.Some? ==> forall i :: 0 <= i < |refs.value| ==> refs.value[i] == rows[ChunkKey(d, i)].ref
    ensures refs.Some? ==> |refs.value| == NextIndex(rows, d, 0)
    ensures refs.Some? ==> FirstRef(rows, d) == if |refs.value| > 0 then refs.value[0] else []
  {
    var list: seq<Str> := [];
    var rest := Indexes(rows, d);
    while rest != {}
      invariant forall i: nat :: i in rest <==> i in Indexes(rows, d) && i >= |list|
      invariant |list| <= MAX_CHUNKS && ReadSoFar(rows, d, reply, list)
      decreases |rest|
    {
      ghost var least := LeastExists(rest);
      var index :| index in rest && forall j :: j in rest ==> index <= j;
      var row := rows[ChunkKey(d, index)];
      if index != |list| || index >= MAX_CHUNKS || row.reply != reply || !ValidSnowflake(row.ref) {
        if index > |list| { assert |list| !in rest && ChunkKey(d, |list|) !in rows; }
        assert ChunkKey(d, index) in rows;
        return None;
      }
      list := list + [row.ref];
      rest := rest - {index};
    }
    forall k | k in rows && k.delivery == d ensures k.index < |list| {
      assert k.index in Indexes(rows, d) && k.index !in rest;
    }
    AllReadIsProgress(rows, d, reply, list);
    return Some(list);
  }

  /** The first chunk not yet recorded. */
  function NextIndex(rows: map<ChunkKey, ChunkRow>, d: Str, i: nat): nat
    decreases MAX_CHUNKS - i
  {
    if i < MAX_CHUNKS && ChunkKey(d, i) in rows then NextIndex(rows, d, i + 1) else i
  }

  lemma {:induction false} ProgressIsNextIndex(rows: map<ChunkKey, ChunkRow>, d: Str, reply: Reply, n: nat, i: nat)
    requires Progress(rows, d, reply, n) && i <= n <= MAX_CHUNKS
    ensures NextIndex(rows, d, i) == n
    decreases n - i
  {
    if i < n { ProgressIsNextIndex(rows, d, reply, n, i + 1); }
  }

  lemma ProgressIsReadable(rows: map<ChunkKey, ChunkRow>, d: Str, reply: Reply, n: nat)
    requires Contiguous(rows) && Progress(rows, d, reply, n)
    ensures Readable(rows, d, reply) && n <= MAX_CHUNKS
  {
    forall k | k in rows && k.delivery == d ensures rows[k].reply == reply { assert k == ChunkKey(d, k.index); }
    if n > 0 { assert ChunkKey(d, n - 1) in rows; }
  }

  // ---- One attempt, as a function ----

  datatype Sent = Sent(state: State, ok: bool)

  /** RecordChunk: an exact repeat is harmless, anything but the next chunk of the same reply is refused. */
  function RecordStep(s: State, d: Str, reply: Reply, index: nat, ref: Str, w: World): Sent {
    if d == [] || index >= MAX_CHUNKS || !ValidSnowflake(ref) || w.storeFails || !Readable(s.rows, d, reply) then Sent(s, false)
    else if ChunkKey(d, index) in s.rows && s.rows[ChunkKey(d, index)].ref == ref then Sent(s, true)
    else if index != NextIndex(s.rows, d, 0) then Sent(s, false)
    else Sent(AddRow(s, d, index, ChunkRow(reply, ref, w.now)), true)
  }

  /** One chunk: sent, and recorded once acknowledged. */
  function SendStep(s: State, d: Str, reply: Reply, index: nat, w: World): Sent {
    if w.stops then Sent(s, false)
    else
      var tried := Observe(s, Attempted(d, reply, index));
      match w.answer
      case OtherError => Sent(tried, false)
      case ApiError(error) =>
        var refused := Observe(tried, Refused(d, error));
        Sent(if w.storeFails then refused else Observe(refused, Told(d, Classify(error))), false)
      case Ack(id) => RecordStep(Observe(tried, Acknowledged(d, reply, index, id)), d, reply, index, id, w)
  }

  /** The chunks from index on, up to the first thing that stops them. */
  function SendFrom(s: State, d: Str, reply: Reply, index: nat, worlds: seq<World>): Sent
    decreases |reply.chunks| - index
  {
    if index >= |reply.chunks| then Sent(s, true)
    else
      var one := SendStep(s, d, reply, index, At(worlds, 3 + index));
      if one.ok then SendFrom(one.state, d, reply, index + 1, worlds) else one
  }

  function FirstRef(rows: map<ChunkKey, ChunkRow>, d: Str): Str {
    if ChunkKey(d, 0) in rows then rows[ChunkKey(d, 0)].ref else []
  }

  /** After the last chunk: remember the delivery, then tell Core; the delivery is named by its first chunk. */
  function CompleteStep(s: State, d: Str, ref: Str, worlds: seq<World>): State {
    if ref == [] then Observe(s, Told(d, PermanentFailure(Core.ConnectorInternal)))
    else if d == [] || At(worlds, 1).stops || At(worlds, 1).storeFails then s
    else
      var kept := if d in s.sent then s else s.(sent := s.sent[d := SentRow(ref, At(worlds, 1).now)]);
      if At(worlds, 2).stops then kept else Observe(kept, Told(d, Delivered(ref)))
  }

  /** deliver: what one attempt leaves behind, wherever it stops. */
  function DeliverStep(s: State, d: Str, offer: Offer, worlds: seq<World>): State {
    if At(worlds, 0).stops || At(worlds, 0).storeFails then s
    else if d in s.sent then Observe(s, Told(d, Delivered(s.sent[d].ref)))
    else if offer.WrongConversation? then Observe(s, Told(d, PermanentFailure(Core.ConnectorInternal)))
    else if offer.Unsplittable? then Observe(s, Told(d, PermanentFailure(Core.ContentRejected)))
    else
      var reply, next := offer.reply, NextIndex(s.rows, d, 0);
      if !Readable(s.rows, d, reply) || next > |reply.chunks| then s
      else
        var sent := SendFrom(s, d, reply, next, worlds);
        if sent.ok then CompleteStep(sent.state, d, FirstRef(sent.state.rows, d), worlds) else sent.state
  }

  // ---- Every attempt keeps the tables and the journal sound ----

  lemma RecordStepKeepsSound(s: State, d: Str, reply: Reply, index: nat, ref: Str, w: World)
    requires Sound(s) && Progress(s.rows, d, reply, index) && Acknowledged(d, reply, index, ref) in s.log && index < |reply.chunks|
    ensures var r := RecordStep(s, d, reply, index, ref, w);
      && Sound(r.state) && Progress(r.state.rows, d, reply, if r.ok then index + 1 else index)
      && (r.ok <==> d != [] && index < MAX_CHUNKS && ValidSnowflake(ref) && !w.storeFails)
  {
    ProgressIsReadable(s.rows, d, reply, index);
    ProgressIsNextIndex(s.rows, d, reply, index, 0);
    assert ChunkKey(d, index) !in s.rows;
    if RecordStep(s, d, reply, index, ref, w).ok { RecordKeepsSound(s, d, reply, index, ChunkRow(reply, ref, w.now)); }
  }

  /** A chunk is recorded at most once, under the ID and at the time of its acknowledgement, and no other row changes. */
  lemma RecordWritesOneRow(s: State, d: Str, reply: Reply, index: nat, ref: Str, w: World, r: Sent)
    requires r == RecordStep(s, d, reply, index, ref, w)
    ensures r.state.rows == s.rows || (r.ok && ChunkKey(d, index) !in s.rows && r.state.rows == s.rows[ChunkKey(d, index) := ChunkRow(reply, ref, w.now)])
    ensures r.ok ==> ChunkKey(d, index) in r.state.rows && r.state.rows[ChunkKey(d, index)].ref == ref && r.state.rows[ChunkKey(d, index)].reply == reply
  {
    if Readable(s.rows, d, reply) && r.state != s { ReadableIsProgress(s.rows, d, reply); }
  }

  /** A send that is acknowledged with a proper ID and can be recorded. */
  predicate Smooth(d: Str, index: nat, w: World) {
    !w.stops && !w.storeFails && d != [] && index < MAX_CHUNKS && w.answer.Ack? && ValidSnowflake(w.answer.id)
  }

  predicate SmoothAt(d: Str, worlds: seq<World>, i: nat) { Smooth(d, i, At(worlds, 3 + i)) }

  /** Sound, with exactly the first index chunks recorded. */
  ghost predicate SoundUpTo(s: State, d: Str, reply: Reply, index: nat) { Sound(s) && Progress(s.rows, d, reply, index) }

  /** Sound; and if all went well, recorded up to index. */
  ghost predicate SoundEnd(r: Sent, d: Str, reply: Reply, index: nat) {
    if r.ok then SoundUpTo(r.state, d, reply, index) else Sound(r.state)
  }

  lemma SendStepKeepsSound(s: State, d: Str, reply: Reply, index: nat, w: World)
    requires SoundUpTo(s, d, reply, index) && index < |reply.chunks|
    ensures SoundEnd(SendStep(s, d, reply, index, w), d, reply, index + 1)
    ensures Smooth(d, index, w) ==> SendStep(s, d, reply, index, w).ok
  {
    if !w.stops {
      TryIsInOrder(s, d, reply, index);
      ObserveKeepsSound(s, Attempted(d, reply, index));
      var tried := Observe(s, Attempted(d, reply, index));
      if w.answer.Ack? {
        var acked := Acknowledged(d, reply, index, w.answer.id);
        ObserveKeepsSound(tried, acked);
        assert acked in Observe(tried, acked).log;
        RecordStepKeepsSound(Observe(tried, acked), d, reply, index, w.answer.id, w);
      } else if w.answer.ApiError? {
        ObserveKeepsSound(tried, Refused(d, w.answer.error));
        ClassIsExplained(w.answer.error);
        ObserveKeepsSound(Observe(tried, Refused(d, w.answer.error)), Told(d, Classify(w.answer.error)));
      }
    }
  }

  lemma {:induction false} SendFromKeepsSound(s: State, d: Str, reply: Reply, index: nat, worlds: seq<World>, r: Sent)
    requires SoundUpTo(s, d, reply, index) && index <= |reply.chunks| && r == SendFrom(s, d, reply, index, worlds)
    ensures SoundEnd(r, d, reply, |reply.chunks|)
    decreases |reply.chunks| - index
  {
    if index < |reply.chunks| {
      var w, next := At(worlds, 3 + index), index + 1;
      var one := SendStep(s, d, reply, index, w);
      SendStepKeepsSound(s, d, reply, index, w);
      if one.ok { SendFromKeepsSound(one.state, d, reply, next, worlds, r); }
    }
  }

  lemma RememberKeepsSound(s: State, d: Str, row: SentRow)
    requires Sound(s) && Proved(s.log, d, row.ref)
    ensures Sound(s.(sent := s.sent[d := row]))
  {
  }

  lemma RememberAndTellKeepSound(s: State, d: Str, ref: Str, now: int)
    requires Sound(s) && Proved(s.log, d, ref)
    ensures var kept := if d in s.sent then s else s.(sent := s.sent[d := SentRow(ref, now)]);
      Sound(kept) && Sound(Observe(kept, Told(d, Delivered(ref))))
  {
    RememberKeepsSound(s, d, SentRow(ref, now));
    ObserveKeepsSound(if d in s.sent then s else s.(sent := s.sent[d := SentRow(ref, now)]), Told(d, Delivered(ref)));
  }

  lemma CompleteKeepsSound(s: State, d: Str, ref: Str, worlds: seq<World>)
    requires Sound(s) && Proved(s.log, d, ref)
    ensures Sound(CompleteStep(s, d, ref, worlds))
  {
    RememberAndTellKeepSound(s, d, ref, At(worlds, 1).now);
  }

  lemma CompleteStepKeepsSound(s: State, d: Str, reply: Reply, worlds: seq<World>)
    requires Sound(s) && Progress(s.rows, d, reply, |reply.chunks|)
    ensures Sound(CompleteStep(s, d, FirstRef(s.rows, d), worlds))
  {
    if |reply.chunks| == 0 {
      assert ChunkKey(d, 0) !in s.rows;
      ObserveKeepsSound(s, Told(d, PermanentFailure(Core.ConnectorInternal)));
    } else {
      CompleteProgressIsAcked(s, d, reply);
      CompleteKeepsSound(s, d, FirstRef(s.rows, d), worlds);
    }
  }

  lemma NoGapBefore(rows: map<ChunkKey, ChunkRow>, d: Str, reply: Reply, i: nat, n: nat)
    requires Readable(rows, d, reply) && ChunkKey(d, i) in rows && n < i
    ensures ChunkKey(d, n) in rows && n < MAX_CHUNKS
  {
  }

  lemma ReadableIsProgress(rows: map<ChunkKey, ChunkRow>, d: Str, reply: Reply)
    requires Readable(rows, d, reply)
    ensures Progress(rows, d, reply, NextIndex(rows, d, 0))
  {
    NextIsMissing(rows, d, 0);
    var n := NextIndex(rows, d, 0);
    forall i: nat ensures ChunkKey(d, i) in rows <==> i < n {
      if ChunkKey(d, i) in rows && n < i { NoGapBefore(rows, d, reply, i, n); }
    }
  }

  lemma {:induction false} NextIsMissing(rows: map<ChunkKey, ChunkRow>, d: Str, i: nat)
    requires i <= MAX_CHUNKS
    ensures var n := NextIndex(rows, d, i);
      i <= n <= MAX_CHUNKS && (n < MAX_CHUNKS ==> ChunkKey(d, n) !in rows) && forall j :: i <= j < n ==> ChunkKey(d, j) in rows
    decreases MAX_CHUNKS - i
  {
    if i < MAX_CHUNKS && ChunkKey(d, i) in rows { NextIsMissing(rows, d, i + 1); }
  }

  /** Sending what is missing of a reply, and completing if that went well. */
  lemma SendingKeepsSound(s: State, d: Str, reply: Reply, worlds: seq<World>, next: nat, sent: Sent)
    requires Sound(s) && Readable(s.rows, d, reply) && next == NextIndex(s.rows, d, 0) <= |reply.chunks|
    requires sent == SendFrom(s, d, reply, next, worlds)
    ensures Sound(sent.state) && (sent.ok ==> Sound(CompleteStep(sent.state, d, FirstRef(sent.state.rows, d), worlds)))
  {
    ReadableIsProgress(s.rows, d, reply);
    SendFromKeepsSound(s, d, reply, next, worlds, sent);
    if sent.ok { CompleteStepKeepsSound(sent.state, d, reply, worlds); }
  }

  /** The four things an attempt may come to. */
  lemma AttemptCases(s: State, d: Str, offer: Offer, worlds: seq<World>, after: State)
    requires after == DeliverStep(s, d, offer, worlds)
    ensures
      || after == s
      || (d in s.sent && after == Observe(s, Told(d, Delivered(s.sent[d].ref))))
      || after == Observe(s, Told(d, PermanentFailure(Core.ConnectorInternal)))
      || after == Observe(s, Told(d, PermanentFailure(Core.ContentRejected)))
      || (offer.Deliverable? && Readable(s.rows, d, offer.reply) && NextIndex(s.rows, d, 0) <= |offer.reply.chunks|
          && var sent := SendFrom(s, d, offer.reply, NextIndex(s.rows, d, 0), worlds);
             after == if sent.ok then CompleteStep(sent.state, d, FirstRef(sent.state.rows, d), worlds) else sent.state)
  {
  }

  /** An attempt that starts sound leaves the tables and the journal sound, wherever it stops. */
  lemma DeliverKeepsSound(s: State, d: Str, offer: Offer, worlds: seq<World>)
    requires Sound(s)
    ensures Sound(DeliverStep(s, d, offer, worlds))
  {
    AttemptCases(s, d, offer, worlds, DeliverStep(s, d, offer, worlds));
    if d in s.sent { ObserveKeepsSound(s, Told(d, Delivered(s.sent[d].ref))); }
    ObserveKeepsSound(s, Told(d, PermanentFailure(Core.ConnectorInternal)));
    ObserveKeepsSound(s, Told(d, PermanentFailure(Core.ContentRejected)));
    if offer.Deliverable? && Readable(s.rows, d, offer.reply) {
      var next := NextIndex(s.rows, d, 0);
      if next <= |offer.reply.chunks| {
        SendingKeepsSound(s, d, offer.reply, worlds, next, SendFrom(s, d, offer.reply, next, worlds));
      }
    }
  }

  lemma {:induction false} SmoothSendsFinish(s: State, d: Str, reply: Reply, index: nat, worlds: seq<World>, r: Sent)
    requires SoundUpTo(s, d, reply, index) && index <= |reply.chunks| && r == SendFrom(s, d, reply, index, worlds)
    requires forall i :: index <= i < |reply.chunks| ==> SmoothAt(d, worlds, i)
    ensures r.ok
    decreases |reply.chunks| - index
  {
    if index < |reply.chunks| {
      assert SmoothAt(d, worlds, index);
      SendStepKeepsSound(s, d, reply, index, At(worlds, 3 + index));
      SmoothSendsFinish(SendStep(s, d, reply, index, At(worlds, 3 + index)).state, d, reply, index + 1, worlds, r);
    }
  }

  lemma PrefixFits(s: State, d: Str, reply: Reply)
    requires Sound(s) && Readable(s.rows, d, reply)
    ensures NextIndex(s.rows, d, 0) <= |reply.chunks|
  {
    ReadableIsProgress(s.rows, d, reply);
    var n := NextIndex(s.rows, d, 0);
    if n > 0 { assert ChunkKey(d, n - 1) in s.rows; }
  }

  lemma SendsKeepSent(s: State, d: Str, reply: Reply, index: nat, worlds: seq<World>)
    ensures SendFrom(s, d, reply, index, worlds).state.sent == s.sent
    decreases |reply.chunks| - index
  {
  }

  /** Completing an undisturbed delivery remembers it and tells Core. */
  lemma CompletionIsTold(s: State, d: Str, ref: Str, worlds: seq<World>, after: State)
    requires ref != [] && d != [] && d !in s.sent && after == CompleteStep(s, d, ref, worlds)
    requires !At(worlds, 1).stops && !At(worlds, 1).storeFails && !At(worlds, 2).stops
    ensures after.rows == s.rows && d in after.sent && after.sent[d] == SentRow(ref, At(worlds, 1).now)
    ensures |after.log| > 0 && after.log[|after.log| - 1] == Told(d, Delivered(ref))
  {
  }

  /** An attempt at a delivery that is not remembered sends what is missing, and completes if that went well. */
  lemma AttemptSends(s: State, d: Str, reply: Reply, worlds: seq<World>, next: nat, r: Sent, after: State)
    requires d !in s.sent && Readable(s.rows, d, reply) && next == NextIndex(s.rows, d, 0) <= |reply.chunks|
    requires !At(worlds, 0).stops && !At(worlds, 0).storeFails && r == SendFrom(s, d, reply, next, worlds)
    requires after == DeliverStep(s, d, Deliverable(reply), worlds)
    ensures after == if r.ok then CompleteStep(r.state, d, FirstRef(r.state.rows, d), worlds) else r.state
  {
  }

  /**
   An attempt that nothing disturbs, whatever earlier attempts left recorded, sends the rest of the reply,
   remembers the delivery and tells Core it is delivered, under the first chunk's ID.
   */
  lemma UndisturbedAttemptDelivers(s: State, d: Str, reply: Reply, worlds: seq<World>)
    requires Sound(s) && d !in s.sent && Readable(s.rows, d, reply) && |reply.chunks| > 0 && d != []
    requires !At(worlds, 0).stops && !At(worlds, 0).storeFails && !At(worlds, 1).stops && !At(worlds, 1).storeFails && !At(worlds, 2).stops
    requires forall i :: 0 <= i < |reply.chunks| ==> SmoothAt(d, worlds, i)
    ensures var after := DeliverStep(s, d, Deliverable(reply), worlds);
      && Progress(after.rows, d, reply, |reply.chunks|) && d in after.sent
      && after.sent[d] == SentRow(FirstRef(after.rows, d), At(worlds, 1).now)
      && |after.log| > 0 && after.log[|after.log| - 1] == Told(d, Delivered(FirstRef(after.rows, d)))
  {
    var next := NextIndex(s.rows, d, 0);
    ReadableIsProgress(s.rows, d, reply);
    PrefixFits(s, d, reply);
    var r := SendFrom(s, d, reply, next, worlds);
    SendFromKeepsSound(s, d, reply, next, worlds, r);
    SmoothSendsFinish(s, d, reply, next, worlds, r);
    SendsKeepSent(s, d, reply, next, worlds);
    FirstRefIsSet(r.state, d, reply);
    var after := DeliverStep(s, d, Deliverable(reply), worlds);
    AttemptSends(s, d, reply, worlds, next, r, after);
    CompletionIsTold(r.state, d, FirstRef(r.state.rows, d), worlds, after);
  }

  lemma FirstRefIsSet(s: State, d: Str, reply: Reply)
    requires Sound(s) && Progress(s.rows, d, reply, |reply.chunks|) && |reply.chunks| > 0
    ensures FirstRef(s.rows, d) != []
  {
    assert ChunkKey(d, 0) in s.rows;
  }

  /** One claimed delivery, handed to deliver, and the world it meets. */
  datatype Attempt = Attempt(delivery: Str, offer: Offer, worlds: seq<World>)

  function After(attempts: seq<Attempt>): State {
    if |attempts| == 0 then FRESH
    else
      var last := attempts[|attempts| - 1];
      DeliverStep(After(attempts[..|attempts| - 1]), last.delivery, last.offer, last.worlds)
  }

  /** Any deliveries, claimed any number of times in any order, each attempt stopping anywhere. */
  lemma {:induction false} EveryRunIsSound(attempts: seq<Attempt>)
    ensures Sound(After(attempts))
    decreases |attempts|
  {
    if |attempts| > 0 {
      var before, last := attempts[..|attempts| - 1], attempts[|attempts| - 1];
      EveryRunIsSound(before);
      DeliverKeepsSound(After(before), last.delivery, last.offer, last.worlds);
    }
  }

  /** The event happened before place p. */
  predicate Before(log: seq<Event>, p: nat, e: Event)
    requires p <= |log|
  {
    exists r :: 0 <= r < p && log[r] == e
  }

  lemma BeforeIsInPrefix(log: seq<Event>, p: nat, e: Event)
    requires p <= |log|
    ensures Before(log, p, e) <==> e in log[..p]
  {
    if e in log[..p] {
      var r :| 0 <= r < p && log[..p][r] == e;
      assert log[r] == e;
    }
    if Before(log, p, e) {
      var r :| 0 <= r < p && log[r] == e;
      assert log[..p][r] == e;
    }
  }

  /** In every run a chunk is tried only after every earlier chunk was recorded, and never once it is recorded itself. */
  lemma ChunksGoInOrder(attempts: seq<Attempt>, p: nat, j: nat)
    requires p < |After(attempts).log| && After(attempts).log[p].Attempted?
    ensures var log := After(attempts).log;
      && (j < log[p].index ==> Before(log, p, Recorded(log[p].delivery, j)))
      && !Before(log, p, Recorded(log[p].delivery, log[p].index))
  {
    var log := After(attempts).log;
    EveryRunIsSound(attempts);
    OrderlyAt(log, p);
    BeforeIsInPrefix(log, p, Recorded(log[p].delivery, j));
    BeforeIsInPrefix(log, p, Recorded(log[p].delivery, log[p].index));
  }

  /** In every run recorded progress on a delivery is a contiguous prefix of one reply, each chunk of it acknowledged. */
  lemma ProgressIsAPrefix(attempts: seq<Attempt>)
    ensures Contiguous(After(attempts).rows)
    ensures forall k :: k in After(attempts).rows ==>
      Acknowledged(k.delivery, After(attempts).rows[k].reply, k.index, After(attempts).rows[k].ref) in After(attempts).log
  {
    EveryRunIsSound(attempts);
  }

  // ---- The reply that was acknowledged ----

  /** Every acknowledgement for delivery d is for a chunk of this reply. */
  ghost predicate AcksOnly(log: seq<Event>, d: Str, reply: Reply) {
    forall e :: e in log && e.Acknowledged? && e.delivery == d ==> e.reply == reply
  }

  /** The step only adds to the log, and acknowledgements only for its own delivery and reply. */
  ghost predicate AddsAcks(log: seq<Event>, more: seq<Event>, d: Str, reply: Reply) {
    forall e :: e in more && e.Acknowledged? ==> e in log || (e.delivery == d && e.reply == reply)
  }

  lemma SendStepAcks(s: State, d: Str, reply: Reply, index: nat, w: World)
    ensures AddsAcks(s.log, SendStep(s, d, reply, index, w).state.log, d, reply)
  {
  }

  lemma {:induction false} SendFromAcks(s: State, d: Str, reply: Reply, index: nat, worlds: seq<World>)
    ensures AddsAcks(s.log, SendFrom(s, d, reply, index, worlds).state.log, d, reply)
    decreases |reply.chunks| - index
  {
    if index < |reply.chunks| {
      SendStepAcks(s, d, reply, index, At(worlds, 3 + index));
      SendFromAcks(SendStep(s, d, reply, index, At(worlds, 3 + index)).state, d, reply, index + 1, worlds);
    }
  }

  lemma DeliverAcks(s: State, d: Str, offer: Offer, worlds: seq<World>)
    ensures forall e :: e in DeliverStep(s, d, offer, worlds).log && e.Acknowledged? ==>
      e in s.log || (offer.Deliverable? && e.delivery == d && e.reply == offer.reply)
  {
    if offer.Deliverable? { SendFromAcks(s, d, offer.reply, NextIndex(s.rows, d, 0), worlds); }
  }

  /** Core renders one reply for a delivery, whenever it is claimed. */
  ghost predicate Offers(attempts: seq<Attempt>, d: Str, reply: Reply) {
    forall n :: 0 <= n < |attempts| && attempts[n].delivery == d && attempts[n].offer.Deliverable? ==> attempts[n].offer.reply == reply
  }

  lemma {:induction false} OnlyTheOfferedIsAcked(attempts: seq<Attempt>, d: Str, reply: Reply)
    requires Offers(attempts, d, reply)
    ensures AcksOnly(After(attempts).log, d, reply)
    decreases |attempts|
  {
    if |attempts| > 0 {
      var before, last := attempts[..|attempts| - 1], attempts[|attempts| - 1];
      OnlyTheOfferedIsAcked(before, d, reply);
      DeliverAcks(After(before), last.delivery, last.offer, last.worlds);
    }
  }

  lemma SoleReplyIsAcked(log: seq<Event>, p: nat, d: Str, reply: Reply, ref: Str)
    requires p <= |log| && AcksOnly(log, d, reply) && Proved(log[..p], d, ref)
    ensures AllAcked(log[..p], d, reply) && Acknowledged(d, reply, 0, ref) in log[..p]
  {
    var r :| AllAcked(log[..p], d, r) && Acknowledged(d, r, 0, ref) in log[..p];
    var e := Acknowledged(d, r, 0, ref);
    assert e in log;
  }

  /**
   In every run Core hears "delivered" only after every chunk of a reply was acknowledged for that delivery, and hears
   the ID the platform gave its first chunk; if every attempt at it offered one reply, that is the reply.
   */
  lemma DeliveredMeansAcknowledged(attempts: seq<Attempt>, p: nat, reply: Reply)
    requires p < |After(attempts).log|
    requires After(attempts).log[p].Told? && After(attempts).log[p].outcome.Delivered?
    ensures var d, log := After(attempts).log[p].delivery, After(attempts).log[..p];
      && Proved(log, d, After(attempts).log[p].outcome.ref)
      && (Offers(attempts, d, reply) ==> AllAcked(log, d, reply) && Acknowledged(d, reply, 0, After(attempts).log[p].outcome.ref) in log)
  {
    var log := After(attempts).log;
    EveryRunIsSound(attempts);
    OrderlyAt(log, p);
    if Offers(attempts, log[p].delivery, reply) {
      OnlyTheOfferedIsAcked(attempts, log[p].delivery, reply);
      SoleReplyIsAcked(log, p, log[p].delivery, reply, log[p].outcome.ref);
    }
  }

  /** In every run, Core is asked to retry only right after the platform refused a chunk in a way that may pass. */
  lemma RetryMeansRefused(attempts: seq<Attempt>, p: nat)
    requires p < |After(attempts).log| && After(attempts).log[p].Told? && After(attempts).log[p].outcome.Retry?
    ensures p > 0 && After(attempts).log[p - 1].Refused? && After(attempts).log[p - 1].delivery == After(attempts).log[p].delivery
    ensures MayPass(After(attempts).log[p - 1].error) && Explains(After(attempts).log[p - 1].error, After(attempts).log[p].outcome)
  {
    EveryRunIsSound(attempts);
    OrderlyAt(After(attempts).log, p);
  }

  /** A platform error ends the attempt, and if it can be reported Core is told what the error calls for. */
  lemma ErrorsAreTold(s: State, d: Str, reply: Reply, index: nat, w: World, r: Sent)
    requires !w.stops && w.answer.ApiError? && r == SendStep(s, d, reply, index, w)
    ensures !r.ok && r.state.rows == s.rows && r.state.sent == s.sent
    ensures !w.storeFails ==>
      |r.state.log| > 0 && r.state.log[|r.state.log| - 1].Told? && r.state.log[|r.state.log| - 1].delivery == d
      && Explains(w.answer.error, r.state.log[|r.state.log| - 1].outcome)
  {
    ClassIsExplained(w.answer.error);
  }

  /** The completion that reports an outcome to Core. */
  function Report(connector: Str, d: Str, token: Str, outcome: Outcome): Core.CompleteInput {
    match outcome
    case Delivered(ref) => Core.CompleteInput(connector, d, token, Core.OutcomeDelivered, ref, None)
    case Retry(why) => Core.CompleteInput(connector, d, token, Core.OutcomeRetry, [], Some(why))
    case PermanentFailure(why) => Core.CompleteInput(connector, d, token, Core.OutcomePermanentFailure, [], Some(why))
  }

  lemma {:induction false} DigitsArePrintable(s: Str)
    requires Digits(s)
    ensures forall i :: 0 <= i < |s| ==> 0x30 <= s[i] <= 0x39
  {
    if |s| > 0 {
      DigitsArePrintable(s[1..]);
      forall i | 0 < i < |s| ensures 0x30 <= s[i] <= 0x39 { assert s[i] == s[1..][i - 1]; }
    }
  }

  /** In every run, whatever the connector tells Core of a leased delivery is a completion that Core's validator accepts. */
  lemma CoreTakesEveryReport(attempts: seq<Attempt>, p: nat, connector: Str, token: Str)
    requires p < |After(attempts).log| && After(attempts).log[p].Told?
    requires Core.ValidIdentifier(connector, Core.MAX_ID_BYTES) && Core.ValidIdentifier(token, Core.MAX_ID_BYTES)
    requires Core.ValidIdentifier(After(attempts).log[p].delivery, Core.MAX_ID_BYTES)
    ensures Core.ValidCompletion(Report(connector, After(attempts).log[p].delivery, token, After(attempts).log[p].outcome))
  {
    var e := After(attempts).log[p];
    EveryRunIsSound(attempts);
    OrderlyAt(After(attempts).log, p);
    if e.outcome.Delivered? {
      DigitsArePrintable(e.outcome.ref);
      Utf8.PrintableIsText(e.outcome.ref);
    }
  }

  // ---- Pruning ----

  /** A delivery's chunks are kept, all of them, while the latest of them is recent. */
  predicate Kept(rows: map<ChunkKey, ChunkRow>, d: Str, olderThan: int) {
    exists m :: m in rows && m.delivery == d && rows[m].sentAt >= olderThan
  }

  lemma PruneKeepsContiguous(rows: map<ChunkKey, ChunkRow>, after: map<ChunkKey, ChunkRow>, olderThan: int)
    requires Contiguous(rows)
    requires forall k :: k in after <==> k in rows && Kept(rows, k.delivery, olderThan)
    requires forall k :: k in after ==> after[k] == rows[k]
    ensures Contiguous(after)
  {
    forall k, j | k in after && 0 <= j < k.index
      ensures ChunkKey(k.delivery, j) in after && after[ChunkKey(k.delivery, j)].reply == after[k].reply
    {
      assert ChunkKey(k.delivery, j) in rows;
    }
  }

  lemma RecordStepKeepsContiguous(s: State, d: Str, reply: Reply, index: nat, ref: Str, w: World)
    requires Contiguous(s.rows) && index < |reply.chunks|
    ensures Contiguous(RecordStep(s, d, reply, index, ref, w).state.rows)
  {
    if RecordStep(s, d, reply, index, ref, w).state != s {
      ReadableIsProgress(s.rows, d, reply);
      RecordKeepsRows(s.rows, d, reply, index, ChunkRow(reply, ref, w.now), s.rows[ChunkKey(d, index) := ChunkRow(reply, ref, w.now)]);
    }
  }

  lemma SendStepKeepsContiguous(s: State, d: Str, reply: Reply, index: nat, w: World)
    requires Contiguous(s.rows) && index < |reply.chunks|
    ensures Contiguous(SendStep(s, d, reply, index, w).state.rows)
  {
    if !w.stops && w.answer.Ack? {
      var acked := Observe(Observe(s, Attempted(d, reply, index)), Acknowledged(d, reply, index, w.answer.id));
      RecordStepKeepsContiguous(acked, d, reply, index, w.answer.id, w);
    }
  }

  lemma {:induction false} SendFromKeepsContiguous(s: State, d: Str, reply: Reply, index: nat, worlds: seq<World>, r: Sent)
    requires Contiguous(s.rows) && r == SendFrom(s, d, reply, index, worlds)
    ensures Contiguous(r.state.rows)
    decreases |reply.chunks| - index
  {
    if index < |reply.chunks| {
      var w, next := At(worlds, 3 + index), index + 1;
      var one := SendStep(s, d, reply, index, w);
      SendStepKeepsContiguous(s, d, reply, index, w);
      if one.ok { SendFromKeepsContiguous(one.state, d, reply, next, worlds, r); }
    }
  }

  /** Even after pruning, when the journal says more than the tables, progress stays a prefix of one reply. */
  lemma DeliverKeepsContiguous(s: State, d: Str, offer: Offer, worlds: seq<World>)
    requires Contiguous(s.rows)
    ensures Contiguous(DeliverStep(s, d, offer, worlds).rows)
  {
    if offer.Deliverable? {
      var next := NextIndex(s.rows, d, 0);
      SendFromKeepsContiguous(s, d, offer.reply, next, worlds, SendFrom(s, d, offer.reply, next, worlds));
    }
  }

  // ---- The connector ----

  /** From place n on, every event of the journal came when it might. */
  ghost predicate OrderedFrom(log: seq<Event>, n: nat) { forall p :: n <= p < |log| ==> InOrder(log[..p], log[p]) }

  lemma AfterOneMore(attempts: seq<Attempt>, last: Attempt, all: seq<Attempt>)
    requires all == attempts + [last]
    ensures After(all) == DeliverStep(After(attempts), last.delivery, last.offer, last.worlds)
  {
    assert all[..|all| - 1] == attempts;
  }

  lemma SoundIsOrdered(attempts: seq<Attempt>, n: nat)
    ensures Sound(After(attempts)) && OrderedFrom(After(attempts).log, n)
  {
    EveryRunIsSound(attempts);
    forall p | n <= p < |After(attempts).log| ensures InOrder(After(attempts).log[..p], After(attempts).log[p]) {
      OrderlyAt(After(attempts).log, p);
    }
  }

  /** What an attempt leaves: the attempts recorded with it account for the state, which is sound and in order. */
  ghost predicate Accounts(attempts: seq<Attempt>, s: State, n: nat) {
    s == After(attempts) && Sound(s) && OrderedFrom(s.log, n)
  }

  lemma AttemptAccounts(attempts: seq<Attempt>, last: Attempt, all: seq<Attempt>, s: State, after: State, n: nat)
    requires s == After(attempts) && all == attempts + [last]
    requires after == DeliverStep(s, last.delivery, last.offer, last.worlds)
    ensures Accounts(all, after, n)
  {
    AfterOneMore(attempts, last, all);
    SoundIsOrdered(all, n);
  }

  class Connector {
    var rows: map<ChunkKey, ChunkRow>
    var sent: map<Str, SentRow>
    /** Not the connector's own state: the journal of what the outside has seen. */
    var log: seq<Event>
    /** The attempts so far, and whether anything was pruned. */
    ghost var attempts: seq<Attempt>
    ghost var pruned: bool

    function Contents(): State
      reads this
    {
      State(rows, sent, log)
    }

    ghost predicate Valid()
      reads this
    {
      Contiguous(rows) && (!pruned ==> Contents() == After(attempts))
    }

    constructor ()
      ensures Valid() && attempts == [] && !pruned
    {
      rows, sent, log := map[], map[], [];
      attempts, pruned := [], false;
    }

    method RecordChunk(d: Str, reply: Reply, index: nat, ref: Str, w: World) returns (ok: bool)
      modifies this`rows, this`log
      ensures Sent(Contents(), ok) == RecordStep(old(Contents()), d, reply, index, ref, w)
    {
      if d == [] || index >= MAX_CHUNKS || !ValidSnowflake(ref) || w.storeFails { return false; }
      var refs := ReadSentChunks(rows, d, reply);
      if refs.None? { return false; }
      if index < |refs.value| && refs.value[index] == ref { return true; }
      if index != |refs.value| { return false; }
      rows := rows[ChunkKey(d, index) := ChunkRow(reply, ref, w.now)];
      log := log + [Recorded(d, index)];
      return true;
    }

    method SendChunk(d: Str, reply: Reply, index: nat, w: World) returns (ok: bool, id: Str)
      modifies this`rows, this`log
      ensures Sent(Contents(), ok) == SendStep(old(Contents()), d, reply, index, w)
      ensures ok ==> ChunkKey(d, index) in rows && rows[ChunkKey(d, index)].ref == id
      ensures ok ==> forall k :: k in old(rows) && k.index != index ==> k in rows && rows[k] == old(rows)[k]
      ensures ok ==> forall k :: k in rows && k.index != index ==> k in old(rows)
    {
      if w.stops { return false, []; }
      log := log + [Attempted(d, reply, index)];
      if w.answer.OtherError? { return false, []; }
      if w.answer.ApiError? {
        log := log + [Refused(d, w.answer.error)];
        if w.storeFails { return false, []; }
        log := log + [Told(d, Classify(w.answer.error))];
        return false, [];
      }
      id := w.answer.id;
      log := log + [Acknowledged(d, reply, index, id)];
      ok := RecordChunk(d, reply, index, id, w);
    }

    /** The loop over the chunks; those already recorded are passed over. */
    method SendChunks(d: Str, reply: Reply, refs: seq<Str>, worlds: seq<World>) returns (ok: bool, providerRef: Str)
      requires FirstRef(rows, d) == (if |refs| > 0 then refs[0] else []) && |refs| <= |reply.chunks|
      modifies this`rows, this`log
      ensures Sent(Contents(), ok) == SendFrom(old(Contents()), d, reply, |refs|, worlds)
      ensures ok ==> providerRef == FirstRef(rows, d)
    {
      providerRef := if |refs| > 0 then refs[0] else [];
      for index := |refs| to |reply.chunks|
        invariant SendFrom(Contents(), d, reply, index, worlds) == SendFrom(old(Contents()), d, reply, |refs|, worlds)
        invariant providerRef == FirstRef(rows, d)
      {
        var done, id := SendChunk(d, reply, index, At(worlds, 3 + index));
        if !done { return false, providerRef; }
        if index == 0 { providerRef := id; }
      }
      return true, providerRef;
    }

    /**
     One attempt, stopped anywhere. As long as nothing was pruned, what it adds to the journal is in order: no
     chunk before its predecessors are recorded, none that is recorded, and "delivered" only when all of one
     reply is acknowledged. Recorded progress stays a prefix of one reply in any case.
     */
    method Deliver(d: Str, offer: Offer, worlds: seq<World>)
      requires Valid()
      modifies this
      ensures Valid() && attempts == old(attempts) + [Attempt(d, offer, worlds)] && pruned == old(pruned)
      ensures !pruned ==> Sound(Contents()) && OrderedFrom(log, |old(log)|)
      ensures Contents() == DeliverStep(old(Contents()), d, offer, worlds)
    {
      DeliverSteps(d, offer, worlds);
      RecordAttempt(d, offer, worlds, old(Contents()));
    }

    ghost method RecordAttempt(d: Str, offer: Offer, worlds: seq<World>, before: State)
      requires Contiguous(before.rows) && (!pruned ==> before == After(attempts))
      requires Contents() == DeliverStep(before, d, offer, worlds)
      modifies this`attempts
      ensures attempts == old(attempts) + [Attempt(d, offer, worlds)]
      ensures Valid() && (!pruned ==> Sound(Contents()) && OrderedFrom(log, |before.log|))
    {
      ghost var all := attempts + [Attempt(d, offer, worlds)];
      DeliverKeepsContiguous(before, d, offer, worlds);
      if !pruned { AttemptAccounts(attempts, Attempt(d, offer, worlds), all, before, Contents(), |before.log|); }
      attempts := all;
    }

    /** The attempt, interaction by interaction. */
    method DeliverSteps(d: Str, offer: Offer, worlds: seq<World>)
      modifies this`rows, this`sent, this`log
      ensures Contents() == DeliverStep(old(Contents()), d, offer, worlds)
    {
      if At(worlds, 0).stops || At(worlds, 0).storeFails { return; }
      if d in sent {
        log := log + [Told(d, Delivered(sent[d].ref))];
        return;
      }
      if offer.WrongConversation? {
        log := log + [Told(d, PermanentFailure(Core.ConnectorInternal))];
        return;
      }
      if offer.Unsplittable? {
        log := log + [Told(d, PermanentFailure(Core.ContentRejected))];
        return;
      }
      var reply := offer.reply;
      var refs := ReadSentChunks(rows, d, reply);
      if refs.None? || |refs.value| > |reply.chunks| { return; }
      var ok, providerRef := SendChunks(d, reply, refs.value, worlds);
      if !ok { return; }
      if providerRef == [] {
        log := log + [Told(d, PermanentFailure(Core.ConnectorInternal))];
        return;
      }
      if d == [] || At(worlds, 1).stops || At(worlds, 1).storeFails { return; }
      if d !in sent { sent := sent[d := SentRow(providerRef, At(worlds, 1).now)]; }
      if At(worlds, 2).stops { return; }
      log := log + [Told(d, Delivered(providerRef))];
    }

    /** PruneSent: whole deliveries go at once, so what is left is still a prefix of one reply each. */
    method PruneSent(olderThan: int)
      requires Valid()
      modifies this`rows, this`sent, this`pruned
      ensures Valid() && pruned
      ensures forall k :: k in rows ==> k in old(rows) && rows[k] == old(rows)[k]
      ensures forall k :: k in old(rows) ==> (k in rows <==> Kept(old(rows), k.delivery, olderThan))
      ensures forall d :: d in sent ==> d in old(sent) && sent[d] == old(sent)[d]
      ensures forall d :: d in old(sent) ==> (d in sent <==> old(sent)[d].sentAt >= olderThan)
    {
      pruned := true;
      sent := map d | d in sent && sent[d].sentAt >= olderThan :: sent[d];
      ghost var before := rows;
      rows := map k | k in rows && Kept(rows, k.delivery, olderThan) :: rows[k];
      PruneKeepsContiguous(before, rows, olderThan);
    }
  }
}
