/** The bytes agentd feeds to SHA-256 for an inbound event, and a decoder that inverts them. */
module EventEncoding {
  import opened GoTypes
  import opened Utf8

  const TWO_63: int := 0x8000_0000_0000_0000

  /** A Go string: its length fits an int. */
  type GoString = s: Str | |s| < TWO_63 witness []

  type Int64 = x: int | -TWO_63 <= x < TWO_63 witness 0

  datatype Action = Action(kind: GoString, targetAlias: GoString)

  /** InboundEventV1. */
  datatype Event = Event(
    eventId: GoString, actor: GoString, conversation: GoString, message: GoString, occurredAt: Int64,
    contentType: GoString, text: GoString, action: Option<Action>)

  const DOMAIN_STEM: Str := Ascii("harnessgateway.local/core/agentservice/inbound-event/v")
  const DOMAIN_V1: Str := DOMAIN_STEM + [0x31]
  const DOMAIN_V2: Str := DOMAIN_STEM + [0x32]

  // ---- Fixed-width integers ----

  function Pow256(k: nat): (p: nat)
    ensures p >= 1
  {
    if k == 0 then 1 else 256 * Pow256(k - 1)
  }

  /** The k low bytes of n, most significant first. */
  function BigEndian(n: nat, k: nat): (s: Str)
    ensures |s| == k
  {
    if k == 0 then [] else BigEndian(n / 256, k - 1) + [(n % 256) as byte]
  }

  function FromBigEndian(s: Str): nat {
    if |s| == 0 then 0 else FromBigEndian(s[..|s| - 1]) * 256 + s[|s| - 1] as nat
  }

  lemma {:induction false} BigEndianReads(n: nat, k: nat)
    requires n < Pow256(k)
    ensures FromBigEndian(BigEndian(n, k)) == n
    decreases k
  {
    if k > 0 {
      var s := BigEndian(n, k);
      BigEndianReads(n / 256, k - 1);
      assert s[..k - 1] == BigEndian(n / 256, k - 1);
    }
  }

  lemma Pow256Of8()
    ensures Pow256(8) == TWO_64
  {
    assert Pow256(2) == 65536 && Pow256(4) == 0x1_0000_0000;
    assert Pow256(6) == 256 * (256 * Pow256(4));
  }

  /** binary.BigEndian.PutUint64(uint64(x)): a negative int64 wraps to its two's complement. */
  function Put64(x: int): (s: Str)
    ensures |s| == 8
  {
    BigEndian(x % TWO_64, 8)
  }

  function Get64(s: Str): int
    requires |s| == 8
  {
    Wrap64(FromBigEndian(s))
  }

  lemma Int64AsUint64(x: Int64)
    ensures x % TWO_64 == if x >= 0 then x else x + TWO_64
    ensures Wrap64(x % TWO_64) == x
  {
    var u := if x >= 0 then x else x + TWO_64;
    assert u % TWO_64 == u;
    if x < 0 { assert (x + TWO_64) % TWO_64 == x % TWO_64; }
  }

  lemma Put64Reads(x: Int64)
    ensures Get64(Put64(x)) == x
    ensures x >= 0 ==> FromBigEndian(Put64(x)) == x
  {
    Pow256Of8();
    Int64AsUint64(x);
    BigEndianReads(x % TWO_64, 8);
  }

  // ---- Encoding ----

  /** writeHashString: eight length bytes, then the string. */
  function Framed(s: GoString): Str { Put64(|s|) + s }

  function ActionBytes(a: Option<Action>): Str {
    match a
    case None => [0]
    case Some(a) => [1] + Framed(a.kind) + Framed(a.targetAlias)
  }

  function ContentBytes(e: Event): Str { Framed(e.contentType) + (Framed(e.text) + ActionBytes(e.action)) }

  /** The bytes after the domain and, from version 2 on, the connector. */
  function EventBytes(e: Event): Str {
    Framed(e.eventId) + (Framed(e.actor) + (Framed(e.conversation) + (Framed(e.message) + (Put64(e.occurredAt)
      + ContentBytes(e)))))
  }

  lemma Regroup(s: Str, a: Str, b: Str, c: Str)
    ensures s + a + b + c == s + (a + (b + c))
  {
  }

  lemma RegroupAll(s: Str, a: Str, b: Str, c: Str, d: Str, t: Str, rest: Str, out: Str)
    requires out == s + a + b + c + d + t + rest
    ensures out == s + (a + (b + (c + (d + (t + rest)))))
  {
    Regroup(s + a + b + c, d, t, rest);
    Regroup(s + a, b, c, d + (t + rest));
    assert s + a + (b + (c + (d + (t + rest)))) == s + (a + (b + (c + (d + (t + rest)))));
  }

  function EncodeV2(connector: GoString, e: Event): Str { Framed(DOMAIN_V2) + (Framed(connector) + EventBytes(e)) }

  function EncodeV1(e: Event): Str { Framed(DOMAIN_V1) + EventBytes(e) }

  /** The hasher, as the buffer of everything written to it. */
  class Hasher {
    var buffer: Str

    constructor ()
      ensures buffer == []
    {
      buffer := [];
    }

    method Write(data: Str)
      modifies this
      ensures buffer == old(buffer) + data
    {
      buffer := buffer + data;
    }

    method WriteString(value: GoString)
      modifies this
      ensures buffer == old(buffer) + Framed(value)
    {
      Write(Put64(|value|));
      Write(value);
    }

    method WriteAction(a: Option<Action>)
      modifies this
      ensures buffer == old(buffer) + ActionBytes(a)
    {
      match a
      case None => Write([0]);
      case Some(action) =>
        Write([1]);
        WriteString(action.kind);
        WriteString(action.targetAlias);
        assert buffer == old(buffer) + ([1] + Framed(action.kind) + Framed(action.targetAlias));
    }

    method WriteContent(e: Event)
      modifies this
      ensures buffer == old(buffer) + ContentBytes(e)
    {
      WriteString(e.contentType);
      WriteString(e.text);
      WriteAction(e.action);
      Regroup(old(buffer), Framed(e.contentType), Framed(e.text), ActionBytes(e.action));
    }

    method WriteEvent(e: Event)
      modifies this
      ensures buffer == old(buffer) + EventBytes(e)
    {
      var begun := buffer;
      WriteString(e.eventId);
      WriteString(e.actor);
      WriteString(e.conversation);
      WriteString(e.message);
      Write(Put64(e.occurredAt));
      WriteContent(e);
      RegroupAll(begun, Framed(e.eventId), Framed(e.actor), Framed(e.conversation), Framed(e.message), Put64(e.occurredAt),
                 ContentBytes(e), buffer);
    }
  }

  method PreHash(connector: GoString, e: Event) returns (bytes: Str)
    ensures bytes == EncodeV2(connector, e)
  {
    var hasher := new Hasher();
    hasher.WriteString(DOMAIN_V2);
    hasher.WriteString(connector);
    hasher.WriteEvent(e);
    Regroup([], Framed(DOMAIN_V2), Framed(connector), EventBytes(e));
    return hasher.buffer;
  }

  method PreHashV1(e: Event) returns (bytes: Str)
    ensures bytes == EncodeV1(e)
  {
    var hasher := new Hasher();
    hasher.WriteString(DOMAIN_V1);
    hasher.WriteEvent(e);
    return hasher.buffer;
  }

  // ---- Decoding ----

  /** A parse: the value read and the bytes left. */
  type Parsed<T> = Option<Pair<T, Str>>

  function ReadString(s: Str): Parsed<Str> {
    if |s| < 8 then None
    else
      var n := FromBigEndian(s[..8]);
      if |s| - 8 < n then None else Some(Pair(s[8..8 + n], s[8 + n..]))
  }

  function ReadInt64(s: Str): Parsed<int> { if |s| < 8 then None else Some(Pair(Get64(s[..8]), s[8..])) }

  /** What a decoder gets back; field by field it is the event that was encoded. */
  datatype Fields = Fields(
    eventId: Str, actor: Str, conversation: Str, message: Str, occurredAt: int, contentType: Str, text: Str,
    action: Option<Pair<Str, Str>>)

  function FieldsOf(e: Event): Fields {
    Fields(e.eventId, e.actor, e.conversation, e.message, e.occurredAt, e.contentType, e.text,
           if e.action.None? then None else Some(Pair(e.action.value.kind, e.action.value.targetAlias)))
  }

  function DecodeAction(s: Str): Parsed<Option<Pair<Str, Str>>> {
    if |s| == 0 then None
    else if s[0] == 0 then Some(Pair(None, s[1..]))
    else if s[0] != 1 then None
    else
      var kind := ReadString(s[1..]);
      if kind.None? then None
      else
        var alias := ReadString(kind.value.snd);
        if alias.None? then None else Some(Pair(Some(Pair(kind.value.fst, alias.value.fst)), alias.value.snd))
  }

  function DecodeContent(s: Str): Option<Pair<Pair<Str, Str>, Option<Pair<Str, Str>>>> {
    var contentType := ReadString(s);
    if contentType.None? then None
    else
      var text := ReadString(contentType.value.snd);
      if text.None? then None
      else
        var action := DecodeAction(text.value.snd);
        if action.None? || action.value.snd != [] then None
        else Some(Pair(Pair(contentType.value.fst, text.value.fst), action.value.fst))
  }

  function DecodeEvent(s: Str): Option<Fields> {
    var eventId := ReadString(s);
    if eventId.None? then None
    else
      var actor := ReadString(eventId.value.snd);
      if actor.None? then None
      else
        var conversation := ReadString(actor.value.snd);
        if conversation.None? then None
        else
          var message := ReadString(conversation.value.snd);
          if message.None? then None
          else
            var at := ReadInt64(message.value.snd);
            if at.None? then None
            else
              var content := DecodeContent(at.value.snd);
              if content.None? then None
              else
                Some(Fields(eventId.value.fst, actor.value.fst, conversation.value.fst, message.value.fst, at.value.fst,
                            content.value.fst.fst, content.value.fst.snd, content.value.snd))
  }

  function DecodeV2(s: Str): Option<Pair<Str, Fields>> {
    var domain := ReadString(s);
    if domain.None? || domain.value.fst != DOMAIN_V2 then None
    else
      var connector := ReadString(domain.value.snd);
      if connector.None? then None
      else
        var event := DecodeEvent(connector.value.snd);
        if event.None? then None else Some(Pair(connector.value.fst, event.value))
  }

  // ---- The decoder inverts the encoding ----

  lemma FramedReads(s: GoString, rest: Str)
    ensures ReadString(Framed(s) + rest) == Some(Pair(s, rest))
  {
    Put64Reads(|s|);
    var all := Framed(s) + rest;
    assert all[..8] == Put64(|s|) && all[8..8 + |s|] == s && all[8 + |s|..] == rest;
  }

  lemma Int64Reads(x: Int64, rest: Str)
    ensures ReadInt64(Put64(x) + rest) == Some(Pair(x, rest))
  {
    Put64Reads(x);
    assert (Put64(x) + rest)[..8] == Put64(x) && (Put64(x) + rest)[8..] == rest;
  }

  lemma ActionReads(a: Option<Action>)
    ensures DecodeAction(ActionBytes(a)) == Some(Pair(if a.None? then None else Some(Pair(a.value.kind, a.value.targetAlias)), []))
  {
    if a.None? {
      assert ActionBytes(a)[1..] == [];
    } else {
      var kind, alias := Framed(a.value.kind), Framed(a.value.targetAlias);
      assert ActionBytes(a)[1..] == kind + (alias + []);
      FramedReads(a.value.kind, alias + []);
      FramedReads(a.value.targetAlias, []);
    }
  }

  lemma ContentReads(e: Event)
    ensures DecodeContent(ContentBytes(e)) == Some(Pair(Pair(e.contentType, e.text), FieldsOf(e).action))
  {
    FramedReads(e.contentType, Framed(e.text) + ActionBytes(e.action));
    FramedReads(e.text, ActionBytes(e.action));
    ActionReads(e.action);
  }

  lemma EventReads(e: Event)
    ensures DecodeEvent(EventBytes(e)) == Some(FieldsOf(e))
  {
    var content := ContentBytes(e);
    var at := Put64(e.occurredAt) + content;
    var message := Framed(e.message) + at;
    var conversation := Framed(e.conversation) + message;
    var actor := Framed(e.actor) + conversation;
    FramedReads(e.eventId, actor);
    FramedReads(e.actor, conversation);
    FramedReads(e.conversation, message);
    FramedReads(e.message, at);
    Int64Reads(e.occurredAt, content);
    ContentReads(e);
  }

  /** Decoding what was encoded gives the connector and every field of the event back. */
  lemma DecodeInvertsEncode(connector: GoString, e: Event)
    ensures DecodeV2(EncodeV2(connector, e)) == Some(Pair(connector, FieldsOf(e)))
  {
    FramedReads(DOMAIN_V2, Framed(connector) + EventBytes(e));
    FramedReads(connector, EventBytes(e));
    EventReads(e);
  }

  lemma FieldsDetermineEvent(a: Event, b: Event)
    requires FieldsOf(a) == FieldsOf(b)
    ensures a == b
  {
  }

  /** Equal bytes before hashing come from equal connectors and equal events. */
  lemma EncodingIsInjective(c: GoString, e: Event, d: GoString, f: Event)
    requires EncodeV2(c, e) == EncodeV2(d, f)
    ensures c == d && e == f
  {
    DecodeInvertsEncode(c, e);
    DecodeInvertsEncode(d, f);
    FieldsDetermineEvent(e, f);
  }

  lemma EncodingV1IsInjective(e: Event, f: Event)
    requires EncodeV1(e) == EncodeV1(f)
    ensures e == f
  {
    FramedReads(DOMAIN_V1, EventBytes(e));
    FramedReads(DOMAIN_V1, EventBytes(f));
    EventReads(e);
    EventReads(f);
    FieldsDetermineEvent(e, f);
  }

  /** No event hashes under one version as any event under the other. */
  lemma VersionsNeverCollide(c: GoString, e: Event, f: Event)
    ensures EncodeV2(c, e) != EncodeV1(f)
  {
    FramedReads(DOMAIN_V2, Framed(c) + EventBytes(e));
    FramedReads(DOMAIN_V1, EventBytes(f));
    assert DOMAIN_V1[|DOMAIN_STEM|] != DOMAIN_V2[|DOMAIN_STEM|];
  }
}
