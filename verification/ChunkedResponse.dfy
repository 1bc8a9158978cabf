/** The endpoint's bounded response loop, against a decoder for chunked transfer coding (section 7.1 of RFC 9112). */
module ChunkedResponse {
  import opened GoTypes

  const MAX_BODY_BYTES := 2097152
  const BUFFER_BYTES := 32768
  const CR: byte := 0x0D
  const LF: byte := 0x0A
  const CRLF: Str := [CR, LF]
  const FINAL_CHUNK: Str := [0x30, CR, LF, CR, LF]

  // ---- Sizes in hexadecimal ----

  function HexDigit(v: nat): byte
    requires v < 16
  {
    if v < 10 then (0x30 + v) as byte else (0x57 + v) as byte
  }

  /** The %x verb. */
  function Hex(n: nat): (h: Str)
    ensures |h| > 0
  {
    if n < 16 then [HexDigit(n)] else Hex(n / 16) + [HexDigit(n % 16)]
  }

  /** HEXDIG in either case. */
  function DigitValue(b: byte): Option<nat> {
    if 0x30 <= b <= 0x39 then Some((b - 0x30) as nat)
    else if 0x61 <= b <= 0x66 then Some((b - 0x57) as nat)
    else if 0x41 <= b <= 0x46 then Some((b - 0x37) as nat)
    else None
  }

  // ---- The decoder ----

  /** chunk-size CRLF: the size read and what follows; None when the line is malformed or not all there. */
  function ReadSize(s: Str, size: nat, digits: bool): (r: Option<Pair<nat, Str>>)
    ensures r.Some? ==> |r.value.snd| < |s|
    decreases |s|
  {
    if |s| == 0 then None
    else if DigitValue(s[0]).Some? then ReadSize(s[1..], size * 16 + DigitValue(s[0]).value, true)
    else if digits && |s| >= 2 && s[0] == CR && s[1] == LF then Some(Pair(size, s[2..]))
    else None
  }

  /** The data a recipient has after any part of a stream, and whether the message is complete. */
  datatype Decoded = Decoded(data: Str, complete: bool)

  function Decode(s: Str): Decoded
    decreases |s|
  {
    var line := ReadSize(s, 0, false);
    if line.None? then Decoded([], false)
    else
      var size, rest := line.value.fst, line.value.snd;
      if size == 0 then Decoded([], |rest| >= 2 && rest[..2] == CRLF)
      else if |rest| < size then Decoded(rest, false)
      else if |rest| < size + 2 || rest[size..size + 2] != CRLF then Decoded(rest[..size], false)
      else
        var later := Decode(rest[size + 2..]);
        Decoded(rest[..size] + later.data, later.complete)
  }

  // ---- One chunk through the decoder ----

  function Chunk(data: Str): Str { Hex(|data|) + CRLF + data + CRLF }

  lemma {:induction false} HexReads(n: nat, tail: Str)
    ensures ReadSize(Hex(n) + tail, 0, false) == ReadSize(tail, n, true)
    decreases n
  {
    if n < 16 {
      assert (Hex(n) + tail)[1..] == tail;
    } else {
      var last := [HexDigit(n % 16)];
      assert Hex(n) + tail == Hex(n / 16) + (last + tail);
      HexReads(n / 16, last + tail);
      assert (last + tail)[1..] == tail;
    }
  }

  lemma {:induction false} HexIsDigits(n: nat)
    ensures forall i :: 0 <= i < |Hex(n)| ==> DigitValue(Hex(n)[i]).Some?
    decreases n
  {
    if n >= 16 { HexIsDigits(n / 16); }
  }

  /** A size line cut short reads as nothing. */
  lemma {:induction false} ShortLineIsUnread(s: Str, size: nat, digits: bool)
    requires |s| > 0 ==> forall i :: 0 <= i < |s| - 1 ==> DigitValue(s[i]).Some?
    requires |s| > 0 ==> DigitValue(s[|s| - 1]).Some? || s[|s| - 1] == CR
    ensures ReadSize(s, size, digits).None?
    decreases |s|
  {
    if |s| > 0 && DigitValue(s[0]).Some? { ShortLineIsUnread(s[1..], size * 16 + DigitValue(s[0]).value, true); }
  }

  lemma SizeLineReads(n: nat, rest: Str)
    ensures ReadSize(Hex(n) + CRLF + rest, 0, false) == Some(Pair(n, rest))
  {
    assert Hex(n) + CRLF + rest == Hex(n) + (CRLF + rest);
    HexReads(n, CRLF + rest);
    assert (CRLF + rest)[2..] == rest;
  }

  lemma ChunkDecodes(data: Str, tail: Str)
    requires |data| > 0
    ensures Decode(Chunk(data) + tail) == Decoded(data + Decode(tail).data, Decode(tail).complete)
  {
    var rest := data + CRLF + tail;
    assert Chunk(data) + tail == Hex(|data|) + CRLF + rest;
    SizeLineReads(|data|, rest);
    assert rest[..|data|] == data && rest[|data|..|data| + 2] == CRLF && rest[|data| + 2..] == tail;
  }

  /** A chunk cut anywhere decodes to a prefix of its data and is never the end of the message. */
  lemma CutChunkDecodes(data: Str, k: nat)
    requires |data| > 0 && k <= |Chunk(data)|
    ensures Decode(Chunk(data)[..k]).data <= data && !Decode(Chunk(data)[..k]).complete
  {
    var cut, head := Chunk(data)[..k], |Hex(|data|)| + 2;
    HexIsDigits(|data|);
    if k < head {
      forall i | 0 <= i < |cut| - 1 ensures DigitValue(cut[i]).Some? { assert cut[i] == Hex(|data|)[i]; }
      ShortLineIsUnread(cut, 0, false);
    } else {
      var rest := (data + CRLF)[..k - head];
      assert cut == Hex(|data|) + CRLF + rest;
      SizeLineReads(|data|, rest);
      if |rest| == |data| + 2 { assert rest == data + CRLF; assert rest[|data| + 2..] == []; assert rest[..|data|] == data; }
      else if |rest| >= |data| { assert rest[..|data|] == data; }
    }
  }

  lemma CutFinalDecodes(k: nat)
    requires k <= 5
    ensures Decode(FINAL_CHUNK[..k]) == Decoded([], k == 5)
  {
    assert DigitValue(0x30) == Some(0);
    var cut := FINAL_CHUNK[..k];
    if k < 3 {
      assert forall i :: 0 <= i < |cut| ==> cut[i] == FINAL_CHUNK[i];
      ShortLineIsUnread(cut, 0, false);
    } else {
      var rest := FINAL_CHUNK[3..k];
      assert Hex(0) == [0x30];
      assert cut == Hex(0) + CRLF + rest;
      SizeLineReads(0, rest);
      assert |rest| == k - 3;
      if k == 5 { assert rest == CRLF && rest[..2] == CRLF; }
    }
  }

  // ---- A stream of chunks ----

  function Concat(chunks: seq<Str>): Str { if |chunks| == 0 then [] else Concat(chunks[..|chunks| - 1]) + chunks[|chunks| - 1] }

  function Encode(chunks: seq<Str>): Str {
    if |chunks| == 0 then [] else Encode(chunks[..|chunks| - 1]) + Chunk(chunks[|chunks| - 1])
  }

  /** Whatever follows whole chunks is decoded as if it stood alone, after their data. */
  lemma {:induction false} ChunksDecode(chunks: seq<Str>, tail: Str)
    requires forall i :: 0 <= i < |chunks| ==> |chunks[i]| > 0
    ensures Decode(Encode(chunks) + tail) == Decoded(Concat(chunks) + Decode(tail).data, Decode(tail).complete)
    decreases |chunks|
  {
    if |chunks| == 0 {
      assert Encode(chunks) + tail == tail;
    } else {
      var init, last := chunks[..|chunks| - 1], chunks[|chunks| - 1];
      assert Encode(chunks) + tail == Encode(init) + (Chunk(last) + tail);
      ChunksDecode(init, Chunk(last) + tail);
      ChunkDecodes(last, tail);
      assert Concat(init) + (last + Decode(tail).data) == Concat(chunks) + Decode(tail).data;
    }
  }

  // ---- The loop ----

  /** The k-th read: how many bytes the body gives at most, whether it reports its end, an error or a cancelled call. */
  datatype ReadPlan = ReadPlan(gives: nat, reportsEnd: bool, fails: bool, cancelled: bool)

  /** A write that succeeds, or one that fails after some of its bytes went out. */
  datatype WritePlan = Written | Broken(after: nat)

  function Min(a: int, b: int): int { if a < b then a else b }

  function Send(sent: Str, data: Str, plan: WritePlan): Str {
    if plan.Written? || plan.after >= |data| then sent + data else sent + data[..plan.after]
  }

  /** The two writes before and after the data, and the data itself, as one cut of the chunk. */
  lemma ThreeWritesAreOneCut(sent: Str, data: Str, a: nat)
    ensures a <= |Hex(|data|) + CRLF| ==> sent + (Hex(|data|) + CRLF)[..a] == sent + Chunk(data)[..a]
    ensures a <= |data| ==> (sent + (Hex(|data|) + CRLF)) + data[..a] == sent + Chunk(data)[..|Hex(|data|)| + 2 + a]
    ensures a <= 2 ==> (sent + (Hex(|data|) + CRLF) + data) + CRLF[..a] == sent + Chunk(data)[..|Hex(|data|)| + 2 + |data| + a]
    ensures sent + (Hex(|data|) + CRLF) + data + CRLF == sent + Chunk(data)
  {
  }

  method WriteChunk(sent: Str, data: Str, plans: seq<WritePlan>) returns (out: Str, ok: bool)
    requires |plans| == 3
    ensures ok <==> plans == [Written, Written, Written]
    ensures ok ==> out == sent + Chunk(data)
    ensures !ok ==> exists k :: 0 <= k <= |Chunk(data)| && out == sent + Chunk(data)[..k]
  {
    var line := Hex(|data|) + CRLF;
    out := Send(sent, line, plans[0]);
    if plans[0].Broken? {
      ghost var k := Min(plans[0].after, |line|);
      assert line[..|line|] == line;
      ThreeWritesAreOneCut(sent, data, k);
      return out, false;
    }
    out := Send(out, data, plans[1]);
    if plans[1].Broken? {
      ghost var k := Min(plans[1].after, |data|);
      assert data[..|data|] == data;
      ThreeWritesAreOneCut(sent, data, k);
      return out, false;
    }
    out := Send(out, CRLF, plans[2]);
    if plans[2].Broken? {
      ghost var k := Min(plans[2].after, 2);
      assert CRLF[..2] == CRLF;
      ThreeWritesAreOneCut(sent, data, k);
      return out, false;
    }
    ThreeWritesAreOneCut(sent, data, 0);
    return out, true;
  }

  /** The stream so far: whole chunks that carry the body up to pos. */
  ghost predicate Carries(sent: Str, chunks: seq<Str>, body: Str, pos: nat) {
    && pos <= |body| && sent == Encode(chunks) && Concat(chunks) == body[..pos]
    && forall i :: 0 <= i < |chunks| ==> |chunks[i]| > 0
  }

  lemma CarriesMore(sent: Str, chunks: seq<Str>, body: Str, pos: nat, n: nat)
    requires Carries(sent, chunks, body, pos) && n > 0 && pos + n <= |body|
    ensures Carries(sent + Chunk(body[pos..pos + n]), chunks + [body[pos..pos + n]], body, pos + n)
  {
    var more := chunks + [body[pos..pos + n]];
    assert more[..|more| - 1] == chunks;
    assert body[..pos] + body[pos..pos + n] == body[..pos + n];
  }

  /** What the recipient makes of a stream of whole chunks and a cut piece after them. */
  ghost predicate Faithful(sent: Str, body: Str) {
    var d := Decode(sent);
    d.data <= body && |d.data| <= MAX_BODY_BYTES && (d.complete ==> d.data == body)
  }

  lemma CutStreamIsFaithful(sent: Str, chunks: seq<Str>, body: Str, pos: nat, n: nat, k: nat)
    requires Carries(sent, chunks, body, pos) && pos + n <= |body| && pos + n <= MAX_BODY_BYTES
    requires n > 0 && k <= |Chunk(body[pos..pos + n])|
    ensures Faithful(sent + Chunk(body[pos..pos + n])[..k], body) && !Decode(sent + Chunk(body[pos..pos + n])[..k]).complete
  {
    var piece := Chunk(body[pos..pos + n])[..k];
    ChunksDecode(chunks, piece);
    CutChunkDecodes(body[pos..pos + n], k);
    var part := Decode(piece).data;
    assert body[..pos] + part == body[..pos + |part|] by { assert part == body[pos..pos + n][..|part|]; }
  }

  lemma WholeChunksAreFaithful(sent: Str, chunks: seq<Str>, body: Str, pos: nat)
    requires Carries(sent, chunks, body, pos) && pos <= MAX_BODY_BYTES
    ensures Faithful(sent, body) && !Decode(sent).complete
  {
    ChunksDecode(chunks, []);
    assert sent + [] == sent;
  }

  lemma FinalIsFaithful(sent: Str, chunks: seq<Str>, body: Str, k: nat)
    requires Carries(sent, chunks, body, |body|) && |body| <= MAX_BODY_BYTES && k <= 5
    ensures Faithful(sent + FINAL_CHUNK[..k], body) && (Decode(sent + FINAL_CHUNK[..k]).complete <==> k == 5)
  {
    ChunksDecode(chunks, FINAL_CHUNK[..k]);
    CutFinalDecodes(k);
    assert body[..|body|] == body && Concat(chunks) + [] == body;
  }

  /** The final chunk goes out only after a clean end of the whole body. */
  method WriteFinal(sent: Str, ghost chunks: seq<Str>, body: Str, plan: WritePlan) returns (out: Str, complete: bool)
    requires Carries(sent, chunks, body, |body|) && |body| <= MAX_BODY_BYTES
    ensures Faithful(out, body) && (complete ==> Decode(out).complete) && (complete <==> plan.Written?)
  {
    ghost var k := if plan.Written? then 5 else Min(plan.after, 5);
    assert FINAL_CHUNK[..5] == FINAL_CHUNK;
    FinalIsFaithful(sent, chunks, body, k);
    return Send(sent, FINAL_CHUNK, plan), plan.Written?;
  }

  // ---- Bodies that stall ----

  /** How much of a body within the limit is read before the k-th read. */
  function ReadBefore(body: Str, plans: nat -> ReadPlan, k: nat): (pos: nat)
    ensures pos <= |body|
  {
    if k == 0 then 0
    else
      var pos := ReadBefore(body, plans, k - 1);
      pos + Min(plans(k - 1).gives, Min(BUFFER_BYTES, |body| - pos))
  }

  predicate GivesNothing(body: Str, plans: nat -> ReadPlan, k: nat) {
    ReadBefore(body, plans, k + 1) == ReadBefore(body, plans, k)
  }

  predicate Ends(body: Str, plans: nat -> ReadPlan, k: nat) { plans(k).reportsEnd && ReadBefore(body, plans, k + 1) == |body| }

  predicate ThreeEmptyReads(body: Str, plans: nat -> ReadPlan, k: nat) {
    GivesNothing(body, plans, k) && GivesNothing(body, plans, k + 1) && GivesNothing(body, plans, k + 2)
  }

  /** Three empty reads in a row, and no end reported up to the third. */
  ghost predicate Stalls(body: Str, plans: nat -> ReadPlan) {
    exists k: nat :: ThreeEmptyReads(body, plans, k) && forall j: nat :: j <= k + 2 ==> !Ends(body, plans, j)
  }

  /** Before the k-th read: no end, no three empty reads in a row, and the last `empty` reads the empty ones. */
  ghost predicate Reading(body: Str, plans: nat -> ReadPlan, k: nat, empty: nat) {
    && empty <= k
    && (forall j: nat :: j < k ==> !Ends(body, plans, j))
    && (forall j: nat :: j + 2 < k ==> !ThreeEmptyReads(body, plans, j))
    && (forall j: nat :: k - empty <= j < k ==> GivesNothing(body, plans, j))
    && (forall j: nat :: j == k - empty - 1 ==> !GivesNothing(body, plans, j))
  }

  lemma ReadingGoesOn(body: Str, plans: nat -> ReadPlan, k: nat, empty: nat, next: nat, more: nat)
    requires Reading(body, plans, k, empty) && !Ends(body, plans, k) && next == k + 1
    requires more == (if GivesNothing(body, plans, k) then empty + 1 else 0) && more < 3
    ensures Reading(body, plans, next, more)
  {
    if k >= 2 && ThreeEmptyReads(body, plans, k - 2) { assert GivesNothing(body, plans, k - 1) && GivesNothing(body, plans, k - 2); }
  }

  lemma ThirdEmptyReadStalls(body: Str, plans: nat -> ReadPlan, k: nat)
    requires Reading(body, plans, k, 2) && GivesNothing(body, plans, k) && !Ends(body, plans, k)
    ensures Stalls(body, plans)
  {
    assert ThreeEmptyReads(body, plans, k - 2);
  }

  lemma EndIsNoStall(body: Str, plans: nat -> ReadPlan, k: nat, empty: nat)
    requires Reading(body, plans, k, empty) && Ends(body, plans, k)
    ensures !Stalls(body, plans)
  {
  }

  lemma EmptyReadIsAtTheEnd(body: Str, plans: nat -> ReadPlan, k: nat)
    requires plans(k).gives > 0 && plans(k).reportsEnd && GivesNothing(body, plans, k)
    ensures Ends(body, plans, k)
  {
  }

  lemma ThreeEmptyReadsEnd(body: Str, plans: nat -> ReadPlan, k: nat)
    requires plans(k).gives > 0 || plans(k + 1).gives > 0 || plans(k + 2).gives > 0
    requires plans(k).reportsEnd && plans(k + 1).reportsEnd && plans(k + 2).reportsEnd && ThreeEmptyReads(body, plans, k)
    ensures Ends(body, plans, k) || Ends(body, plans, k + 1) || Ends(body, plans, k + 2)
  {
    if plans(k).gives > 0 { EmptyReadIsAtTheEnd(body, plans, k); }
    else if plans(k + 1).gives > 0 { EmptyReadIsAtTheEnd(body, plans, k + 1); }
    else { EmptyReadIsAtTheEnd(body, plans, k + 2); }
  }

  /** One of the reads k, k + 1 and k + 2 may give something. */
  predicate GivesSoon(plans: nat -> ReadPlan, k: nat) { plans(k).gives > 0 || plans(k + 1).gives > 0 || plans(k + 2).gives > 0 }

  /** A body that gives something in any three reads while it has anything left, and reports its end, never stalls. */
  lemma SteadyBodiesDoNotStall(body: Str, plans: nat -> ReadPlan)
    requires forall k: nat :: GivesSoon(plans, k)
    requires forall k: nat :: plans(k).reportsEnd
    ensures !Stalls(body, plans)
  {
    if k: nat :| ThreeEmptyReads(body, plans, k) && forall j: nat :: j <= k + 2 ==> !Ends(body, plans, j) {
      assert GivesSoon(plans, k);
      ThreeEmptyReadsEnd(body, plans, k);
    }
  }

  /** No read fails or is cancelled, and the connection holds. */
  ghost predicate Undisturbed(readPlans: nat -> ReadPlan, writePlans: nat -> seq<WritePlan>) {
    && (forall k :: !readPlans(k).fails && !readPlans(k).cancelled)
    && (forall k :: writePlans(k) == [Written, Written, Written, Written])
  }

  /** One read of a body within the limit; the room left never shortens it. */
  lemma ReadIsNext(body: Str, plans: nat -> ReadPlan, k: nat, pos: nat, n: nat)
    requires |body| <= MAX_BODY_BYTES && pos == ReadBefore(body, plans, k)
    requires n == Min(plans(k).gives, Min(Min(BUFFER_BYTES, MAX_BODY_BYTES - pos + 1), |body| - pos))
    ensures pos + n == ReadBefore(body, plans, k + 1) && (n == 0 <==> GivesNothing(body, plans, k))
  {
  }

  /** The next piece of the body as a chunk, or a cut of it. */
  method WritePiece(sent: Str, ghost chunks: seq<Str>, body: Str, pos: nat, n: nat, plans: seq<WritePlan>)
    returns (out: Str, ok: bool, ghost more: seq<Str>)
    requires Carries(sent, chunks, body, pos) && n > 0 && pos + n <= |body| && pos + n <= MAX_BODY_BYTES && |plans| == 3
    ensures ok <==> plans == [Written, Written, Written]
    ensures if ok then Carries(out, more, body, pos + n) else Faithful(out, body)
  {
    out, ok := WriteChunk(sent, body[pos..pos + n], plans);
    more := chunks + [body[pos..pos + n]];
    CarriesMore(sent, chunks, body, pos, n);
    if !ok {
      ghost var cut :| 0 <= cut <= |Chunk(body[pos..pos + n])| && out == sent + Chunk(body[pos..pos + n])[..cut];
      CutStreamIsFaithful(sent, chunks, body, pos, n, cut);
    }
  }

  /**
   Forwards a body of any length, read in any pieces, over a connection that may break inside any write.
   What the client decodes is always a prefix of the body within the limit; it sees the end of the message
   only when it has the whole body; and undisturbed, it gets the whole body exactly when that fits the limit and does not stall.
   */
  method Forward(body: Str, readPlans: nat -> ReadPlan, writePlans: nat -> seq<WritePlan>) returns (sent: Str, complete: bool)
    requires forall k :: |writePlans(k)| == 4
    ensures Faithful(sent, body)
    ensures complete ==> Decode(sent).complete
    ensures Undisturbed(readPlans, writePlans) ==> (complete <==> |body| <= MAX_BODY_BYTES && !Stalls(body, readPlans))
  {
    ghost var fits := |body| <= MAX_BODY_BYTES;
    var remaining, empty, pos, k := MAX_BODY_BYTES, 0, 0, 0;
    sent := [];
    ghost var chunks: seq<Str> := [];
    while true
      invariant Carries(sent, chunks, body, pos) && remaining == MAX_BODY_BYTES - pos && remaining >= 0 && 0 <= empty < 3
      invariant fits ==> pos == ReadBefore(body, readPlans, k) && Reading(body, readPlans, k, empty)
      decreases remaining, 3 - empty
    {
      WholeChunksAreFaithful(sent, chunks, body, pos);
      ghost var before := empty;
      var plan, out := readPlans(k), writePlans(k);
      var n := Min(plan.gives, Min(Min(BUFFER_BYTES, remaining + 1), |body| - pos));
      var ended := plan.reportsEnd && pos + n == |body|;
      if fits { ReadIsNext(body, readPlans, k, pos, n); }
      if plan.cancelled { return sent, false; }
      if n > remaining { return sent, false; }
      if n > 0 {
        empty := 0;
        var ok;
        sent, ok, chunks := WritePiece(sent, chunks, body, pos, n, out[..3]);
        if !ok { return sent, false; }
        pos, remaining := pos + n, remaining - n;
        WholeChunksAreFaithful(sent, chunks, body, pos);
      } else {
        empty := empty + 1;
      }
      if ended {
        if fits { EndIsNoStall(body, readPlans, k, before); }
        sent, complete := WriteFinal(sent, chunks, body, out[3]);
        return sent, complete;
      }
      if fits && empty >= 3 { ThirdEmptyReadStalls(body, readPlans, k); }
      if plan.fails || empty >= 3 { return sent, false; }
      if fits { ReadingGoesOn(body, readPlans, k, before, k + 1, empty); }
      k := k + 1;
    }
  }
}
