/** SplitReply: one reply cut into ordered chunks that the chat platform accepts. */
module SplitReply {
  import opened GoTypes
  import opened Utf8

  const MAX_CHUNK_TEXT := 1900
  const SPACE: byte := 0x20
  const NEWLINE: byte := 0x0A

  // ---- Runes at cuts ----

  /** A rune is told by its own bytes, and only its first is a rune start. */
  lemma RuneIsLocal(s: Str, t: Str)
    requires RuneSize(s) > 0 && |t| >= RuneSize(s) && t[..RuneSize(s)] == s[..RuneSize(s)]
    ensures RuneSize(t) == RuneSize(s) && Rune(t) == Rune(s)
    ensures RuneStart(s[0]) && forall i :: 0 < i < RuneSize(s) ==> Continuation(s[i])
  {
    var n := RuneSize(s);
    assert forall i :: 0 <= i < n ==> t[i] == t[..n][i] == s[..n][i] == s[i];
  }

  /** Valid text cut before a rune start is two valid texts. */
  lemma {:induction false} CutAtRuneStart(s: Str, c: nat)
    requires ValidUtf8(s) && c <= |s| && (c < |s| ==> RuneStart(s[c]))
    ensures ValidUtf8(s[..c]) && ValidUtf8(s[c..])
    decreases |s|
  {
    if c == 0 {
      assert s[0..] == s;
    } else {
      var n := RuneSize(s);
      RuneIsLocal(s, s);
      assert c >= n;
      CutAtRuneStart(s[n..], c - n);
      assert s[n..][..c - n] == s[..c][n..] && s[n..][c - n..] == s[c..];
      assert s[..c][..n] == s[..n];
      RuneIsLocal(s, s[..c]);
    }
  }

  /** No four bytes in a row of valid text lack a rune start. */
  lemma {:induction false} RuneStartIsNear(s: Str, c: nat)
    requires ValidUtf8(s) && c < |s|
    ensures exists j :: 0 <= j <= c && c - j <= 3 && RuneStart(s[j])
    decreases |s|
  {
    var n := RuneSize(s);
    RuneIsLocal(s, s);
    if c >= n {
      RuneStartIsNear(s[n..], c - n);
      var j :| 0 <= j <= c - n && c - n - j <= 3 && RuneStart(s[n..][j]);
      assert RuneStart(s[n + j]);
    }
  }

  // ---- Trimming ----

  lemma TailOfTail(t: Str, n: nat, r: nat, k: nat)
    requires n <= |t| && r <= |t| - n && k == n + r
    ensures t[n..][r..] == t[k..]
  {
  }

  lemma ConcatAt(a: Str, b: Str, c: Str, n: nat)
    requires c == a + b && n <= |a|
    ensures c[..n] == a[..n] && c[n..] == a[n..] + b
  {
  }

  /** Where the white space at the front of t ends. */
  function SkipSpace(t: Str): (r: nat)
    requires ValidUtf8(t)
    ensures r <= |t| && ValidUtf8(t[r..]) && (r < |t| ==> !IsSpace(Rune(t[r..])))
    decreases |t|
  {
    if |t| > 0 && IsSpace(Rune(t)) then
      var n := RuneSize(t);
      var r := SkipSpace(t[n..]);
      var k := n + r;
      TailOfTail(t, n, r, k);
      k
    else
      assert t[0..] == t;
      0
  }

  /** Where the last rune of t that is not white space ends. */
  function EndOfText(t: Str): (r: nat)
    requires ValidUtf8(t)
    ensures r <= |t| && ValidUtf8(t[r..]) && AllSpace(t[r..])
    decreases |t|
  {
    if AllSpace(t) then assert t[0..] == t; 0
    else
      var n := RuneSize(t);
      var r := EndOfText(t[n..]);
      var k := n + r;
      TailOfTail(t, n, r, k);
      k
  }

  lemma SpaceInFront(s: Str, n: nat)
    requires 0 < n == RuneSize(s) && IsSpace(Rune(s)) && AllSpace(s[n..])
    ensures AllSpace(s)
  {
  }

  lemma {:induction false} AllSpaceConcat(a: Str, b: Str, c: Str)
    requires AllSpace(a) && AllSpace(b) && c == a + b
    ensures AllSpace(c)
    decreases |a|
  {
    if |a| == 0 {
      assert c == b;
    } else {
      var n := RuneSize(a);
      ConcatAt(a, b, c, n);
      RuneIsLocal(a, c);
      AllSpaceConcat(a[n..], b, c[n..]);
      SpaceInFront(c, n);
    }
  }

  lemma NoRuneStartsHere(t: Str)
    requires |t| > 0 && Continuation(t[0])
    ensures !AllSpace(t)
  {
  }

  /** Text ends no later than it must: from any earlier place on, something is not white space. */
  lemma {:induction false} TextGoesOn(t: Str, k: nat, tail: Str)
    requires ValidUtf8(t) && k < EndOfText(t) && tail == t[k..]
    ensures !AllSpace(tail)
    decreases |t|
  {
    var n := RuneSize(t);
    if k == 0 {
      assert tail == t;
    } else if k < n {
      RuneIsLocal(t, t);
      NoRuneStartsHere(tail);
    } else {
      assert tail == t[n..][k - n..];
      TextGoesOn(t[n..], k - n, tail);
    }
  }

  /** Neither end of the text is white space. */
  ghost predicate Trimmed(s: Str) {
    ValidUtf8(s) && (|s| > 0 ==> !IsSpace(Rune(s))) && forall k {:trigger AllSpace(s[k..])} :: 0 <= k < |s| ==> !AllSpace(s[k..])
  }

  /** strings.TrimSpace on valid text. */
  function Trim(s: Str): (r: Str)
    requires ValidUtf8(s)
    ensures Trimmed(r)
  {
    var t := s[SkipSpace(s)..];
    TrimIsTrimmed(t, t[..EndOfText(t)]);
    t[..EndOfText(t)]
  }

  lemma TrimIsValid(t: Str, r: Str)
    requires ValidUtf8(t) && (|t| > 0 ==> !IsSpace(Rune(t))) && r == t[..EndOfText(t)]
    ensures ValidUtf8(r) && (|r| > 0 ==> !IsSpace(Rune(r)))
  {
    var last := EndOfText(t);
    if last < |t| { RuneIsLocal(t[last..], t[last..]); }
    CutAtRuneStart(t, last);
    if |r| > 0 { RuneIsLocal(r, t); }
  }

  lemma CutKeepsText(t: Str, last: nat, k: nat, tail: Str)
    requires k < last <= |t| && AllSpace(t[last..]) && !AllSpace(t[k..]) && tail == t[k..last]
    ensures !AllSpace(tail)
  {
    if AllSpace(tail) { AllSpaceConcat(tail, t[last..], t[k..]); }
  }

  lemma TrimIsTrimmed(t: Str, r: Str)
    requires ValidUtf8(t) && (|t| > 0 ==> !IsSpace(Rune(t))) && r == t[..EndOfText(t)]
    ensures Trimmed(r)
  {
    TrimIsValid(t, r);
    forall k | 0 <= k < |r| ensures !AllSpace(r[k..]) {
      TextGoesOn(t, k, t[k..]);
      CutKeepsText(t, |r|, k, r[k..]);
    }
  }

  lemma TrimmedStart(s: Str)
    requires Trimmed(s) && |s| > 0
    ensures s[0] != SPACE
  {
  }

  lemma {:induction false} SkippedIsSpace(t: Str, front: Str)
    requires ValidUtf8(t) && front == t[..SkipSpace(t)]
    ensures AllSpace(front)
    decreases |t|
  {
    if |t| > 0 && IsSpace(Rune(t)) {
      var n := RuneSize(t);
      assert front[n..] == t[n..][..SkipSpace(t[n..])];
      SkippedIsSpace(t[n..], front[n..]);
      assert front[..n] == t[..n];
      RuneIsLocal(t, front);
      SpaceInFront(front, n);
    }
  }

  /** The text r is s without the white space before first and from last on. */
  ghost predicate TakenFrom(s: Str, r: Str, first: nat, last: nat) {
    first <= last <= |s| && r == s[first..last] && AllSpace(s[..first]) && AllSpace(s[last..])
  }

  lemma TakenTwice(s: Str, first: nat, t: Str, n: nat, last: nat)
    requires first <= |s| && t == s[first..] && AllSpace(s[..first]) && n <= |t| && AllSpace(t[n..]) && last == first + n
    ensures TakenFrom(s, t[..n], first, last)
  {
    TailOfTail(s, first, n, last);
  }

  lemma TrimIs(s: Str, t: Str)
    requires ValidUtf8(s) && t == s[SkipSpace(s)..]
    ensures Trim(s) == t[..EndOfText(t)]
  {
  }

  /** Trimming takes white space off both ends and nothing else. */
  lemma TrimTakesOnlySpace(s: Str)
    requires ValidUtf8(s)
    ensures exists first: nat, last: nat :: TakenFrom(s, Trim(s), first, last)
  {
    var first := SkipSpace(s);
    var t := s[first..];
    var n := EndOfText(t);
    var last := first + n;
    SkippedIsSpace(s, s[..first]);
    TakenTwice(s, first, t, n, last);
    TrimIs(s, t);
    assert TakenFrom(s, Trim(s), first, last);
  }

  lemma {:induction false} SkipsAllSpace(t: Str)
    requires ValidUtf8(t) && AllSpace(t)
    ensures SkipSpace(t) == |t|
    decreases |t|
  {
    if |t| > 0 { SkipsAllSpace(t[RuneSize(t)..]); }
  }

  /** Nothing is left of a text exactly when it is all white space. */
  lemma TrimmedAwayIfBlank(s: Str)
    requires ValidUtf8(s)
    ensures Trim(s) == [] <==> AllSpace(s)
  {
    if AllSpace(s) { SkipsAllSpace(s); }
    if Trim(s) == [] {
      var first := SkipSpace(s);
      SkippedIsSpace(s, s[..first]);
      assert AllSpace(s[first..]) by { assert s[first..][EndOfText(s[first..])..] == s[first..]; }
      AllSpaceConcat(s[..first], s[first..], s);
    }
  }

  /** strings.TrimRight(s[:n], " ") ends here. */
  function EndBeforeSpaces(s: Str, n: nat): (r: nat)
    requires n <= |s|
    ensures r <= n && (r > 0 ==> s[r - 1] != SPACE) && Spaces(s, r, n)
  {
    if n > 0 && s[n - 1] == SPACE then EndBeforeSpaces(s, n - 1) else n
  }

  /** strings.TrimLeft(s[n:], " ") starts here. */
  function StartAfterSpaces(s: Str, n: nat): (r: nat)
    requires n <= |s|
    ensures n <= r <= |s| && (r < |s| ==> s[r] != SPACE) && Spaces(s, n, r)
    decreases |s| - n
  {
    if n < |s| && s[n] == SPACE then StartAfterSpaces(s, n + 1) else n
  }

  predicate Spaces(s: Str, first: int, last: int) {
    0 <= first <= last <= |s| && forall i :: first <= i < last ==> s[i] == SPACE
  }

  // ---- One cut ----

  predicate IsBreak(b: byte) { b == NEWLINE || b == SPACE }

  /** strings.LastIndexAny(s[:n], "\\n "): the last break before n, or -1. */
  function LastBreak(s: Str, n: nat): (c: int)
    requires n <= |s|
    ensures -1 <= c < n && (c >= 0 ==> IsBreak(s[c])) && forall i :: c < i < n ==> !IsBreak(s[i])
  {
    if n == 0 then -1 else if IsBreak(s[n - 1]) then n - 1 else LastBreak(s, n - 1)
  }

  /** The last rune start at or before c. */
  function RuneStartBefore(s: Str, c: nat): (r: nat)
    requires ValidUtf8(s) && c < |s|
    ensures r <= c && c - r <= 3 && RuneStart(s[r])
    ensures forall i :: r < i <= c ==> !RuneStart(s[i])
    decreases c
  {
    RuneStartIsNear(s, c);
    if RuneStart(s[c]) then c
    else
      var r := RuneStartBefore(s, c - 1);
      assert c - r <= 3 by {
        var j :| 0 <= j <= c && c - j <= 3 && RuneStart(s[j]);
        assert j <= r;
      }
      r
  }

  function Cut(s: Str): (c: nat)
    requires ValidUtf8(s) && |s| > MAX_CHUNK_TEXT
    ensures 0 < c <= MAX_CHUNK_TEXT && RuneStart(s[c])
  {
    var c := LastBreak(s, MAX_CHUNK_TEXT);
    if c <= 0 then RuneStartBefore(s, MAX_CHUNK_TEXT) else c
  }

  // ---- The whole split ----

  /** The front of a long text, up to the cut and without the spaces before it. */
  function Head(s: Str): Str
    requires ValidUtf8(s) && |s| > MAX_CHUNK_TEXT
  {
    s[..EndBeforeSpaces(s, Cut(s))]
  }

  /** Where the text goes on after the cut and the spaces that follow it. */
  function Resume(s: Str): (r: nat)
    requires ValidUtf8(s) && |s| > MAX_CHUNK_TEXT
    ensures 0 < r <= |s| && ValidUtf8(s[r..]) && (r < |s| ==> s[r] != SPACE)
  {
    var r := StartAfterSpaces(s, Cut(s));
    assert ValidUtf8(s[r..]) by {
      CutAtRuneStart(s, Cut(s));
      SpacesKeepUtf8(s, Cut(s), r);
    }
    r
  }

  lemma {:induction false} SpacesKeepUtf8(s: Str, first: int, last: int)
    requires Spaces(s, first, last) && ValidUtf8(s[first..])
    ensures ValidUtf8(s[last..])
    decreases last - first
  {
    if first < last {
      assert s[first..][0] == SPACE && s[first..][1..] == s[first + 1..];
      SpacesKeepUtf8(s, first + 1, last);
    }
  }

  /** The chunks of a text, as many as it takes. */
  function SplitAll(s: Str): (chunks: seq<Str>)
    requires ValidUtf8(s)
    decreases |s|
  {
    if |s| == 0 then []
    else if |s| <= MAX_CHUNK_TEXT then [s]
    else [Head(s)] + SplitAll(s[Resume(s)..])
  }

  predicate GoodChunk(c: Str) { 0 < |c| <= MAX_CHUNK_TEXT && ValidUtf8(c) }

  lemma HeadIsGood(s: Str)
    requires ValidUtf8(s) && |s| > MAX_CHUNK_TEXT && s[0] != SPACE
    ensures GoodChunk(Head(s))
  {
    CutAtRuneStart(s, EndBeforeSpaces(s, Cut(s)));
  }

  /** Every chunk is nonempty, fits the platform's limit and is cut on rune boundaries. */
  lemma {:induction false} ChunksAreGood(s: Str)
    requires ValidUtf8(s) && (|s| > 0 ==> s[0] != SPACE)
    ensures forall i :: 0 <= i < |SplitAll(s)| ==> GoodChunk(SplitAll(s)[i])
    ensures |SplitAll(s)| > 0 <==> |s| > 0
    decreases |s|
  {
    if |s| > MAX_CHUNK_TEXT {
      HeadIsGood(s);
      ChunksAreGood(s[Resume(s)..]);
    }
  }

  // ---- Blank chunks ----

  /** The text that is left once n chunks are cut off. */
  function Rest(s: Str, n: nat): (r: Str)
    requires ValidUtf8(s) && n <= |SplitAll(s)|
    ensures ValidUtf8(r) && SplitAll(r) == SplitAll(s)[n..]
  {
    if n == 0 then s
    else if |s| <= MAX_CHUNK_TEXT then []
    else
      var rest := s[Resume(s)..];
      assert SplitAll(s) == [Head(s)] + SplitAll(rest);
      Rest(rest, n - 1)
  }

  /** Every rest but the first starts after a cut, so not with a space; and it ends as the text does. */
  lemma {:induction false} RestIsTrimmed(s: Str, n: nat)
    requires ValidUtf8(s) && n <= |SplitAll(s)| && (|s| > 0 ==> s[0] != SPACE) && forall k {:trigger AllSpace(s[k..])} :: 0 <= k < |s| ==> !AllSpace(s[k..])
    ensures var r := Rest(s, n); (|r| > 0 ==> r[0] != SPACE) && forall k {:trigger AllSpace(r[k..])} :: 0 <= k < |r| ==> !AllSpace(r[k..])
    decreases n
  {
    if n > 0 && |s| > MAX_CHUNK_TEXT {
      var r := s[Resume(s)..];
      forall k | 0 <= k < |r| ensures !AllSpace(r[k..]) { assert r[k..] == s[Resume(s) + k..]; }
      RestIsTrimmed(r, n - 1);
    }
  }

  lemma {:induction false} SpacesAreSpace(s: Str, first: int, last: int)
    requires Spaces(s, first, last)
    ensures AllSpace(s[first..last])
    decreases last - first
  {
    if first < last {
      SpacesAreSpace(s, first + 1, last);
      assert s[first..last][0] == SPACE && s[first..last][1..] == s[first + 1..last];
    }
  }

  lemma {:induction false} SpaceInPrefix(a: Str, b: Str, c: Str)
    requires ValidUtf8(a) && AllSpace(c) && c == a + b
    ensures AllSpace(a)
    decreases |a|
  {
    if |a| > 0 {
      var n := RuneSize(a);
      ConcatAt(a, b, c, n);
      RuneIsLocal(a, c);
      SpaceInPrefix(a[n..], b, c[n..]);
      SpaceInFront(a, n);
    }
  }

  /** The front of a long text is blank exactly when everything before its cut is. */
  lemma HeadIsBlank(s: Str)
    requires ValidUtf8(s) && |s| > MAX_CHUNK_TEXT && s[0] != SPACE
    ensures AllSpace(Head(s)) <==> AllSpace(s[..Cut(s)])
  {
    var c := Cut(s);
    var n := EndBeforeSpaces(s, c);
    HeadIsGood(s);
    if AllSpace(s[..c]) { SpaceInPrefix(s[..n], s[n..c], s[..c]); }
    if AllSpace(s[..n]) {
      SpacesAreSpace(s, n, c);
      AllSpaceConcat(s[..n], s[n..c], s[..c]);
    }
  }

  /**
   Which chunks of a trimmed text are blank: exactly those cut from a rest too long for one chunk whose text
   before the cut is all white space. The last chunk never is.
   */
  lemma BlankChunks(text: Str, i: nat)
    requires Trimmed(text) && i < |SplitAll(text)|
    ensures AllSpace(SplitAll(text)[i]) <==> |Rest(text, i)| > MAX_CHUNK_TEXT && AllSpace(Rest(text, i)[..Cut(Rest(text, i))])
  {
    if |text| > 0 { TrimmedStart(text); }
    var r := Rest(text, i);
    RestIsTrimmed(text, i);
    assert SplitAll(text)[i] == SplitAll(text)[i..][0] == SplitAll(r)[0];
    if |r| > MAX_CHUNK_TEXT { HeadIsBlank(r); } else { assert r[0..] == r; }
  }

  /** Somewhere in the text, white space other than a plain space is followed by more white space. */
  predicate Paired(s: Str)
    requires ValidUtf8(s)
    decreases |s|
  {
    |s| > 0 && (PairedFront(s) || Paired(s[RuneSize(s)..]))
  }

  predicate PairedFront(s: Str)
    requires ValidUtf8(s) && |s| > 0
  {
    var n := RuneSize(s);
    assert ValidUtf8(s[n..]);
    s[0] != SPACE && IsSpace(Rune(s)) && n < |s| && IsSpace(Rune(s[n..]))
  }

  lemma {:induction false} PairedStays(s: Str, c: nat, tail: Str)
    requires ValidUtf8(s) && c <= |s| && tail == s[c..] && ValidUtf8(tail) && Paired(tail) && (c < |s| ==> RuneStart(s[c]))
    ensures Paired(s)
    decreases |s|
  {
    if c == 0 {
      assert tail == s;
    } else {
      var n := RuneSize(s);
      RuneIsLocal(s, s);
      var rest, left := s[n..], c - n;
      assert rest[left..] == tail;
      PairedStays(rest, left, tail);
    }
  }

  /** A blank front of at least two runes. */
  lemma TwoSpacesArePaired(s: Str, c: nat, n: nat, front: Str)
    requires ValidUtf8(s) && c <= |s| && front == s[..c] && AllSpace(front) && 0 < n == RuneSize(front) < c && s[0] != SPACE
    ensures PairedFront(s)
  {
    assert s[..n] == front[..n];
    RuneIsLocal(front, s);
    var next := front[n..];
    var m := RuneSize(next);
    assert s[n..][..m] == next[..m];
    RuneIsLocal(next, s[n..]);
  }

  /** A blank front of one rune, and a break after it. */
  lemma SpaceAndBreakArePaired(s: Str, n: nat, front: Str)
    requires ValidUtf8(s) && n < |s| && front == s[..n] && AllSpace(front) && 0 < n == RuneSize(front) && s[0] != SPACE && IsBreak(s[n])
    ensures PairedFront(s)
  {
    assert s[..n] == front[..n];
    RuneIsLocal(front, s);
    assert s[n..][0] == s[n];
  }

  /** White space up to the cut is two runes of it, or one and the break that was cut at. */
  lemma BlankFrontIsPaired(s: Str)
    requires ValidUtf8(s) && |s| > MAX_CHUNK_TEXT && s[0] != SPACE && AllSpace(s[..Cut(s)])
    ensures PairedFront(s)
  {
    var c := Cut(s);
    var front := s[..c];
    var n := RuneSize(front);
    if n < c {
      TwoSpacesArePaired(s, c, n, front);
    } else {
      assert LastBreak(s, MAX_CHUNK_TEXT) == c;
      SpaceAndBreakArePaired(s, n, front);
    }
  }

  lemma {:induction false} RestIsUnpaired(s: Str, n: nat)
    requires ValidUtf8(s) && n <= |SplitAll(s)| && !Paired(s)
    ensures !Paired(Rest(s, n))
    decreases n
  {
    if n > 0 && |s| > MAX_CHUNK_TEXT {
      var r := Resume(s);
      if r < |s| { RuneIsLocal(s[r..], s[r..]); }
      if Paired(s[r..]) { PairedStays(s, r, s[r..]); }
      RestIsUnpaired(s[r..], n - 1);
    }
  }

  /** What a caller can check beforehand: a trimmed text without such a pair has no blank chunk. */
  lemma UnpairedTextHasNoBlankChunk(text: Str, i: nat)
    requires Trimmed(text) && !Paired(text) && i < |SplitAll(text)|
    ensures !AllSpace(SplitAll(text)[i])
  {
    if |text| > 0 { TrimmedStart(text); }
    BlankChunks(text, i);
    RestIsTrimmed(text, i);
    RestIsUnpaired(text, i);
    var r := Rest(text, i);
    if |r| > MAX_CHUNK_TEXT && AllSpace(r[..Cut(r)]) { BlankFrontIsPaired(r); }
  }

  /** In particular, a text whose only white space is the plain space. */
  lemma {:induction false} PlainSpacesAreUnpaired(s: Str)
    requires ValidUtf8(s) && PlainSpacesOnly(s)
    ensures !Paired(s)
    decreases |s|
  {
    if |s| > 0 { PlainSpacesAreUnpaired(s[RuneSize(s)..]); }
  }

  predicate PlainSpacesOnly(s: Str)
    requires ValidUtf8(s)
    decreases |s|
  {
    |s| == 0 || ((IsSpace(Rune(s)) ==> s[0] == SPACE) && PlainSpacesOnly(s[RuneSize(s)..]))
  }

  // ---- Texts with a blank chunk ----

  function Repeated(b: byte, n: nat): (s: Str)
    ensures |s| == n && forall i :: 0 <= i < n ==> s[i] == b
  {
    if n == 0 then [] else [b] + Repeated(b, n - 1)
  }

  lemma {:induction false} AsciiIsUtf8(s: Str)
    requires forall i :: 0 <= i < |s| ==> s[i] < 0x80
    ensures ValidUtf8(s)
    decreases |s|
  {
    if |s| > 0 { AsciiIsUtf8(s[1..]); }
  }

  lemma {:induction false} LastByteCounts(s: Str)
    requires |s| > 0 && AllSpace(s) && s[|s| - 1] < 0x80
    ensures IsSpace(s[|s| - 1] as int)
    decreases |s|
  {
    var n := RuneSize(s);
    RuneIsLocal(s, s);
    if n < |s| { LastByteCounts(s[n..]); }
  }

  lemma LettersAtBothEnds(s: Str)
    requires |s| > 0 && (forall i :: 0 <= i < |s| ==> s[i] < 0x80) && !IsSpace(s[0] as int) && !IsSpace(s[|s| - 1] as int)
    ensures Trimmed(s) && Trim(s) == s
  {
    AsciiIsUtf8(s);
    forall k | 0 <= k < |s| ensures !AllSpace(s[k..]) { if AllSpace(s[k..]) { LastByteCounts(s[k..]); } }
    assert s[0..] == s && SkipSpace(s) == 0;
    assert AllSpace(s[EndOfText(s)..]);
  }

  /** A newline that a cut left in front, then a space, then no other break in reach: the newline is a chunk of its own. */
  lemma NewlineCanStandAlone(s: Str)
    requires ValidUtf8(s) && |s| > MAX_CHUNK_TEXT && s[0] == NEWLINE && s[1] == SPACE
    requires forall i :: 2 <= i < MAX_CHUNK_TEXT ==> !IsBreak(s[i])
    ensures Head(s) == [NEWLINE] && AllSpace(Head(s))
  {
    assert LastBreak(s, MAX_CHUNK_TEXT) == 1;
    assert RuneSize([NEWLINE]) == 1;
  }

  /** Two lines, each just short of a chunk, with a newline and a space between them. */
  ghost predicate TwoLines(s: Str) {
    && |s| == 3800 && s[1899] == NEWLINE && s[1900] == SPACE
    && forall i :: 0 <= i < 3800 && i != 1899 && i != 1900 ==> 0x61 <= s[i] <= 0x7A
  }

  /** Two cuts and what is left. */
  lemma ThreeChunks(s: Str, r: Str, n: nat)
    requires ValidUtf8(s) && |s| > MAX_CHUNK_TEXT && r == s[Resume(s)..] && |r| > MAX_CHUNK_TEXT
    requires n == Resume(r) && 0 < |r| - n <= MAX_CHUNK_TEXT
    ensures |SplitAll(s)| == 3 && SplitAll(s)[1] == Head(r) && Rest(s, 1) == r
  {
    assert SplitAll(s) == [Head(s)] + SplitAll(r) && SplitAll(r) == [Head(r)] + SplitAll(r[n..]) && SplitAll(r[n..]) == [r[n..]];
  }

  lemma FirstLineIsCut(s: Str)
    requires TwoLines(s) && ValidUtf8(s)
    ensures Resume(s) == 1899
  {
    assert LastBreak(s, MAX_CHUNK_TEXT) == 1899;
  }

  lemma NewlineIsCut(r: Str)
    requires ValidUtf8(r) && |r| == 1901 && r[0] == NEWLINE && r[1] == SPACE && forall i :: 2 <= i < |r| ==> !IsBreak(r[i])
    ensures Head(r) == [NEWLINE] && AllSpace(Head(r)) && Resume(r) == 2
  {
    NewlineCanStandAlone(r);
    assert LastBreak(r, MAX_CHUNK_TEXT) == 1;
    assert StartAfterSpaces(r, 1) == StartAfterSpaces(r, 2) == 2;
  }

  /** Every such text splits into three chunks, and the second is the newline. */
  lemma LineBreakBecomesAChunk(s: Str)
    requires TwoLines(s)
    ensures Trimmed(s) && Trim(s) == s && |SplitAll(s)| == 3 && SplitAll(s)[1] == [NEWLINE] && AllSpace([NEWLINE])
  {
    LettersAtBothEnds(s);
    FirstLineIsCut(s);
    var r := s[1899..];
    forall i | 2 <= i < |r| ensures !IsBreak(r[i]) { assert r[i] == s[1899 + i]; }
    NewlineIsCut(r);
    ThreeChunks(s, r, 2);
  }

  lemma TwoLinesExist()
    ensures TwoLines(Repeated(0x61, 1899) + [NEWLINE, SPACE] + Repeated(0x62, 1899))
  {
  }

  const TAB: byte := 0x09

  /** A word, a space, as many tabs as fill a chunk, and another word. */
  ghost predicate Tabbed(s: Str) {
    |s| == 1903 && s[0] == 0x61 && s[1] == SPACE && s[1902] == 0x62 && forall i :: 2 <= i < 1902 ==> s[i] == TAB
  }

  lemma WordBeforeTabsIsCut(s: Str)
    requires Tabbed(s) && ValidUtf8(s)
    ensures Resume(s) == 2
  {
    assert LastBreak(s, MAX_CHUNK_TEXT) == 1;
    assert StartAfterSpaces(s, 1) == StartAfterSpaces(s, 2) == 2;
  }

  lemma TabsAreCut(r: Str)
    requires ValidUtf8(r) && |r| == 1901 && (forall i :: 0 <= i < 1900 ==> r[i] == TAB) && r[1900] == 0x62
    ensures LastBreak(r, MAX_CHUNK_TEXT) == -1 && Cut(r) == 1900 && Resume(r) == 1900 && AllSpace(r[..Cut(r)])
  {
    assert LastBreak(r, MAX_CHUNK_TEXT) == -1 && RuneStartBefore(r, 1900) == 1900;
    TabsAreSpace(r[..1900]);
  }

  /** No break need be in reach: the tabs are a chunk too, the second of three. */
  lemma TabsBecomeAChunk(s: Str)
    requires Tabbed(s)
    ensures Trimmed(s) && Trim(s) == s && |SplitAll(s)| == 3 && AllSpace(SplitAll(s)[1]) && LastBreak(Rest(s, 1), MAX_CHUNK_TEXT) == -1
  {
    LettersAtBothEnds(s);
    WordBeforeTabsIsCut(s);
    var r := s[2..];
    assert forall i :: 0 <= i < 1900 ==> r[i] == s[2 + i];
    TabsAreCut(r);
    ThreeChunks(s, r, 1900);
    BlankChunks(s, 1);
  }

  lemma TabbedExists()
    ensures Tabbed([0x61, SPACE] + Repeated(TAB, 1900) + [0x62])
  {
  }

  lemma {:induction false} TabsAreSpace(s: Str)
    requires forall i :: 0 <= i < |s| ==> s[i] == TAB
    ensures AllSpace(s)
    decreases |s|
  {
    if |s| > 0 { TabsAreSpace(s[1..]); }
  }

  // ---- Nothing is lost ----

  predicate At(text: Str, i: int, chunk: Str) { 0 <= i <= |text| - |chunk| && text[i..i + |chunk|] == chunk }

  /** From i on, the text is the chunks in order with nothing between them but spaces. */
  ghost predicate Woven(text: Str, i: int, chunks: seq<Str>)
    decreases |chunks|
  {
    if |chunks| == 0 then i == |text|
    else At(text, i, chunks[0]) && exists j :: Spaces(text, i + |chunks[0]|, j) && Woven(text, j, chunks[1..])
  }

  /** A text woven after some prefix is woven in place. */
  lemma {:induction false} WovenInPlace(text: Str, k: nat, i: nat, chunks: seq<Str>)
    requires k <= |text| && Woven(text[k..], i, chunks)
    ensures Woven(text, k + i, chunks)
    decreases |chunks|
  {
    if |chunks| > 0 {
      var tail, n := text[k..], |chunks[0]|;
      var j :| Spaces(tail, i + n, j) && Woven(tail, j, chunks[1..]);
      WovenInPlace(text, k, j, chunks[1..]);
      assert tail[i..i + n] == text[k + i..k + i + n];
      forall x | k + i + n <= x < k + j ensures text[x] == SPACE { assert tail[x - k] == text[x]; }
      assert Spaces(text, k + i + n, k + j);
    }
  }

  lemma {:induction false} SplitDropsOnlySpaces(s: Str)
    requires ValidUtf8(s)
    ensures Woven(s, 0, SplitAll(s))
    decreases |s|
  {
    var chunks := SplitAll(s);
    if |s| > MAX_CHUNK_TEXT {
      var r := Resume(s);
      SplitDropsOnlySpaces(s[r..]);
      WovenInPlace(s, r, 0, chunks[1..]);
      assert Spaces(s, |chunks[0]|, r) && At(s, 0, chunks[0]);
    } else if |s| > 0 {
      assert At(s, 0, s) && chunks[1..] == [] && Spaces(s, |s|, |s|) && Woven(s, |s|, chunks[1..]);
    }
  }

  /** Without its spaces, a text. */
  function Dense(s: Str): Str { if |s| == 0 then [] else Dense(s[..|s| - 1]) + if s[|s| - 1] == SPACE then [] else [s[|s| - 1]] }

  function Joined(chunks: seq<Str>): Str { if |chunks| == 0 then [] else chunks[0] + Joined(chunks[1..]) }

  lemma {:induction false} DenseConcat(a: Str, b: Str)
    ensures Dense(a + b) == Dense(a) + Dense(b)
    decreases |b|
  {
    if |b| == 0 {
      assert a + b == a;
    } else {
      DenseConcat(a, b[..|b| - 1]);
      assert (a + b)[..|a + b| - 1] == a + b[..|b| - 1];
    }
  }

  lemma {:induction false} SpacesAreNotDense(s: Str)
    requires Spaces(s, 0, |s|)
    ensures Dense(s) == []
    decreases |s|
  {
    if |s| > 0 { SpacesAreNotDense(s[..|s| - 1]); }
  }

  lemma DenseAcross(text: Str, i: nat, n: nat, j: nat)
    requires i + n <= j <= |text| && Spaces(text, i + n, j)
    ensures Dense(text[i..]) == Dense(text[i..i + n]) + Dense(text[j..])
  {
    var gap := text[i + n..j];
    assert text[i..] == text[i..i + n] + (gap + text[j..]);
    DenseConcat(text[i..i + n], gap + text[j..]);
    DenseConcat(gap, text[j..]);
    SpacesAreNotDense(gap);
  }

  /** Whatever the cuts, text and chunks agree in every byte that is not a space. */
  lemma {:induction false} WovenKeepsEveryByte(text: Str, i: nat, chunks: seq<Str>)
    requires i <= |text| && Woven(text, i, chunks)
    ensures Dense(text[i..]) == Dense(Joined(chunks))
    decreases |chunks|
  {
    if |chunks| > 0 {
      var n := |chunks[0]|;
      var j :| Spaces(text, i + n, j) && Woven(text, j, chunks[1..]);
      WovenKeepsEveryByte(text, j, chunks[1..]);
      DenseAcross(text, i, n, j);
      DenseConcat(chunks[0], Joined(chunks[1..]));
    }
  }

  // ---- The loop ----

  datatype Split = Chunks(chunks: seq<Str>) | Rejected

  /** The cut of a text that is too long for one chunk. */
  method FindCut(remaining: Str) returns (cut: nat)
    requires ValidUtf8(remaining) && |remaining| > MAX_CHUNK_TEXT
    ensures cut == Cut(remaining)
  {
    var last := LastBreak(remaining, MAX_CHUNK_TEXT);
    if last > 0 { return last; }
    cut := MAX_CHUNK_TEXT;
    while !RuneStart(remaining[cut])
      invariant cut <= MAX_CHUNK_TEXT && RuneStartBefore(remaining, cut) == RuneStartBefore(remaining, MAX_CHUNK_TEXT)
      decreases cut
    {
      cut := cut - 1;
    }
  }

  /**
   Splits any text. It refuses invalid UTF-8, blank text and text that needs more than maxChunks chunks, and
   nothing else; what it returns holds the whole trimmed text.
   */
  method SplitText(text: Str, maxChunks: int) returns (result: Split)
    ensures result.Chunks? <==> ValidUtf8(text) && Trim(text) != [] && 1 <= maxChunks && |SplitAll(Trim(text))| <= maxChunks
    ensures result.Chunks? ==> result.chunks == SplitAll(Trim(text)) && 0 < |result.chunks| <= maxChunks
    ensures result.Chunks? ==> Woven(Trim(text), 0, result.chunks)
    ensures result.Chunks? ==> forall i :: 0 <= i < |result.chunks| ==> GoodChunk(result.chunks[i])
  {
    if !ValidUtf8(text) { return Rejected; }
    var remaining := Trim(text);
    if remaining == [] || maxChunks < 1 { return Rejected; }
    ChunksAreGood(remaining);
    SplitDropsOnlySpaces(remaining);
    var chunks := SplitLoop(remaining, maxChunks);
    return if chunks.Some? then Chunks(chunks.value) else Rejected;
  }

  method SplitLoop(text: Str, maxChunks: int) returns (result: Option<seq<Str>>)
    requires ValidUtf8(text) && |text| > 0 && text[0] != SPACE && maxChunks >= 1
    ensures result == if |SplitAll(text)| <= maxChunks then Some(SplitAll(text)) else None
  {
    var remaining, chunks: seq<Str> := text, [];
    while |remaining| > 0
      invariant ValidUtf8(remaining) && (|remaining| > 0 ==> remaining[0] != SPACE)
      invariant SplitAll(text) == chunks + SplitAll(remaining) && |chunks| <= maxChunks
      decreases |remaining|
    {
      if |chunks| == maxChunks {
        ChunksAreGood(remaining);
        return None;
      }
      if |remaining| <= MAX_CHUNK_TEXT {
        chunks := chunks + [remaining];
        return Some(chunks);
      }
      var cut := FindCut(remaining);
      chunks := chunks + [remaining[..EndBeforeSpaces(remaining, cut)]];
      remaining := remaining[StartAfterSpaces(remaining, cut)..];
    }
    assert chunks + [] == chunks;
    return Some(chunks);
  }
}
