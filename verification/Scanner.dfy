/** boundedDiscard: counts runner output against a limit and looks for one needle across write boundaries. */
module Scanner {
  import opened GoTypes

  /** bytes.Contains. */
  predicate Contains(s: Str, needle: Str) {
    exists i :: 0 <= i <= |s| - |needle| && Occurs(s, needle, i)
  }

  predicate Occurs(s: Str, needle: Str, i: int)
    requires 0 <= i <= |s| - |needle|
  {
    s[i..i + |needle|] == needle
  }

  function Max(a: int, b: int): int { if a < b then b else a }
  function Min(a: int, b: int): int { if a < b then a else b }

  /** The last n bytes of s, or all of it. */
  function Suffix(s: Str, n: nat): (t: Str)
    ensures |t| == Min(n, |s|) && t == s[|s| - |t|..]
  {
    if n <= |s| then s[|s| - n..] else s
  }

  lemma SliceOfSlice(s: Str, from: nat, to: nat, a: nat, b: nat)
    requires from <= to <= |s| && a <= b <= to - from
    ensures s[from..to][a..b] == s[from + a..from + b]
  {
    forall k | 0 <= k < b - a ensures s[from..to][a..b][k] == s[from + a..from + b][k] {
      assert s[from..to][a + k] == s[from + a + k];
    }
  }

  /** An occurrence in a piece of s is one in s. */
  lemma OccursInPiece(s: Str, from: nat, to: nat, needle: Str)
    requires from <= to <= |s| && Contains(s[from..to], needle)
    ensures Contains(s, needle)
  {
    var i :| 0 <= i <= to - from - |needle| && Occurs(s[from..to], needle, i);
    SliceOfSlice(s, from, to, i, i + |needle|);
    assert Occurs(s, needle, from + i);
  }

  /** An occurrence that fits between two cuts is found there. */
  lemma OccursBetween(s: Str, needle: Str, i: nat, from: nat, to: nat)
    requires i + |needle| <= |s| && Occurs(s, needle, i) && from <= i && i + |needle| <= to <= |s|
    ensures Contains(s[from..to], needle)
  {
    SliceOfSlice(s, from, to, i - from, i - from + |needle|);
    assert Occurs(s[from..to], needle, i - from);
  }

  lemma WindowIsAPiece(s: Str, value: Str, n: nat)
    ensures var gap := |s| - |Suffix(s, n)|; Suffix(s, n) + value == (s + value)[gap..|s + value|] && (s + value)[0..|s|] == s
  {
  }

  /** An occurrence in s + value either lies in s or already shows in the last |needle| - 1 bytes of s and value. */
  lemma OnlyTheTailMatters(s: Str, value: Str, needle: Str)
    requires |needle| > 0
    ensures Contains(s + value, needle) <==> Contains(s, needle) || Contains(Suffix(s, |needle| - 1) + value, needle)
  {
    var whole, gap := s + value, |s| - |Suffix(s, |needle| - 1)|;
    WindowIsAPiece(s, value, |needle| - 1);
    if Contains(s, needle) { OccursInPiece(whole, 0, |s|, needle); }
    if Contains(Suffix(s, |needle| - 1) + value, needle) { OccursInPiece(whole, gap, |whole|, needle); }
    if Contains(whole, needle) {
      var i :| 0 <= i <= |whole| - |needle| && Occurs(whole, needle, i);
      if i + |needle| <= |s| { OccursBetween(whole, needle, i, 0, |s|); } else { OccursBetween(whole, needle, i, gap, |whole|); }
    }
  }

  lemma SuffixOfPiece(s: Str, from: nat, n: nat)
    requires from <= |s| && (n <= |s| - from || from == 0)
    ensures Suffix(s[from..], n) == Suffix(s, n)
  {
    if n <= |s| - from { assert s[from..][|s| - from - n..] == s[|s| - n..]; } else { assert s[0..] == s; }
  }

  /** Keeping the tail of the window keeps the tail of the whole text. */
  lemma TailOfWindow(s: Str, value: Str, n: nat)
    ensures Suffix(Suffix(s, n) + value, n) == Suffix(s + value, n)
  {
    var gap := |s| - |Suffix(s, n)|;
    WindowIsAPiece(s, value, n);
    assert (s + value)[gap..|s + value|] == (s + value)[gap..];
    SuffixOfPiece(s + value, gap, n);
  }

  class Discard {
    const limit: int
    const needle: Str
    var written: int
    var exceeded: bool
    var scanTail: Str
    var matched: bool
    /** Everything scanned so far, and how many bytes were ever presented. */
    ghost var scanned: Str
    ghost var presented: nat

    ghost predicate Valid()
      reads this
    {
      && (matched <==> needle != [] && Contains(scanned, needle))
      && (needle != [] && !matched ==> scanTail == Suffix(scanned, |needle| - 1))
      && written == Max(0, Min(limit, presented))
      && (exceeded ==> presented > limit) && (limit >= 0 && presented > limit ==> exceeded)
      && |scanned| <= presented && (!exceeded ==> |scanned| == presented)
    }

    constructor (limit: int, needle: Str)
      ensures Valid() && this.limit == limit && this.needle == needle && scanned == [] && presented == 0 && !exceeded
    {
      this.limit, this.needle := limit, needle;
      written, exceeded, scanTail, matched := 0, false, [], false;
      scanned, presented := [], 0;
    }

    /** Accepts what fits the limit. The write that passes the limit is scanned whole, and none after it. */
    method Write(value: Str) returns (accepted: int, ok: bool)
      requires Valid()
      modifies this
      ensures Valid()
      ensures presented == old(presented) + |value|
      ensures scanned == if old(exceeded) then old(scanned) else old(scanned) + value
      ensures accepted == written - old(written)
      ensures ok ==> accepted == |value|
      ensures !ok <==> exceeded
      ensures exceeded <==> presented > limit
    {
      presented := presented + |value|;
      if exceeded { return 0, false; }
      Scan(value);
      var remaining := limit - written;
      if |value| > remaining {
        accepted := remaining;
        if accepted < 0 { accepted := 0; }
        written := written + accepted;
        exceeded := true;
        return accepted, false;
      }
      written := written + |value|;
      return |value|, true;
    }

    method Scan(value: Str)
      requires matched <==> needle != [] && Contains(scanned, needle)
      requires needle != [] && !matched ==> scanTail == Suffix(scanned, |needle| - 1)
      modifies this`scanTail, this`matched, this`scanned
      ensures scanned == old(scanned) + value
      ensures matched <==> needle != [] && Contains(scanned, needle)
      ensures needle != [] && !matched ==> scanTail == Suffix(scanned, |needle| - 1)
    {
      ghost var before := scanned;
      scanned := scanned + value;
      if needle != [] { OnlyTheTailMatters(before, value, needle); }
      if matched || |needle| == 0 { return; }
      var window := scanTail + value;
      if Contains(window, needle) {
        matched := true;
        scanTail := [];
        return;
      }
      TailOfWindow(before, value, |needle| - 1);
      var keep := |needle| - 1;
      if keep > |window| { keep := |window|; }
      scanTail := window[|window| - keep..];
    }
  }

  /**
   Output that arrives in any pieces: the needle is found exactly when the pieces scanned, up to and including
   the one that passes the limit, contain it when joined; the bytes accepted are the total cut at the limit.
   */
  method DiscardAll(writes: seq<Str>, limit: int, needle: Str) returns (matched: bool, written: int, scanned: nat)
    ensures written == Max(0, Min(limit, |Joined(writes)|))
    ensures scanned <= |writes| && (matched <==> needle != [] && Contains(Joined(writes[..scanned]), needle))
    ensures scanned < |writes| ==> Passed(writes, scanned, limit)
  {
    var w := new Discard(limit, needle);
    scanned := 0;
    for n := 0 to |writes|
      invariant fresh(w) && w.Valid() && w.limit == limit && w.needle == needle && scanned <= n
      invariant w.presented == |Joined(writes[..n])| && w.scanned == Joined(writes[..scanned])
      invariant !w.exceeded ==> scanned == n
      invariant w.exceeded ==> Passed(writes, scanned, limit)
      invariant !w.exceeded && n > 0 ==> |Joined(writes[..n])| <= limit
    {
      assert writes[..n + 1][..n] == writes[..n];
      if !w.exceeded { scanned := n + 1; }
      var _, _ := w.Write(writes[n]);
    }
    assert writes[..|writes|] == writes;
    return w.matched, w.written, scanned;
  }

  /** The n-th write is the one that passes the limit; under a negative limit the first write does, even an empty one. */
  predicate Passed(writes: seq<Str>, n: nat, limit: int) {
    0 < n <= |writes| && limit < |Joined(writes[..n])| && (n == 1 || |Joined(writes[..n - 1])| <= limit)
  }

  function Joined(writes: seq<Str>): Str { if |writes| == 0 then [] else Joined(writes[..|writes| - 1]) + writes[|writes| - 1] }
}
