/** UTF-8 as Go's unicode/utf8, unicode and strings packages read it. */
module Utf8 {
  import opened GoTypes

  predicate Continuation(b: byte) { 0x80 <= b <= 0xBF }

  /** utf8.RuneStart: false exactly on continuation bytes. */
  predicate RuneStart(b: byte) { !Continuation(b) }

  /** Bounds on the second byte that rule out overlong forms, surrogates and values past U+10FFFF. */
  function SecondLow(b: byte): byte { if b == 0xE0 then 0xA0 else if b == 0xF0 then 0x90 else 0x80 }
  function SecondHigh(b: byte): byte { if b == 0xED then 0x9F else if b == 0xF4 then 0x8F else 0xBF }

  /** The length of the rune at the front of s, or 0 when none is encoded there. */
  function RuneSize(s: Str): (n: nat)
    ensures n <= 4 && n <= |s|
  {
    if |s| == 0 then 0
    else if s[0] < 0x80 then 1
    else if 0xC2 <= s[0] <= 0xDF && |s| >= 2 && Continuation(s[1]) then 2
    else if 0xE0 <= s[0] <= 0xEF && |s| >= 3 && SecondLow(s[0]) <= s[1] <= SecondHigh(s[0]) && Continuation(s[2]) then 3
    else if 0xF0 <= s[0] <= 0xF4 && |s| >= 4 && SecondLow(s[0]) <= s[1] <= SecondHigh(s[0])
            && Continuation(s[2]) && Continuation(s[3]) then 4
    else 0
  }

  /** The code point at the front of s. */
  function Rune(s: Str): int
    requires RuneSize(s) > 0
  {
    match RuneSize(s)
    case 1 => s[0] as int
    case 2 => (s[0] as int - 0xC0) * 64 + (s[1] as int - 0x80)
    case 3 => (s[0] as int - 0xE0) * 4096 + (s[1] as int - 0x80) * 64 + (s[2] as int - 0x80)
    case _ => (s[0] as int - 0xF0) * 262144 + (s[1] as int - 0x80) * 4096 + (s[2] as int - 0x80) * 64 + (s[3] as int - 0x80)
  }

  /** utf8.ValidString. */
  predicate ValidUtf8(s: Str)
    decreases |s|
  {
    |s| == 0 || (RuneSize(s) > 0 && ValidUtf8(s[RuneSize(s)..]))
  }

  /** unicode.IsSpace. */
  predicate IsSpace(r: int) {
    0x09 <= r <= 0x0D || r == 0x20 || r == 0x85 || r == 0xA0 || r == 0x1680 || 0x2000 <= r <= 0x200A
    || r == 0x2028 || r == 0x2029 || r == 0x202F || r == 0x205F || r == 0x3000
  }

  /** unicode.IsControl. */
  predicate IsControl(r: int) { 0 <= r <= 0x1F || 0x7F <= r <= 0x9F }

  /** Every rune of s is white space; on valid text, strings.TrimSpace(s) == "". */
  predicate AllSpace(s: Str)
    decreases |s|
  {
    |s| == 0 || (RuneSize(s) > 0 && IsSpace(Rune(s)) && AllSpace(s[RuneSize(s)..]))
  }

  /** No rune of s is white space or a control character. */
  predicate NoSpaceOrControl(s: Str)
    requires ValidUtf8(s)
    decreases |s|
  {
    |s| == 0 || (!IsSpace(Rune(s)) && !IsControl(Rune(s)) && NoSpaceOrControl(s[RuneSize(s)..]))
  }

  predicate Alphanumeric(b: byte) {
    0x61 <= b <= 0x7A || 0x41 <= b <= 0x5A || 0x30 <= b <= 0x39
  }

  // ---- ASCII ----

  /** A printable ASCII literal as Go bytes. */
  function Ascii(s: string): (r: Str)
    ensures |r| == |s| && forall i :: 0 <= i < |s| ==> 0x20 <= r[i] <= 0x7E
    ensures forall i :: 0 <= i < |s| && ' ' <= s[i] <= '~' ==> r[i] as int == s[i] as int
  {
    seq(|s|, i requires 0 <= i < |s| => if ' ' <= s[i] <= '~' then s[i] as int as byte else 0x3F)
  }

  /** Printable ASCII is valid text; without spaces it is also a valid identifier body. */
  lemma {:induction false} PrintableIsText(s: Str)
    requires forall i :: 0 <= i < |s| ==> 0x20 <= s[i] <= 0x7E
    ensures ValidUtf8(s) && 0 !in s
    ensures |s| > 0 && (s[0] != 0x20 || s[|s| - 1] != 0x20) ==> !AllSpace(s)
    ensures (forall i :: 0 <= i < |s| ==> s[i] != 0x20) ==> NoSpaceOrControl(s)
    decreases |s|
  {
    if |s| > 0 { PrintableIsText(s[1..]); }
  }
}
