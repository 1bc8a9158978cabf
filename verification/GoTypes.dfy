/** Go's basic value types: strings are byte sequences, int64 wraps around. */
module GoTypes {

  newtype byte = x: int | 0 <= x < 256

  /** A Go string, or a byte slice that is never aliased. */
  type Str = seq<byte>

  datatype Option<+T> = None | Some(value: T)

  datatype Pair<+A, +B> = Pair(fst: A, snd: B)

  const MAX_INT64: int := 0x7FFF_FFFF_FFFF_FFFF
  const TWO_64: int := 0x1_0000_0000_0000_0000

  /** The int64 value that Go's wrapping arithmetic gives for an exact result. */
  function Wrap64(x: int): (r: int)
    ensures -MAX_INT64 - 1 <= r <= MAX_INT64
    ensures (r - x) % TWO_64 == 0
  {
    var m := x % TWO_64;
    if m <= MAX_INT64 then m else m - TWO_64
  }

  /** Go's `<` on strings: bytewise lexicographic order, a proper prefix first. */
  predicate Less(a: Str, b: Str)
    decreases |a|
  {
    if |b| == 0 then false
    else if |a| == 0 then true
    else if a[0] != b[0] then a[0] < b[0]
    else Less(a[1..], b[1..])
  }

  /** The first place where the strings differ decides; without one, the shorter comes first. */
  ghost predicate Precedes(a: Str, b: Str) { a < b || exists k :: DifferAt(a, b, k) && a[k] < b[k] }

  ghost predicate DifferAt(a: Str, b: Str, k: int) { 0 <= k < |a| && k < |b| && a[..k] == b[..k] && a[k] != b[k] }

  lemma {:induction false} LessIsLexicographic(a: Str, b: Str)
    ensures Less(a, b) <==> Precedes(a, b)
    decreases |a|
  {
    if |a| > 0 && |b| > 0 {
      if a[0] != b[0] {
        assert DifferAt(a, b, 0);
      } else {
        LessIsLexicographic(a[1..], b[1..]);
        OneByteOn(a, b);
      }
    }
  }

  lemma OneByteOn(a: Str, b: Str)
    requires |a| > 0 && |b| > 0 && a[0] == b[0]
    ensures Precedes(a, b) <==> Precedes(a[1..], b[1..])
  {
    if a < b { assert a[1..] < b[1..]; }
    if a[1..] < b[1..] { assert a == [a[0]] + a[1..] && b == [b[0]] + b[1..]; }
    if k :| DifferAt(a, b, k) && a[k] < b[k] {
      assert a[1..][..k - 1] == a[..k][1..] && b[1..][..k - 1] == b[..k][1..];
      assert DifferAt(a[1..], b[1..], k - 1);
    }
    if k :| DifferAt(a[1..], b[1..], k) && a[1..][k] < b[1..][k] {
      assert a[..k + 1] == [a[0]] + a[1..][..k] && b[..k + 1] == [b[0]] + b[1..][..k];
      assert DifferAt(a, b, k + 1);
    }
  }

  lemma {:induction false} LessIsTransitive(a: Str, b: Str, c: Str)
    requires Less(a, b) && Less(b, c)
    ensures Less(a, c)
    decreases |a|
  {
    if |a| > 0 && a[0] == b[0] == c[0] {
      LessIsTransitive(a[1..], b[1..], c[1..]);
    }
  }

  lemma {:induction false} LessIsTotal(a: Str, b: Str)
    ensures (if Less(a, b) then 1 else 0) + (if Less(b, a) then 1 else 0) + (if a == b then 1 else 0) == 1
    decreases |a|
  {
    if |a| > 0 && |b| > 0 && a[0] == b[0] {
      LessIsTotal(a[1..], b[1..]);
      assert a == [a[0]] + a[1..] && b == [b[0]] + b[1..];
    } else if |a| == 0 || |b| == 0 {
    } else {
      assert a[0] != b[0];
    }
  }
}
