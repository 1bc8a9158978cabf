/** ORDER BY ... LIMIT over the rows of a table. */
module Ordering {
  import opened GoTypes

  /** A row's sort key: two numbers, then its own ID. */
  datatype Rank = Rank(major: int, minor: int, id: Str)

  predicate RankLess(a: Rank, b: Rank) {
    a.major < b.major
    || (a.major == b.major && (a.minor < b.minor || (a.minor == b.minor && Less(a.id, b.id))))
  }

  /** Row IDs are unique, so no two rows tie. */
  predicate Ranking(ranks: map<Str, Rank>) { forall r :: r in ranks ==> ranks[r].id == r }

  predicate IsFirst(ranks: map<Str, Rank>, ids: set<Str>, first: Str)
    requires ids <= ranks.Keys
  {
    first in ids && forall o {:trigger RankLess(ranks[first], ranks[o])} :: o in ids && o != first ==> RankLess(ranks[first], ranks[o])
  }

  lemma RankIsOrder(a: Rank, b: Rank, c: Rank)
    ensures a.id != b.id ==> RankLess(a, b) != RankLess(b, a)
    ensures RankLess(a, b) && RankLess(b, c) ==> RankLess(a, c)
    ensures !(RankLess(a, b) && RankLess(b, a))
  {
    LessIsTotal(a.id, b.id);
    if Less(a.id, b.id) && Less(b.id, c.id) { LessIsTransitive(a.id, b.id, c.id); }
  }

  lemma {:induction false} FirstExists(ranks: map<Str, Rank>, ids: set<Str>) returns (first: Str)
    requires Ranking(ranks) && ids != {} && ids <= ranks.Keys
    ensures IsFirst(ranks, ids, first)
    decreases |ids|
  {
    var some :| some in ids;
    if ids == {some} { return some; }
    var best := FirstExists(ranks, ids - {some});
    RankIsOrder(ranks[some], ranks[best], ranks[best]);
    first := if RankLess(ranks[some], ranks[best]) then some else best;
    forall o | o in ids && o != first ensures RankLess(ranks[first], ranks[o]) {
      RankIsOrder(ranks[first], ranks[best], ranks[o]);
    }
  }

  lemma FirstIsUnique(ranks: map<Str, Rank>, ids: set<Str>, a: Str, b: Str)
    requires ids <= ranks.Keys && IsFirst(ranks, ids, a) && IsFirst(ranks, ids, b)
    ensures a == b
  {
    if a != b { RankIsOrder(ranks[a], ranks[b], ranks[b]); }
  }

  lemma ExactlyOneFirst(ranks: map<Str, Rank>, ids: set<Str>)
    requires Ranking(ranks) && ids != {} && ids <= ranks.Keys
    ensures exists f :: f in ids && IsFirst(ranks, ids, f)
    ensures forall a, b :: a in ids && b in ids && IsFirst(ranks, ids, a) && IsFirst(ranks, ids, b) ==> a == b
  {
    var f := FirstExists(ranks, ids);
    forall a, b | a in ids && b in ids && IsFirst(ranks, ids, a) && IsFirst(ranks, ids, b) ensures a == b {
      FirstIsUnique(ranks, ids, a, b);
    }
  }

  function First(ranks: map<Str, Rank>, ids: set<Str>): (first: Str)
    requires Ranking(ranks) && ids != {} && ids <= ranks.Keys
    ensures IsFirst(ranks, ids, first)
  {
    ExactlyOneFirst(ranks, ids);
    var f :| f in ids && IsFirst(ranks, ids, f);
    f
  }

  /** The first n of ids, in order. */
  function FirstN(ranks: map<Str, Rank>, ids: set<Str>, n: nat): (r: seq<Str>)
    requires Ranking(ranks) && ids <= ranks.Keys
    ensures |r| <= n && forall i :: 0 <= i < |r| ==> r[i] in ids
    decreases n
  {
    if n == 0 || ids == {} then []
    else
      var f := First(ranks, ids);
      [f] + FirstN(ranks, ids - {f}, n - 1)
  }

  /** FirstN is the ordered, limited query: increasing, ahead of all it leaves out, and full unless nothing is left out. */
  lemma {:induction false} FirstNIsOrdered(ranks: map<Str, Rank>, ids: set<Str>, n: nat)
    requires Ranking(ranks) && ids <= ranks.Keys
    ensures var r := FirstN(ranks, ids, n);
      && (|r| < n ==> forall x :: x in ids ==> x in r)
      && (forall i, x :: 0 <= i < |r| && x in ids && x !in r ==> RankLess(ranks[r[i]], ranks[x]))
      && (forall i, j :: 0 <= i < j < |r| ==> RankLess(ranks[r[i]], ranks[r[j]]) && r[i] != r[j])
    decreases n
  {
    if n > 0 && ids != {} {
      var f := First(ranks, ids);
      FirstNIsOrdered(ranks, ids - {f}, n - 1);
      var rest := FirstN(ranks, ids - {f}, n - 1);
      assert FirstN(ranks, ids, n) == [f] + rest;
    }
  }
}
