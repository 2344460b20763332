/** Python's `sorted` over peer ids, as the network backend uses it: by the key
    `(-score, id)` (highest score first, a missing score counting as 0.0, ties
    by id) and, with no scores at all, by id alone. Ids are distinct, so the key
    is a strict total order and the sorted arrangement is unique. */
module Ranking {
  import opened Common
  import opened Text

  /** `peer_scores.get(id, 0.0)`. */
  function ScoreOf(scores: map<string, real>, id: string): real {
    if id in scores then scores[id] else 0.0
  }

  /** `a` comes before `b` under the key `(-score, id)`. */
  predicate RankedBefore(scores: map<string, real>, a: string, b: string) {
    ScoreOf(scores, a) > ScoreOf(scores, b) || (ScoreOf(scores, a) == ScoreOf(scores, b) && StrLess(a, b))
  }

  predicate SortedByRank(scores: map<string, real>, s: seq<string>) {
    forall i, j :: 0 <= i < j < |s| ==> RankedBefore(scores, s[i], s[j])
  }

  lemma RankedBeforeAsymmetric(scores: map<string, real>, a: string, b: string)
    requires RankedBefore(scores, a, b)
    ensures !RankedBefore(scores, b, a) && a != b
  {
    if ScoreOf(scores, a) == ScoreOf(scores, b) {
      StrLessAsymmetric(a, b);
    }
  }

  lemma RankedBeforeTransitive(scores: map<string, real>, a: string, b: string, c: string)
    requires RankedBefore(scores, a, b) && RankedBefore(scores, b, c)
    ensures RankedBefore(scores, a, c)
  {
    if ScoreOf(scores, a) == ScoreOf(scores, b) == ScoreOf(scores, c) {
      StrLessTransitive(a, b, c);
    }
  }

  lemma RankedBeforeTotal(scores: map<string, real>, a: string, b: string)
    requires a != b
    ensures RankedBefore(scores, a, b) || RankedBefore(scores, b, a)
  {
    StrLessTotal(a, b);
  }

  /** Inserts `x` before the first element it ranks before. */
  function InsertByRank(scores: map<string, real>, x: string, s: seq<string>): (r: seq<string>)
    ensures multiset(r) == multiset(s) + multiset{x} && |r| == |s| + 1
  {
    if s == [] then [x]
    else if RankedBefore(scores, x, s[0]) then [x] + s
    else
      assert s == [s[0]] + s[1..];
      [s[0]] + InsertByRank(scores, x, s[1..])
  }

  /** `sorted(ids, key=lambda i: (-score(i), i))`, by insertion. */
  function SortByRank(scores: map<string, real>, s: seq<string>): (r: seq<string>)
    ensures multiset(r) == multiset(s) && |r| == |s|
  {
    if s == [] then []
    else
      assert s == [s[0]] + s[1..];
      InsertByRank(scores, s[0], SortByRank(scores, s[1..]))
  }

  lemma {:induction false} InsertByRankSorted(scores: map<string, real>, x: string, s: seq<string>)
    requires SortedByRank(scores, s) && x !in s
    ensures SortedByRank(scores, InsertByRank(scores, x, s))
  {
    if s != [] && !RankedBefore(scores, x, s[0]) {
      RankedBeforeTotal(scores, x, s[0]);
      SortedTail(scores, s);
      var rest := InsertByRank(scores, x, s[1..]);
      InsertByRankSorted(scores, x, s[1..]);
      forall k | 0 <= k < |rest|
        ensures RankedBefore(scores, s[0], rest[k])
      {
        assert rest[k] in multiset(s[1..]) + multiset{x};
        if rest[k] != x {
          assert rest[k] in s[1..];
          var m :| 0 <= m < |s[1..]| && s[1..][m] == rest[k];
          assert s[m + 1] == rest[k];
        }
      }
      SortedCons(scores, s[0], rest);
    } else if s != [] {
      forall k | 0 <= k < |s|
        ensures RankedBefore(scores, x, s[k])
      {
        if k > 0 {
          RankedBeforeTransitive(scores, x, s[0], s[k]);
        }
      }
      SortedCons(scores, x, s);
    }
  }

  /** An element ranked before every element of a sorted sequence can be
      put in front of it. */
  lemma SortedCons(scores: map<string, real>, h: string, t: seq<string>)
    requires SortedByRank(scores, t)
    requires forall k :: 0 <= k < |t| ==> RankedBefore(scores, h, t[k])
    ensures SortedByRank(scores, [h] + t)
  {
    var r := [h] + t;
    forall i, j | 0 <= i < j < |r|
      ensures RankedBefore(scores, r[i], r[j])
    {
      assert r[j] == t[j - 1];
      if i > 0 {
        assert r[i] == t[i - 1];
      }
    }
  }

  /** The insertion sort of distinct ids is sorted by rank. */
  lemma {:induction false} SortByRankSorted(scores: map<string, real>, s: seq<string>)
    requires Distinct(s)
    ensures SortedByRank(scores, SortByRank(scores, s))
  {
    if s != [] {
      var tail := SortByRank(scores, s[1..]);
      SortByRankSorted(scores, s[1..]);
      assert s[0] !in s[1..];
      assert s[0] !in multiset(tail);
      InsertByRankSorted(scores, s[0], tail);
    }
  }

  /** A rank-sorted sequence has no repeated element. */
  lemma SortedDistinct(scores: map<string, real>, s: seq<string>)
    requires SortedByRank(scores, s)
    ensures Distinct(s)
  {
    forall i, j | 0 <= i < j < |s|
      ensures s[i] != s[j]
    {
      RankedBeforeAsymmetric(scores, s[i], s[j]);
    }
  }

  /** The first element of a rank-sorted sequence ranks before all others,
      so two sorted arrangements of the same ids start alike. */
  lemma SortedSameHead(scores: map<string, real>, a: seq<string>, b: seq<string>)
    requires SortedByRank(scores, a) && SortedByRank(scores, b) && multiset(a) == multiset(b)
    requires a != []
    ensures b != [] && a[0] == b[0]
  {
    assert a[0] in multiset(b);
    assert b != [];
    assert b[0] in multiset(a);
    if a[0] != b[0] {
      var i :| 0 <= i < |b| && b[i] == a[0];
      var j :| 0 <= j < |a| && a[j] == b[0];
      assert RankedBefore(scores, b[0], a[0]);
      assert RankedBefore(scores, a[0], b[0]);
      RankedBeforeAsymmetric(scores, b[0], a[0]);
      assert false;
    }
  }

  lemma SortedTail(scores: map<string, real>, a: seq<string>)
    requires SortedByRank(scores, a) && a != []
    ensures SortedByRank(scores, a[1..])
  {
    forall i, j | 0 <= i < j < |a| - 1
      ensures RankedBefore(scores, a[1..][i], a[1..][j])
    {
      assert a[1..][i] == a[i + 1] && a[1..][j] == a[j + 1];
    }
  }

  /** Two rank-sorted arrangements of the same ids are the same sequence:
      the insertion sort agrees with any other sort by this key. */
  lemma {:induction false} SortedUnique(scores: map<string, real>, a: seq<string>, b: seq<string>)
    requires SortedByRank(scores, a) && SortedByRank(scores, b) && multiset(a) == multiset(b)
    ensures a == b
  {
    if a == [] {
      assert |b| == |multiset(b)| == 0;
    } else {
      SortedSameHead(scores, a, b);
      SortedTail(scores, a);
      SortedTail(scores, b);
      TailMultiset(a);
      TailMultiset(b);
      SortedUnique(scores, a[1..], b[1..]);
      assert a == [a[0]] + a[1..] && b == [b[0]] + b[1..];
    }
  }

  lemma TailMultiset(s: seq<string>)
    requires s != []
    ensures multiset(s[1..]) == multiset(s) - multiset{s[0]}
  {
    assert s == [s[0]] + s[1..];
  }

  /** `sorted(ids)`: with no scores, the rank order is the string order. */
  function SortIds(ids: seq<string>): (r: seq<string>)
    ensures multiset(r) == multiset(ids) && |r| == |ids|
  {
    SortByRank(map[], ids)
  }

  lemma SortIdsOrdered(ids: seq<string>)
    requires Distinct(ids)
    ensures var r := SortIds(ids);
            forall i, j :: 0 <= i < j < |r| ==> StrLess(r[i], r[j])
  {
    SortByRankSorted(map[], ids);
  }
}
