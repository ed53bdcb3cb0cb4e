/** Stable sorting by descending score, as positions of the original list. */
module Ranking {
  import opened Batching
  import opened Permutations

  /** Item `a` comes before item `b`: a higher score, or the same score and an earlier position. */
  predicate Before(scores: seq<Score>, a: nat, b: nat)
    requires a < |scores| && b < |scores|
  {
    scores[a] > scores[b] || (scores[a] == scores[b] && a < b)
  }

  /** All positions, each once, every one before all that follow it. */
  ghost predicate IsRanking(scores: seq<Score>, order: seq<nat>) {
    && |order| == |scores|
    && (forall k :: 0 <= k < |order| ==> order[k] < |scores|)
    && (forall i, k :: 0 <= i < k < |order| ==> Before(scores, order[i], order[k]))
  }

  /** The higher score always comes first, and of equal scores the one that was first before. */
  predicate BestFirst(scores: seq<Score>, order: seq<nat>)
    requires forall k :: 0 <= k < |order| ==> order[k] < |scores|
  {
    forall i, k :: 0 <= i < k < |order| ==>
      scores[order[i]] >= scores[order[k]] && (scores[order[i]] == scores[order[k]] ==> order[i] < order[k])
  }

  lemma RankingIsBestFirst(scores: seq<Score>, order: seq<nat>)
    requires IsRanking(scores, order)
    ensures BestFirst(scores, order)
  {
    forall i, k | 0 <= i < k < |order|
      ensures scores[order[i]] >= scores[order[k]] && (scores[order[i]] == scores[order[k]] ==> order[i] < order[k])
    {
      assert Before(scores, order[i], order[k]);
    }
  }

  function Insert(scores: seq<Score>, i: nat, order: seq<nat>): seq<nat>
    requires i < |scores| && forall k :: 0 <= k < |order| ==> order[k] < |scores|
  {
    if order == [] || scores[i] >= scores[order[0]] then [i] + order
    else [order[0]] + Insert(scores, i, order[1..])
  }

  /** Positions `i` and up, sorted. Items are inserted from the last to the first, each in front of
      its equals, as a stable sort leaves them. */
  function SortFrom(scores: seq<Score>, i: nat): (order: seq<nat>)
    requires i <= |scores|
    ensures forall k :: 0 <= k < |order| ==> i <= order[k] < |scores|
    ensures |order| == |scores| - i
    ensures forall a, b :: 0 <= a < b < |order| ==> Before(scores, order[a], order[b])
    decreases |scores| - i
  {
    if i == |scores| then [] else
    var tail := SortFrom(scores, i + 1);
    InsertSorted(scores, i, tail);
    Insert(scores, i, tail)
  }

  lemma {:induction false} InsertSorted(scores: seq<Score>, i: nat, order: seq<nat>)
    requires i < |scores| && forall k :: 0 <= k < |order| ==> i < order[k] < |scores|
    requires forall a, b :: 0 <= a < b < |order| ==> Before(scores, order[a], order[b])
    ensures var r := Insert(scores, i, order);
      && |r| == |order| + 1
      && (forall k :: 0 <= k < |r| ==> r[k] == i || r[k] in order)
      && (forall a, b :: 0 <= a < b < |r| ==> r[a] < |scores| && r[b] < |scores| && Before(scores, r[a], r[b]))
  {
    if order != [] && scores[i] < scores[order[0]] {
      InsertSorted(scores, i, order[1..]);
    }
  }

  function Sorted(scores: seq<Score>): (order: seq<nat>)
    ensures IsRanking(scores, order)
  {
    SortFrom(scores, 0)
  }

  lemma RankingIsPerm(scores: seq<Score>, order: seq<nat>)
    requires IsRanking(scores, order)
    ensures IsPerm(order)
  {
    forall i, k | 0 <= i < k < |order| ensures order[i] != order[k] {
      assert Before(scores, order[i], order[k]);
    }
  }

  function Better(scores: seq<Score>, x: nat): set<nat>
    requires x < |scores|
  {
    set y: nat | y < |scores| && Before(scores, y, x)
  }

  /** The item at position k of a ranking is beaten by exactly k others. */
  lemma PositionCountsBetter(scores: seq<Score>, order: seq<nat>, k: nat)
    requires IsRanking(scores, order) && k < |order|
    ensures |Better(scores, order[k])| == k
  {
    RankingIsPerm(scores, order);
    assert NoDup(order[..k]);
    ElementsCard(order[..k]);
    forall y: nat | y < |scores| && Before(scores, y, order[k]) ensures y in order[..k] {
      var i := Surjective(order, y);
      assert i < k ==> order[..k][i] == y;
    }
    assert Better(scores, order[k]) == Elements(order[..k]);
  }

  /** There is only one stable descending order. */
  lemma RankingUnique(scores: seq<Score>, a: seq<nat>, b: seq<nat>)
    requires IsRanking(scores, a) && IsRanking(scores, b)
    ensures a == b
  {
    RankingIsPerm(scores, b);
    forall k | 0 <= k < |a| ensures a[k] == b[k] {
      var i := Surjective(b, a[k]);
      PositionCountsBetter(scores, a, k);
      PositionCountsBetter(scores, b, i);
    }
  }
}
