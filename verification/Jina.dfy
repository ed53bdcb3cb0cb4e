/** The listwise backend: scores that come back ranked and tagged with the document they belong to
    are put back into the order of the request. */
module Jina {
  import opened Basics
  import opened Permutations
  import Batching

  type Scores = Result<seq<real>, string>

  const DIFFERENT_QUERIES := "listwise inference cannot combine different queries"
  const TOO_MANY_DOCUMENTS := "too many documents for Jina listwise inference"
  const INVALID_INDEXES := "Jina returned invalid document indexes"
  const NON_FINITE_SCORE := "Jina returned a non-finite relevance score"
  const MISSING_DOCUMENT := "Jina did not return every document"

  datatype Ranked = Ranked(index: int, score: Float)

  /** The first `k` entries tag different documents, out of `n`, with finite scores. */
  ghost predicate Fine(ranked: seq<Ranked>, n: nat, k: nat)
    requires k <= |ranked|
  {
    && (forall j :: 0 <= j < k ==> 0 <= ranked[j].index < n && ranked[j].score.Finite?)
    && (forall i, j :: 0 <= i < j < k ==> ranked[i].index != ranked[j].index)
  }

  /** The tags are a permutation of 0..n-1 and the scores are finite. */
  ghost predicate Complete(ranked: seq<Ranked>, n: nat) {
    |ranked| == n && Fine(ranked, n, n)
  }

  ghost predicate Covers(ranked: seq<Ranked>, n: nat) {
    forall i :: 0 <= i < n ==> Tagged(ranked, i, |ranked|)
  }

  ghost predicate Tagged(ranked: seq<Ranked>, i: nat, k: nat)
    requires k <= |ranked|
  {
    exists j :: 0 <= j < k && ranked[j].index == i
  }

  /** Each score sits at the place its tag names. */
  ghost predicate Scattered(ranked: seq<Ranked>, scores: seq<real>) {
    forall j :: 0 <= j < |ranked| ==>
      0 <= ranked[j].index < |scores| && ranked[j].score == Finite(scores[ranked[j].index])
  }

  /** Entry `k` is the first one the scatter stops at, with this message. */
  ghost predicate StopsAt(ranked: seq<Ranked>, n: nat, k: nat, message: string) {
    && k < |ranked| && Fine(ranked, n, k)
    && var entry := ranked[k];
       if !(0 <= entry.index < n) || Tagged(ranked, entry.index, k) then message == INVALID_INDEXES
       else !entry.score.Finite? && message == NON_FINITE_SCORE
  }

  function Tags(ranked: seq<Ranked>): seq<int> {
    seq(|ranked|, j requires 0 <= j < |ranked| => ranked[j].index)
  }

  /** Different tags below n are all of them exactly when there are n. */
  lemma CoversIffEnough(ranked: seq<Ranked>, n: nat)
    requires Fine(ranked, n, |ranked|)
    ensures Covers(ranked, n) <==> |ranked| == n
  {
    var tags := Tags(ranked);
    var below: set<int> := Below(n);
    ElementsCard(tags);
    assert NoDup(tags);
    assert Elements(tags) <= below;
    if |ranked| == n {
      SubsetEqual(Elements(tags), below);
      forall i | 0 <= i < n ensures Tagged(ranked, i, |ranked|) {
        assert i in below && i in Elements(tags);
        var j :| 0 <= j < |tags| && tags[j] == i;
        assert ranked[j].index == i;
      }
    } else if Covers(ranked, n) {
      CoveringTags(ranked, n);
    }
  }

  lemma CoveringTags(ranked: seq<Ranked>, n: nat)
    requires Covers(ranked, n)
    requires forall j :: 0 <= j < |ranked| ==> 0 <= ranked[j].index < n
    ensures |Elements(Tags(ranked))| == n
  {
    var tags := Tags(ranked);
    var below: set<int> := Below(n);
    forall i | i in below ensures i in Elements(tags) {
      assert Tagged(ranked, i, |ranked|);
      var j :| 0 <= j < |ranked| && ranked[j].index == i;
      assert tags[j] == i;
    }
    assert Elements(tags) == below;
  }

  /** n tags below n that reach every document are all different. */
  lemma CompleteIffCovers(ranked: seq<Ranked>, n: nat)
    ensures Complete(ranked, n) <==>
      && |ranked| == n && Covers(ranked, n)
      && forall j :: 0 <= j < |ranked| ==> 0 <= ranked[j].index < n && ranked[j].score.Finite?
  {
    if Complete(ranked, n) {
      CoversIffEnough(ranked, n);
    } else if |ranked| == n && Covers(ranked, n) && forall j :: 0 <= j < |ranked| ==> 0 <= ranked[j].index < n && ranked[j].score.Finite? {
      CoveringTags(ranked, n);
      var tags := Tags(ranked);
      ElementsCard(tags);
      forall i, j | 0 <= i < j < n ensures ranked[i].index != ranked[j].index {
        assert tags[i] != tags[j];
      }
      assert false;
    }
  }

  /** The order in which the model returns its results does not matter: neither to whether the
      scatter succeeds nor to the scores. */
  lemma OrderDoesNotMatter(ranked: seq<Ranked>, shuffled: seq<Ranked>, n: nat)
    requires multiset(ranked) == multiset(shuffled)
    ensures Complete(ranked, n) ==> Complete(shuffled, n)
    ensures forall a: seq<real>, b: seq<real> ::
      Complete(ranked, n) && |a| == n && |b| == n && Scattered(ranked, a) && Scattered(shuffled, b) ==> a == b
  {
    assert |ranked| == |multiset(ranked)| == |multiset(shuffled)| == |shuffled|;
    forall r: Ranked ensures r in ranked <==> r in shuffled {
      assert r in ranked <==> r in multiset(ranked);
      assert r in shuffled <==> r in multiset(shuffled);
    }
    if Complete(ranked, n) {
      CompleteIffCovers(ranked, n);
      forall j | 0 <= j < |shuffled| ensures 0 <= shuffled[j].index < n && shuffled[j].score.Finite? {
        assert shuffled[j] in ranked;
      }
      forall i | 0 <= i < n ensures Tagged(shuffled, i, |shuffled|) {
        assert Tagged(ranked, i, |ranked|);
        var k :| 0 <= k < |ranked| && ranked[k].index == i;
        assert ranked[k] in shuffled;
        var j :| 0 <= j < |shuffled| && shuffled[j] == ranked[k];
      }
      CompleteIffCovers(shuffled, n);
      forall a: seq<real>, b: seq<real> | |a| == n && |b| == n && Scattered(ranked, a) && Scattered(shuffled, b)
        ensures a == b
      {
        forall i | 0 <= i < n ensures a[i] == b[i] {
          SameScore(ranked, shuffled, a, b, i);
        }
      }
    }
  }

  lemma SameScore(ranked: seq<Ranked>, shuffled: seq<Ranked>, a: seq<real>, b: seq<real>, i: nat)
    requires i < |a| == |b| && Covers(ranked, |a|)
    requires forall r: Ranked :: r in ranked ==> r in shuffled
    requires Scattered(ranked, a) && Scattered(shuffled, b)
    ensures a[i] == b[i]
  {
    assert Tagged(ranked, i, |ranked|);
    var k :| 0 <= k < |ranked| && ranked[k].index == i;
    assert ranked[k] in shuffled;
    var j :| 0 <= j < |shuffled| && shuffled[j] == ranked[k];
  }

  /** The scores of the first `k` entries are in place, and nothing else is. */
  ghost predicate Filled(ranked: seq<Ranked>, scores: seq<Option<real>>, k: nat) {
    && k <= |ranked| && Fine(ranked, |scores|, k)
    && (forall j :: 0 <= j < k ==> scores[ranked[j].index] == Some(ranked[j].score.value))
    && (forall i :: 0 <= i < |scores| && scores[i].Some? ==> Tagged(ranked, i, k))
  }

  lemma FillOneMore(ranked: seq<Ranked>, scores: seq<Option<real>>, k: nat)
    requires Filled(ranked, scores, k) && k < |ranked|
    requires 0 <= ranked[k].index < |scores| && scores[ranked[k].index].None? && ranked[k].score.Finite?
    ensures Filled(ranked, scores[ranked[k].index := Some(ranked[k].score.value)], k + 1)
  {
    var filled := scores[ranked[k].index := Some(ranked[k].score.value)];
    forall i | 0 <= i < |filled| && filled[i].Some? ensures Tagged(ranked, i, k + 1) {
      if i == ranked[k].index {
        assert ranked[k].index == i;
      } else {
        assert Tagged(ranked, i, k);
      }
    }
  }

  /** An index out of range, repeated, or with a score that is not finite ends the scatter there. */
  lemma StopsHere(ranked: seq<Ranked>, scores: seq<Option<real>>, k: nat)
    requires Filled(ranked, scores, k) && k < |ranked|
    ensures var index := ranked[k].index;
      if index < 0 || index >= |scores| || scores[index].Some? then
        StopsAt(ranked, |scores|, k, INVALID_INDEXES) && !Fine(ranked, |scores|, k + 1)
      else ranked[k].score.Finite? || (StopsAt(ranked, |scores|, k, NON_FINITE_SCORE) && !Fine(ranked, |scores|, k + 1))
  {
  }

  lemma FineShorter(ranked: seq<Ranked>, n: nat, k: nat)
    requires k <= |ranked| && Fine(ranked, n, |ranked|)
    ensures Fine(ranked, n, k)
  {
  }

  /** All entries in place: no gap is left exactly when the tags are complete. */
  lemma AllFilled(ranked: seq<Ranked>, scores: seq<Option<real>>)
    requires Filled(ranked, scores, |ranked|)
    ensures (forall i :: 0 <= i < |scores| ==> scores[i].Some?) <==> Complete(ranked, |scores|)
    ensures Fine(ranked, |scores|, |ranked|) && |ranked| <= |scores|
  {
    CoversIffEnough(ranked, |scores|);
    MoreTagsThanDocuments(ranked, |scores|);
    if Covers(ranked, |scores|) {
      forall i | 0 <= i < |scores| ensures scores[i].Some? {
        assert Tagged(ranked, i, |ranked|);
      }
    }
  }

  /** The index scatter over what the model returned for `n` documents. */
  method Scatter(ranked: seq<Ranked>, n: nat) returns (r: Scores)
    ensures r.Ok? <==> Complete(ranked, n)
    ensures r.Ok? ==> |r.value| == n && Scattered(ranked, r.value)
    ensures r.Error? ==>
      || (Fine(ranked, n, |ranked|) && |ranked| < n && r.error == MISSING_DOCUMENT)
      || exists k :: StopsAt(ranked, n, k, r.error)
  {
    var scores: seq<Option<real>> := seq(n, _ => None);
    var k := 0;
    while k < |ranked|
      invariant 0 <= k <= |ranked| && |scores| == n && Filled(ranked, scores, k)
    {
      hide Filled, Fine, Tagged, StopsAt;
      StopsHere(ranked, scores, k);
      if Fine(ranked, n, |ranked|) {
        FineShorter(ranked, n, k + 1);
      }
      var result := ranked[k];
      var index := result.index;
      if index < 0 || index >= |scores| || scores[index].Some? {
        return Error(INVALID_INDEXES);
      }
      if !result.score.Finite? {
        return Error(NON_FINITE_SCORE);
      }
      FillOneMore(ranked, scores, k);
      scores := scores[index := Some(result.score.value)];
      k := k + 1;
    }
    AllFilled(ranked, scores);
    if exists i :: 0 <= i < |scores| && scores[i].None? {
      return Error(MISSING_DOCUMENT);
    }
    return Ok(seq(n, i requires 0 <= i < n => scores[i].value));
  }

  lemma MoreTagsThanDocuments(ranked: seq<Ranked>, n: nat)
    requires Fine(ranked, n, |ranked|)
    ensures |ranked| <= n
  {
    var tags := Tags(ranked);
    var below: set<int> := Below(n);
    ElementsCard(tags);
    assert NoDup(tags);
    SubsetCard(Elements(tags), below);
  }

  /** `rerank`: `rank` is the model, `limit` the most documents it takes. */
  method Rerank(pairs: seq<Batching.Pair>, limit: nat, rank: (string, seq<string>) -> seq<Ranked>) returns (r: Scores)
    ensures pairs == [] ==> r == Ok([])
    ensures (exists i :: 0 <= i < |pairs| && pairs[i].0 != pairs[0].0) ==> r == Error(DIFFERENT_QUERIES)
    ensures pairs != [] && (forall i :: 0 <= i < |pairs| ==> pairs[i].0 == pairs[0].0) ==>
      (if |pairs| > limit then r == Error(TOO_MANY_DOCUMENTS)
       else var ranked := rank(pairs[0].0, Documents(pairs));
         && (r.Ok? <==> Complete(ranked, |pairs|))
         && (r.Ok? ==> |r.value| == |pairs| && Scattered(ranked, r.value))
         && (r.Error? ==>
               || (Fine(ranked, |pairs|, |ranked|) && |ranked| < |pairs| && r.error == MISSING_DOCUMENT)
               || exists k :: StopsAt(ranked, |pairs|, k, r.error)))
  {
    if pairs == [] {
      return Ok([]);
    }
    var query := pairs[0].0;
    if exists i :: 0 <= i < |pairs| && pairs[i].0 != query {
      return Error(DIFFERENT_QUERIES);
    }
    if |pairs| > limit {
      return Error(TOO_MANY_DOCUMENTS);
    }
    r := Scatter(rank(query, Documents(pairs)), |pairs|);
  }

  /** What the model is given to rank: the second text of each pair, in order. */
  function Documents(pairs: seq<Batching.Pair>): (documents: seq<string>)
    ensures |documents| == |pairs| && forall i :: 0 <= i < |pairs| ==> documents[i] == pairs[i].1
  {
    seq(|pairs|, i requires 0 <= i < |pairs| => pairs[i].1)
  }
}
