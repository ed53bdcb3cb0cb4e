/** Agreement between two rankings of the same documents: Spearman's and Kendall's coefficients,
    top-1 agreement and top-k overlap. */
module Parity {
  import opened Basics
  import opened Permutations

  const DIFFERENT_IDS := "rankings must contain the same unique document IDs"
  const DUPLICATE_IDS := "rankings must not contain duplicate document IDs"

  datatype Report = Report(spearman: real, kendall: real, top1: real, overlaps: seq<real>)

  /* ---------- what is accepted ---------- */

  predicate Comparable(baseline: seq<string>, candidate: seq<string>) {
    && |baseline| == |candidate|
    && Elements(baseline) == Elements(candidate)
    && |Elements(baseline)| == |baseline|
  }

  /** The checks accept exactly two duplicate-free rankings of the same documents. */
  lemma ComparableMeans(baseline: seq<string>, candidate: seq<string>)
    ensures Comparable(baseline, candidate) <==>
      NoDup(baseline) && NoDup(candidate) && Elements(baseline) == Elements(candidate)
  {
    ElementsCard(baseline);
    ElementsCard(candidate);
  }

  /* ---------- the permutation between two rankings ---------- */

  function IndexOf(ranking: seq<string>, id: string): (k: nat)
    requires id in ranking
    ensures k < |ranking| && ranking[k] == id
  {
    if ranking[0] == id then 0 else 1 + IndexOf(ranking[1..], id)
  }

  /** Where the candidate puts the document the baseline has at each position. */
  function Moves(baseline: seq<string>, candidate: seq<string>): (p: seq<nat>)
    requires Elements(baseline) == Elements(candidate)
    ensures |p| == |baseline|
    ensures forall i :: 0 <= i < |p| ==> p[i] < |candidate| && candidate[p[i]] == baseline[i]
  {
    seq(|baseline|, i requires 0 <= i < |baseline| =>
      (assert baseline[i] in Elements(baseline); IndexOf(candidate, baseline[i])))
  }

  lemma MovesInverse(baseline: seq<string>, candidate: seq<string>)
    requires Comparable(baseline, candidate)
    ensures Inverse(Moves(baseline, candidate), Moves(candidate, baseline))
  {
    ComparableMeans(baseline, candidate);
    var p, q := Moves(baseline, candidate), Moves(candidate, baseline);
    forall i | 0 <= i < |p| ensures q[p[i]] == i {
      assert baseline[q[p[i]]] == candidate[p[i]] == baseline[i];
    }
    forall i | 0 <= i < |q| ensures p[q[i]] == i {
      assert candidate[p[q[i]]] == baseline[q[i]] == candidate[i];
    }
    forall i, k | 0 <= i < k < |p| ensures p[i] != p[k] && q[i] != q[k] {
      assert q[p[i]] == i && q[p[k]] == k && p[q[i]] == i && p[q[k]] == k;
    }
  }

  function Reversed(ranking: seq<string>): (r: seq<string>)
    ensures |r| == |ranking|
  {
    seq(|ranking|, i requires 0 <= i < |ranking| => ranking[|ranking| - 1 - i])
  }

  lemma ReversedAt(ranking: seq<string>, i: nat)
    requires i < |ranking|
    ensures Reversed(ranking)[i] == ranking[|ranking| - 1 - i]
  {
  }

  lemma MovesIdentity(baseline: seq<string>, candidate: seq<string>)
    requires Comparable(baseline, candidate)
    ensures candidate == baseline <==> IsIdentity(Moves(baseline, candidate))
  {
    ComparableMeans(baseline, candidate);
    var p := Moves(baseline, candidate);
    if IsIdentity(p) {
      forall i | 0 <= i < |p| ensures candidate[i] == baseline[i] {
        assert candidate[p[i]] == baseline[i];
      }
    }
    if candidate == baseline {
      forall i | 0 <= i < |p| ensures p[i] == i {
        assert candidate[p[i]] == candidate[i];
      }
    }
  }

  lemma MovesReversal(baseline: seq<string>, candidate: seq<string>)
    requires Comparable(baseline, candidate)
    ensures candidate == Reversed(baseline) <==> IsReversal(Moves(baseline, candidate))
  {
    hide Reversed, Moves;
    ComparableMeans(baseline, candidate);
    var p := Moves(baseline, candidate);
    if IsReversal(p) {
      forall i | 0 <= i < |p| ensures candidate[i] == Reversed(baseline)[i] {
        var k := |p| - 1 - i;
        assert candidate[p[k]] == baseline[k] && p[k] == i;
        ReversedAt(baseline, i);
      }
    }
    if candidate == Reversed(baseline) {
      forall i | 0 <= i < |p| ensures p[i] == |p| - 1 - i {
        ReversedAt(baseline, |p| - 1 - i);
        assert candidate[p[i]] == baseline[i] == candidate[|p| - 1 - i];
      }
    }
  }

  /* ---------- Spearman ---------- */

  function SquaredDifference(baseline: seq<string>, candidate: seq<string>): int
    requires Comparable(baseline, candidate)
  {
    Sum(Differences(Moves(baseline, candidate)))
  }

  function Spearman(baseline: seq<string>, candidate: seq<string>): real
    requires Comparable(baseline, candidate)
  {
    var n := |baseline|;
    if n < 2 then 1.0
    else 1.0 - (6 * SquaredDifference(baseline, candidate)) as real / (n * (n * n - 1)) as real
  }

  lemma CubicPositive(n: nat)
    requires n >= 2
    ensures n * (n * n - 1) > 0
  {
    assert n * n >= 4;
  }

  lemma RatioBounds(d: int, total: int)
    requires 0 <= 3 * d <= total && total > 0
    ensures var rho := 1.0 - (6 * d) as real / total as real;
      && -1.0 <= rho <= 1.0
      && (rho == 1.0 <==> d == 0)
      && (rho == -1.0 <==> 3 * d == total)
  {
    QuotientOrder((6 * d) as real, total as real, 0.0);
    QuotientOrder((6 * d) as real, total as real, 2.0);
  }

  lemma SmallRankings(baseline: seq<string>, candidate: seq<string>)
    requires Comparable(baseline, candidate) && |baseline| < 2
    ensures candidate == baseline
  {
    if baseline != [] {
      assert baseline[0] in Elements(candidate);
    }
  }

  /** The squared rank differences never exceed n(n^2-1)/3, so the coefficient lies in [-1, 1]; it is
      1 exactly for identical rankings and -1 exactly for reversed ones. */
  lemma SpearmanBounds(baseline: seq<string>, candidate: seq<string>)
    requires Comparable(baseline, candidate)
    ensures var n := |baseline|;
      && 0 <= 3 * SquaredDifference(baseline, candidate) <= n * (n * n - 1)
      && -1.0 <= Spearman(baseline, candidate) <= 1.0
      && (Spearman(baseline, candidate) == 1.0 <==> candidate == baseline)
      && (n >= 2 ==> (Spearman(baseline, candidate) == -1.0 <==> candidate == Reversed(baseline)))
  {
    hide Sum, Differences, Reversals, Moves, Reversed, IsIdentity, IsReversal;
    var n := |baseline|;
    var p := Moves(baseline, candidate);
    MovesInverse(baseline, candidate);
    MovesIdentity(baseline, candidate);
    MovesReversal(baseline, candidate);
    DifferencesAndReversals(p);
    ZeroDifferences(p);
    ZeroReversals(p);
    if n >= 2 {
      CubicPositive(n);
      RatioBounds(SquaredDifference(baseline, candidate), n * (n * n - 1));
    } else {
      SmallRankings(baseline, candidate);
    }
  }

  /** Twice how far a document's rank is from the middle rank. */
  function Deviation(ranking: seq<string>, id: string): int
    requires id in ranking
  {
    2 * IndexOf(ranking, id) - (|ranking| - 1)
  }

  /** Two rankings' deviations, multiplied document by document. */
  function Deviations(a: seq<string>, b: seq<string>, documents: seq<string>): (r: seq<int>)
    requires forall i :: 0 <= i < |documents| ==> documents[i] in a && documents[i] in b
    ensures |r| == |documents|
    ensures forall i :: 0 <= i < |r| ==> r[i] == Product(Deviation(a, documents[i]), Deviation(b, documents[i]))
  {
    seq(|documents|, i requires 0 <= i < |documents| => Product(Deviation(a, documents[i]), Deviation(b, documents[i])))
  }

  function Covariance(a: seq<string>, b: seq<string>, documents: seq<string>): int
    requires forall i :: 0 <= i < |documents| ==> documents[i] in a && documents[i] in b
  {
    Sum(Deviations(a, b, documents))
  }

  lemma IndexOfOwn(ranking: seq<string>, i: nat)
    requires NoDup(ranking) && i < |ranking|
    ensures IndexOf(ranking, ranking[i]) == i
  {
  }

  /** Spearman's coefficient is the correlation of the two rankings' ranks: their covariance over the
      variance, which is the same for both. */
  lemma SpearmanIsCorrelation(baseline: seq<string>, candidate: seq<string>)
    requires Comparable(baseline, candidate) && |baseline| >= 2
    ensures forall i :: 0 <= i < |baseline| ==> baseline[i] in candidate
    ensures Covariance(baseline, baseline, baseline) == Covariance(candidate, candidate, baseline) > 0
    ensures Spearman(baseline, candidate)
            == Covariance(baseline, candidate, baseline) as real / Covariance(baseline, baseline, baseline) as real
  {
    var n := |baseline|;
    var p := Moves(baseline, candidate);
    MovesInverse(baseline, candidate);
    ProductsAndDifferences(p);
    SpreadTotal(n);
    CubicPositive(n);
    CovariancesAreSums(baseline, candidate);
    hide Moves, Sum, Differences, Products, Spread, Compose, Covariance, NoDup, Comparable, IsPerm;
    CorrelationRatio(Sum(Differences(p)), Sum(Products(p)), Sum(Spread(n, n - 1)), n * (n * n - 1));
  }

  lemma DeviationsAre(baseline: seq<string>, candidate: seq<string>)
    requires Comparable(baseline, candidate)
    ensures IsPerm(Moves(baseline, candidate))
    ensures forall i :: 0 <= i < |baseline| ==>
      && baseline[i] in candidate
      && Deviation(baseline, baseline[i]) == 2 * i - (|baseline| - 1)
      && Deviation(candidate, baseline[i]) == 2 * Moves(baseline, candidate)[i] - (|baseline| - 1)
  {
    ComparableMeans(baseline, candidate);
    MovesInverse(baseline, candidate);
    forall i | 0 <= i < |baseline|
      ensures baseline[i] in candidate && Deviation(baseline, baseline[i]) == 2 * i - (|baseline| - 1)
      ensures Deviation(candidate, baseline[i]) == 2 * Moves(baseline, candidate)[i] - (|baseline| - 1)
    {
      assert baseline[i] in Elements(baseline);
      IndexOfOwn(baseline, i);
    }
  }

  lemma CovariancesAreSums(baseline: seq<string>, candidate: seq<string>)
    requires Comparable(baseline, candidate)
    ensures forall i :: 0 <= i < |baseline| ==> baseline[i] in candidate
    ensures var n, p := |baseline|, Moves(baseline, candidate);
      && IsPerm(p)
      && Covariance(baseline, candidate, baseline) == Sum(Products(p))
      && Covariance(baseline, baseline, baseline) == Sum(Spread(n, n - 1))
      && Covariance(candidate, candidate, baseline) == Sum(Compose(Spread(n, n - 1), p))
  {
    DeviationsAre(baseline, candidate);
    var n, p := |baseline|, Moves(baseline, candidate);
    hide Deviation, Moves, Comparable, Sum, Product, Square, Deviations, Products, Spread, Compose;
    ProductsOf(baseline, candidate, p);
    SquaresOf(baseline, baseline, n);
    SquaresOfMoves(baseline, candidate, p);
  }

  lemma ProductsOf(baseline: seq<string>, candidate: seq<string>, p: seq<nat>)
    requires |p| == |baseline| && forall i :: 0 <= i < |p| ==>
      && baseline[i] in candidate
      && Deviation(baseline, baseline[i]) == 2 * i - (|p| - 1) && Deviation(candidate, baseline[i]) == 2 * p[i] - (|p| - 1)
    ensures Deviations(baseline, candidate, baseline) == Products(p)
  {
    hide Product, Deviation;
  }

  lemma SquaresOf(ranking: seq<string>, documents: seq<string>, n: nat)
    requires n == |documents| && forall i :: 0 <= i < n ==>
      documents[i] in ranking && Deviation(ranking, documents[i]) == 2 * i - (n - 1)
    ensures Deviations(ranking, ranking, documents) == Spread(n, n - 1)
  {
    hide Product, Square, Deviation;
    forall i | 0 <= i < n ensures Deviations(ranking, ranking, documents)[i] == Spread(n, n - 1)[i] {
      ProductSquare(2 * i - (n - 1));
    }
  }

  lemma SquaresOfMoves(baseline: seq<string>, candidate: seq<string>, p: seq<nat>)
    requires |p| == |baseline| && IsPerm(p) && forall i :: 0 <= i < |p| ==>
      baseline[i] in candidate && Deviation(candidate, baseline[i]) == 2 * p[i] - (|p| - 1)
    ensures Deviations(candidate, candidate, baseline) == Compose(Spread(|p|, |p| - 1), p)
  {
    hide Product, Square, Deviation;
    forall i | 0 <= i < |p| ensures Deviations(candidate, candidate, baseline)[i] == Compose(Spread(|p|, |p| - 1), p)[i] {
      ProductSquare(2 * p[i] - (|p| - 1));
    }
  }

  lemma ProductSquare(x: int)
    ensures Product(x, x) == Square(x)
  {
  }

  lemma CorrelationRatio(d: int, c: int, v: int, total: int)
    requires 2 * d + c == v && 3 * v == total && total > 0
    ensures 1.0 - (6 * d) as real / total as real == c as real / v as real
  {
    var x := c as real / v as real;
    QuotientOrder(c as real, v as real, x);
    QuotientOrder((6 * d) as real, total as real, 1.0 - x);
    assert (6 * d) as real == (1.0 - x) * total as real;
  }

  /* ---------- Kendall ---------- */

  function Kendall(baseline: seq<string>, candidate: seq<string>): real
    requires Comparable(baseline, candidate)
    requires |baseline| >= 2 ==> |Concordant(Moves(baseline, candidate))| + |Discordant(Moves(baseline, candidate))| > 0
  {
    if |baseline| < 2 then 1.0 else
    var p := Moves(baseline, candidate);
    Tau(|Concordant(p)|, |Discordant(p)|)
  }

  function Tau(concordant: nat, discordant: nat): real
    requires concordant + discordant > 0
  {
    (concordant - discordant) as real / (concordant + discordant) as real
  }

  /** The loops look at every pair of positions once: n(n-1)/2 in all. */
  lemma PairCount(baseline: seq<string>, candidate: seq<string>)
    requires Comparable(baseline, candidate)
    ensures var p := Moves(baseline, candidate);
      && 2 * (|Concordant(p)| + |Discordant(p)|) == |baseline| * (|baseline| - 1)
      && (|baseline| >= 2 ==> |Concordant(p)| + |Discordant(p)| > 0)
  {
    PairsSplit(Moves(baseline, candidate));
    AllPairsCard(|baseline|);
    if |baseline| >= 2 {
      assert |baseline| * (|baseline| - 1) >= 2;
    }
  }

  lemma SomePairs(baseline: seq<string>, candidate: seq<string>)
    requires Comparable(baseline, candidate)
    ensures var p := Moves(baseline, candidate);
      |baseline| >= 2 ==> |Concordant(p)| + |Discordant(p)| > 0
  {
    PairCount(baseline, candidate);
  }

  lemma TauBounds(c: nat, d: nat)
    requires c + d > 0
    ensures -1.0 <= Tau(c, d) <= 1.0
    ensures Tau(c, d) == 1.0 <==> d == 0
    ensures Tau(c, d) == -1.0 <==> c == 0
  {
    QuotientOrder((c - d) as real, (c + d) as real, 1.0);
    QuotientOrder((c - d) as real, (c + d) as real, -1.0);
  }

  /** The coefficient lies in [-1, 1], is 1 exactly for identical rankings and -1 exactly for
      reversed ones. */
  lemma KendallBounds(baseline: seq<string>, candidate: seq<string>)
    requires Comparable(baseline, candidate)
    ensures var p := Moves(baseline, candidate);
      && (|baseline| >= 2 ==> |Concordant(p)| + |Discordant(p)| > 0)
      && -1.0 <= Kendall(baseline, candidate) <= 1.0
      && (Kendall(baseline, candidate) == 1.0 <==> candidate == baseline)
      && (|baseline| >= 2 ==> (Kendall(baseline, candidate) == -1.0 <==> candidate == Reversed(baseline)))
  {
    var p := Moves(baseline, candidate);
    SomePairs(baseline, candidate);
    MovesInverse(baseline, candidate);
    hide Moves, Reversed, IsIdentity, IsReversal, Concordant, Discordant, Tau;
    MovesIdentity(baseline, candidate);
    MovesReversal(baseline, candidate);
    NoInversions(p);
    OnlyInversions(p);
    if |baseline| >= 2 {
      TauBounds(|Concordant(p)|, |Discordant(p)|);
    } else {
      SmallRankings(baseline, candidate);
    }
  }

  /** One document stands before another. */
  ghost predicate Ahead(ranking: seq<string>, a: string, b: string) {
    exists i, k :: 0 <= i < k < |ranking| && ranking[i] == a && ranking[k] == b
  }

  /** The pairs of documents that the two rankings put in different orders. */
  ghost function TurnedAround(baseline: seq<string>, candidate: seq<string>): set<(string, string)> {
    set a, b | a in Elements(baseline) && b in Elements(baseline) && Ahead(baseline, a, b) && Ahead(candidate, b, a) :: (a, b)
  }

  lemma AheadMeans(ranking: seq<string>, a: string, b: string)
    requires NoDup(ranking) && a in ranking && b in ranking
    ensures Ahead(ranking, a, b) <==> IndexOf(ranking, a) < IndexOf(ranking, b)
  {
    if Ahead(ranking, a, b) {
      var i, k :| 0 <= i < k < |ranking| && ranking[i] == a && ranking[k] == b;
      IndexOfOwn(ranking, i);
      IndexOfOwn(ranking, k);
    }
  }

  lemma TurnedMeans(baseline: seq<string>, candidate: seq<string>, i: nat, k: nat)
    requires Comparable(baseline, candidate) && i < |baseline| && k < |baseline|
    ensures (baseline[i], baseline[k]) in TurnedAround(baseline, candidate) <==> (i, k) in Discordant(Moves(baseline, candidate))
  {
    ComparableMeans(baseline, candidate);
    assert baseline[i] in Elements(baseline) && baseline[k] in Elements(baseline);
    MovedTo(baseline, candidate, i);
    MovedTo(baseline, candidate, k);
    hide Ahead, Moves, IndexOf, NoDup;
    IndexOfOwn(baseline, i);
    IndexOfOwn(baseline, k);
    AheadMeans(baseline, baseline[i], baseline[k]);
    AheadMeans(candidate, baseline[k], baseline[i]);
    if i != k {
      DifferentMoves(baseline, candidate, i, k);
    }
  }

  lemma DifferentMoves(baseline: seq<string>, candidate: seq<string>, i: nat, k: nat)
    requires Comparable(baseline, candidate) && i < |baseline| && k < |baseline| && i != k
    ensures Moves(baseline, candidate)[i] != Moves(baseline, candidate)[k]
  {
    MovesInverse(baseline, candidate);
  }

  lemma MovedTo(baseline: seq<string>, candidate: seq<string>, i: nat)
    requires Comparable(baseline, candidate) && i < |baseline|
    ensures baseline[i] in candidate && IndexOf(candidate, baseline[i]) == Moves(baseline, candidate)[i]
  {
    assert baseline[i] in Elements(baseline);
  }

  lemma TurnedCard(baseline: seq<string>, candidate: seq<string>)
    requires Comparable(baseline, candidate)
    ensures |TurnedAround(baseline, candidate)| == |Discordant(Moves(baseline, candidate))|
  {
    ComparableMeans(baseline, candidate);
    var p := Moves(baseline, candidate);
    var there := (t: (nat, nat)) requires t.0 < |baseline| && t.1 < |baseline| => (baseline[t.0], baseline[t.1]);
    var back := (t: (string, string)) requires t.0 in baseline && t.1 in baseline => (IndexOf(baseline, t.0), IndexOf(baseline, t.1));
    forall t | t in Discordant(p) ensures there.requires(t) && there(t) in TurnedAround(baseline, candidate) {
      TurnedMeans(baseline, candidate, t.0, t.1);
    }
    forall t | t in TurnedAround(baseline, candidate) ensures back.requires(t) && back(t) in Discordant(p) {
      TurnedMeans(baseline, candidate, IndexOf(baseline, t.0), IndexOf(baseline, t.1));
    }
    hide Discordant, TurnedAround, Moves;
    InjectionCard(Discordant(p), TurnedAround(baseline, candidate), there);
    InjectionCard(TurnedAround(baseline, candidate), Discordant(p), back);
  }

  /** Kendall's coefficient is 1 less four times the pairs of documents in different orders over n(n-1),
      which is twice the share of such pairs. */
  lemma KendallCounts(baseline: seq<string>, candidate: seq<string>)
    requires Comparable(baseline, candidate) && |baseline| >= 2
    ensures |Concordant(Moves(baseline, candidate))| + |Discordant(Moves(baseline, candidate))| > 0
    ensures var n := |baseline|;
      n * (n - 1) > 0 && Kendall(baseline, candidate) == 1.0 - (4 * |TurnedAround(baseline, candidate)|) as real / (n * (n - 1)) as real
  {
    PairCount(baseline, candidate);
    TurnedCard(baseline, candidate);
    var p := Moves(baseline, candidate);
    hide Concordant, Discordant, Moves, TurnedAround;
    TauCounts(|Concordant(p)|, |Discordant(p)|, |baseline| * (|baseline| - 1));
  }

  lemma TauCounts(c: nat, d: nat, pairs: nat)
    requires c + d > 0 && 2 * (c + d) == pairs
    ensures Tau(c, d) == 1.0 - (4 * d) as real / pairs as real
  {
    var x := Tau(c, d);
    QuotientOrder((c - d) as real, (c + d) as real, x);
    QuotientOrder((4 * d) as real, pairs as real, 1.0 - x);
    assert (4 * d) as real == (1.0 - x) * pairs as real;
  }

  /** Neither coefficient depends on which of the two rankings is called the baseline. */
  lemma Symmetric(baseline: seq<string>, candidate: seq<string>)
    requires Comparable(baseline, candidate)
    ensures Comparable(candidate, baseline)
    ensures |baseline| >= 2 ==> |Concordant(Moves(baseline, candidate))| + |Discordant(Moves(baseline, candidate))| > 0
    ensures |baseline| >= 2 ==> |Concordant(Moves(candidate, baseline))| + |Discordant(Moves(candidate, baseline))| > 0
    ensures Spearman(baseline, candidate) == Spearman(candidate, baseline)
    ensures Kendall(baseline, candidate) == Kendall(candidate, baseline)
  {
    hide Moves, Concordant, Discordant, Differences, Sum, Tau;
    var p, q := Moves(baseline, candidate), Moves(candidate, baseline);
    MovesInverse(baseline, candidate);
    SomePairs(baseline, candidate);
    SomePairs(candidate, baseline);
    PairsSplit(p);
    PairsSplit(q);
    DifferencesOfInverse(p, q);
    InversionsOfInverse(p, q);
  }

  /* ---------- top-k ---------- */

  /** How many documents are asked for, at most all of them; a negative number is kept. */
  function Top(requested: int, count: nat): int {
    if requested < count then requested else count
  }

  /** The first `top` documents; a negative number leaves out that many at the end instead. */
  function Head(ranking: seq<string>, top: int): seq<string>
    requires top <= |ranking|
  {
    if top >= 0 then ranking[..top] else if -top <= |ranking| then ranking[..|ranking| + top] else []
  }

  function Shared(baseline: seq<string>, candidate: seq<string>, top: int): nat
    requires top <= |baseline| == |candidate|
  {
    |Elements(Head(baseline, top)) * Elements(Head(candidate, top))|
  }

  function Overlap(baseline: seq<string>, candidate: seq<string>, requested: int): real
    requires |baseline| == |candidate|
  {
    var top := Top(requested, |baseline|);
    if top == 0 then 1.0 else Shared(baseline, candidate, top) as real / top as real
  }

  lemma CommonCard<T>(b: set<T>, c: set<T>)
    requires |b| == |c|
    ensures |b * c| <= |b| && (|b * c| == |b| <==> b == c)
  {
    SubsetCard(b * c, b);
    if |b * c| == |b| {
      SubsetEqual(b * c, b);
      SubsetEqual(b * c, c);
    }
    if b == c {
      assert b * c == b;
    }
  }

  lemma TopCard(ranking: seq<string>, top: nat)
    requires NoDup(ranking) && top <= |ranking|
    ensures |Elements(ranking[..top])| == top
  {
    assert NoDup(ranking[..top]);
    ElementsCard(ranking[..top]);
  }

  lemma SharedOnTop(baseline: seq<string>, candidate: seq<string>, top: nat)
    requires Comparable(baseline, candidate) && top <= |baseline|
    ensures Shared(baseline, candidate, top) <= top
    ensures Shared(baseline, candidate, top) == top <==> Elements(baseline[..top]) == Elements(candidate[..top])
    ensures top == |baseline| ==> Elements(baseline[..top]) == Elements(candidate[..top])
  {
    ComparableMeans(baseline, candidate);
    TopCard(baseline, top);
    TopCard(candidate, top);
    hide NoDup, Elements;
    CommonCard(Elements(baseline[..top]), Elements(candidate[..top]));
    if top == |baseline| {
      assert baseline[..top] == baseline && candidate[..top] == candidate;
    }
  }

  lemma SharedSymmetric(baseline: seq<string>, candidate: seq<string>, top: int)
    requires top <= |baseline| == |candidate|
    ensures Shared(baseline, candidate, top) == Shared(candidate, baseline, top)
  {
    hide Elements, Head;
    var b, c := Elements(Head(baseline, top)), Elements(Head(candidate, top));
    assert b * c == c * b;
  }

  /** For a number that is not negative the overlap is a fraction, and is 1 exactly when both rankings
      have the same documents on top; asking for at least all documents always gives 1. */
  lemma OverlapBounds(baseline: seq<string>, candidate: seq<string>, requested: int)
    requires Comparable(baseline, candidate)
    ensures Overlap(baseline, candidate, requested) == Overlap(candidate, baseline, requested)
    ensures requested >= 0 ==>
      var top := Top(requested, |baseline|);
      var overlap := Overlap(baseline, candidate, requested);
      && 0.0 <= overlap <= 1.0
      && (overlap == 1.0 <==> Elements(baseline[..top]) == Elements(candidate[..top]))
      && (requested >= |baseline| ==> overlap == 1.0)
  {
    hide Shared, Elements;
    var top := Top(requested, |baseline|);
    SharedSymmetric(baseline, candidate, top);
    if requested >= 0 {
      SharedOnTop(baseline, candidate, top);
      if top > 0 {
        FractionBounds(Shared(baseline, candidate, top), top);
      }
    }
  }

  /** What the overlap counts: the documents that both rankings have among their first ones, over how many
      those are; and it is 1 where there are none to compare. */
  lemma OverlapCounts(baseline: seq<string>, candidate: seq<string>, requested: nat)
    requires Comparable(baseline, candidate)
    ensures var top := if requested < |baseline| then requested else |baseline|;
      var shared := set id | id in baseline[..top] && id in candidate[..top];
      Overlap(baseline, candidate, requested) == if top == 0 then 1.0 else |shared| as real / top as real
  {
    var top := Top(requested, |baseline|);
    var shared := set id | id in baseline[..top] && id in candidate[..top];
    assert shared == Elements(Head(baseline, top)) * Elements(Head(candidate, top));
  }

  /** The overlap is a fraction between 0 and 1 if and only if the number asked for is not negative or
      the two shortened rankings have no document in common; otherwise it is below 0. */
  lemma OverlapIsFractionIff(baseline: seq<string>, candidate: seq<string>, requested: int)
    requires Comparable(baseline, candidate)
    ensures 0.0 <= Overlap(baseline, candidate, requested) <= 1.0
            <==> requested >= 0 || Elements(Head(baseline, requested)) * Elements(Head(candidate, requested)) == {}
    ensures requested < 0 ==> Overlap(baseline, candidate, requested) <= 0.0
  {
    if requested >= 0 {
      OverlapBounds(baseline, candidate, requested);
    } else {
      NegativeQuotient(Shared(baseline, candidate, requested), requested);
      var b, c := Elements(Head(baseline, requested)), Elements(Head(candidate, requested));
      assert |b * c| == 0 <==> b * c == {};
    }
  }

  /** An input that shows it: two equal rankings of two documents overlap by -1 at -1. */
  lemma NegativeTop()
    ensures Comparable(["a", "b"], ["a", "b"]) && Overlap(["a", "b"], ["a", "b"], -1) == -1.0
  {
    assert Elements(["a", "b"]) == {"a", "b"};
    assert Head(["a", "b"], -1) == ["a"];
    assert Elements(["a"]) == {"a"};
    assert {"a"} * {"a"} == {"a"};
  }

  lemma NegativeQuotient(k: nat, d: int)
    requires d < 0
    ensures k as real / d as real <= 0.0
    ensures k as real / d as real == 0.0 <==> k == 0
  {
    QuotientOrder(k as real, (-d) as real, 0.0);
    QuotientSign(k as real, d as real);
  }

  lemma QuotientSign(a: real, b: real)
    requires b < 0.0
    ensures a / b == -(a / -b)
  {
  }

  lemma FractionBounds(k: nat, n: nat)
    requires k <= n && n > 0
    ensures 0.0 <= k as real / n as real <= 1.0
    ensures k as real / n as real == 1.0 <==> k == n
  {
    QuotientOrder(k as real, n as real, 0.0);
    QuotientOrder(k as real, n as real, 1.0);
  }

  /* ---------- the program ---------- */

  /** The position of every document in the ranking. */
  method RankMap(ranking: seq<string>) returns (rank: map<string, nat>)
    requires NoDup(ranking)
    ensures rank.Keys == Elements(ranking)
    ensures forall k :: 0 <= k < |ranking| ==> rank[ranking[k]] == k
  {
    rank := map[];
    for index := 0 to |ranking|
      invariant rank.Keys == Elements(ranking[..index])
      invariant forall k :: 0 <= k < index ==> ranking[k] in rank && rank[ranking[k]] == k
    {
      assert ranking[..index + 1] == ranking[..index] + [ranking[index]];
      rank := rank[ranking[index] := index];
    }
    assert ranking[..|ranking|] == ranking;
  }

  /** The pairs the nested loops have looked at before position (`left`, `right`). */
  ghost function Seen(pairs: set<(nat, nat)>, left: nat, right: nat): set<(nat, nat)> {
    set t | t in pairs && (t.0 < left || (t.0 == left && t.1 < right))
  }

  lemma SeenStep(pairs: set<(nat, nat)>, left: nat, right: nat)
    ensures |Seen(pairs, left, right + 1)| == |Seen(pairs, left, right)| + if (left, right) in pairs then 1 else 0
  {
    var t := (left, right);
    if t in pairs {
      assert Seen(pairs, left, right + 1) == Seen(pairs, left, right) + {t};
    } else {
      assert Seen(pairs, left, right + 1) == Seen(pairs, left, right);
    }
  }

  lemma PairKind(p: seq<nat>, left: nat, right: nat)
    requires left < right < |p|
    ensures (left, right) in Concordant(p) <==> p[left] < p[right]
    ensures (left, right) in Discordant(p) <==> p[left] >= p[right]
  {
  }

  lemma SeenRow(p: seq<nat>, left: nat)
    requires left < |p|
    ensures Seen(Concordant(p), left, |p|) == Seen(Concordant(p), left + 1, left + 2)
    ensures Seen(Discordant(p), left, |p|) == Seen(Discordant(p), left + 1, left + 2)
  {
  }

  lemma SeenAll(p: seq<nat>)
    ensures Seen(Concordant(p), |p|, |p| + 1) == Concordant(p) && Seen(Discordant(p), |p|, |p| + 1) == Discordant(p)
    ensures Seen(Concordant(p), 0, 1) == {} == Seen(Discordant(p), 0, 1)
  {
  }

  /** The nested loops over all pairs of positions. */
  method CountPairs(baseline: seq<string>, candidateRank: map<string, nat>, ghost p: seq<nat>)
    returns (concordant: nat, discordant: nat)
    requires |p| == |baseline|
    requires forall i :: 0 <= i < |p| ==> baseline[i] in candidateRank && candidateRank[baseline[i]] == p[i]
    ensures concordant == |Concordant(p)| && discordant == |Discordant(p)|
  {
    hide Concordant, Discordant, Seen;
    concordant, discordant := 0, 0;
    var count := |baseline|;
    SeenAll(p);
    for left := 0 to count
      invariant concordant == |Seen(Concordant(p), left, left + 1)|
      invariant discordant == |Seen(Discordant(p), left, left + 1)|
    {
      for right := left + 1 to count
        invariant concordant == |Seen(Concordant(p), left, right)|
        invariant discordant == |Seen(Discordant(p), left, right)|
      {
        SeenStep(Concordant(p), left, right);
        SeenStep(Discordant(p), left, right);
        PairKind(p, left, right);
        if candidateRank[baseline[left]] < candidateRank[baseline[right]] {
          concordant := concordant + 1;
        } else {
          discordant := discordant + 1;
        }
      }
      SeenRow(p, left);
    }
  }

  method SumSquares(baseline: seq<string>, baselineRank: map<string, nat>, candidateRank: map<string, nat>, ghost p: seq<nat>)
    returns (total: int)
    requires |p| == |baseline|
    requires forall i :: 0 <= i < |p| ==> baseline[i] in baselineRank && baselineRank[baseline[i]] == i
    requires forall i :: 0 <= i < |p| ==> baseline[i] in candidateRank && candidateRank[baseline[i]] == p[i]
    ensures total == Sum(Differences(p))
  {
    total := 0;
    for k := 0 to |baseline|
      invariant total == Sum(Differences(p)[..k])
    {
      var difference: int := baselineRank[baseline[k]] as int - candidateRank[baseline[k]] as int;
      assert Differences(p)[..k + 1] == Differences(p)[..k] + [Differences(p)[k]];
      SumAppend(Differences(p)[..k], [Differences(p)[k]]);
      total := total + difference * difference;
    }
    assert Differences(p)[..|p|] == Differences(p);
  }

  method RankingParity(baseline: seq<string>, candidate: seq<string>, topValues: seq<int>)
    returns (result: Result<Report, string>)
    ensures result.Ok? <==> Comparable(baseline, candidate)
    ensures result.Ok? ==>
      && (|baseline| >= 2 ==> |Concordant(Moves(baseline, candidate))| + |Discordant(Moves(baseline, candidate))| > 0)
      && result.value.spearman == Spearman(baseline, candidate)
      && result.value.kendall == Kendall(baseline, candidate)
      && result.value.top1 == (if baseline != [] && baseline[0] == candidate[0] then 1.0 else 0.0)
      && |result.value.overlaps| == |topValues|
      && forall k :: 0 <= k < |topValues| ==> result.value.overlaps[k] == Overlap(baseline, candidate, topValues[k])
  {
    if |baseline| != |candidate| || Elements(baseline) != Elements(candidate) {
      return Error(DIFFERENT_IDS);
    }
    if |Elements(baseline)| != |baseline| {
      return Error(DUPLICATE_IDS);
    }
    hide Overlap, Kendall, Spearman;
    SomePairs(baseline, candidate);
    var spearman, kendall := Coefficients(baseline, candidate);
    var top1 := if baseline != [] && baseline[0] == candidate[0] then 1.0 else 0.0;
    var overlaps := [];
    for k := 0 to |topValues|
      invariant |overlaps| == k
      invariant forall i :: 0 <= i < k ==> overlaps[i] == Overlap(baseline, candidate, topValues[i])
    {
      overlaps := overlaps + [Overlap(baseline, candidate, topValues[k])];
    }
    result := Ok(Report(spearman, kendall, top1, overlaps));
  }

  method Coefficients(baseline: seq<string>, candidate: seq<string>) returns (spearman: real, kendall: real)
    requires Comparable(baseline, candidate)
    requires |baseline| >= 2 ==> |Concordant(Moves(baseline, candidate))| + |Discordant(Moves(baseline, candidate))| > 0
    ensures spearman == Spearman(baseline, candidate)
    ensures kendall == Kendall(baseline, candidate)
  {
    hide Concordant, Discordant, Differences, Sum, Moves;
    var count := |baseline|;
    spearman, kendall := 1.0, 1.0;
    if count >= 2 {
      ComparableMeans(baseline, candidate);
      ghost var p := Moves(baseline, candidate);
      var baselineRank := RankMap(baseline);
      var candidateRank := RankMap(candidate);
      forall i | 0 <= i < count ensures baseline[i] in candidateRank && candidateRank[baseline[i]] == p[i] {
        assert candidate[p[i]] == baseline[i];
      }
      var squaredDifference := SumSquares(baseline, baselineRank, candidateRank, p);
      CubicPositive(count);
      spearman := 1.0 - (6 * squaredDifference) as real / (count * (count * count - 1)) as real;
      var concordant, discordant := CountPairs(baseline, candidateRank, p);
      kendall := (concordant as int - discordant as int) as real / (concordant + discordant) as real;
    }
  }
}
