/** Permutations of 0..n-1: pigeonhole, sums that do not depend on the order, and inversions. */
module Permutations {

  ghost predicate NoDup<T>(s: seq<T>) {
    forall i, k :: 0 <= i < k < |s| ==> s[i] != s[k]
  }

  function Elements<T>(s: seq<T>): set<T> {
    set x | x in s
  }

  ghost predicate IsPerm(p: seq<nat>) {
    NoDup(p) && forall i :: 0 <= i < |p| ==> p[i] < |p|
  }

  /* ---------- counting elements ---------- */

  lemma {:induction false} ElementsCard<T>(s: seq<T>)
    ensures |Elements(s)| <= |s|
    ensures |Elements(s)| == |s| <==> NoDup(s)
  {
    if s != [] {
      ElementsCard(s[1..]);
      assert Elements(s) == {s[0]} + Elements(s[1..]);
      if s[0] in s[1..] {
        assert Elements(s) == Elements(s[1..]);
        var k :| 0 <= k < |s[1..]| && s[1..][k] == s[0];
        assert s[0] == s[k + 1];
      } else {
        assert |Elements(s)| == 1 + |Elements(s[1..])|;
        if NoDup(s[1..]) {
          forall i, k | 0 <= i < k < |s| ensures s[i] != s[k] {
            assert s[k] == s[1..][k - 1];
            if i > 0 {
              assert s[i] == s[1..][i - 1];
            }
          }
        } else {
          var i, k :| 0 <= i < k < |s[1..]| && s[1..][i] == s[1..][k];
          assert s[i + 1] == s[k + 1];
        }
      }
    }
  }

  lemma SubsetEqual<T>(a: set<T>, b: set<T>)
    requires a <= b && |a| >= |b|
    ensures a == b
  {
    if x :| x in b && x !in a {
      assert a <= b - {x} && |b - {x}| == |b| - 1;
      SubsetCard(a, b - {x});
    }
  }

  lemma {:induction false} SubsetCard<T>(a: set<T>, b: set<T>)
    requires a <= b
    ensures |a| <= |b|
  {
    if x :| x in a {
      SubsetCard(a - {x}, b - {x});
    }
  }

  function Below(n: nat): (r: set<nat>)
    ensures |r| == n
    ensures forall i: nat :: i in r <==> i < n
  {
    if n == 0 then {} else Below(n - 1) + {n - 1}
  }

  /** Pigeonhole: n distinct values below n are all of them. */
  lemma Surjective(p: seq<nat>, v: nat) returns (k: nat)
    requires IsPerm(p) && v < |p|
    ensures k < |p| && p[k] == v
  {
    ElementsCard(p);
    SubsetEqual(Elements(p), Below(|p|));
    assert v in Elements(p);
    k :| 0 <= k < |p| && p[k] == v;
  }

  /** An injection cannot shrink a set. */
  lemma {:induction false} InjectionCard<T, U>(a: set<T>, b: set<U>, h: T --> U)
    requires forall x :: x in a ==> h.requires(x) && h(x) in b
    requires forall x, y :: x in a && y in a && h(x) == h(y) ==> x == y
    ensures |a| <= |b|
  {
    if x :| x in a {
      InjectionCard(a - {x}, b - {h(x)}, h);
    }
  }

  /* ---------- sums ---------- */

  function Sum(a: seq<int>): int {
    if a == [] then 0 else a[0] + Sum(a[1..])
  }

  lemma {:induction false} SumAppend(a: seq<int>, b: seq<int>)
    ensures Sum(a + b) == Sum(a) + Sum(b)
  {
    if a == [] {
      assert a + b == b;
    } else {
      assert (a + b)[1..] == a[1..] + b;
      SumAppend(a[1..], b);
    }
  }

  lemma {:induction false} SumAdd(a: seq<int>, b: seq<int>, c: seq<int>, d: int)
    requires |a| == |b| == |c|
    requires forall i :: 0 <= i < |a| ==> d * c[i] == a[i] + b[i]
    ensures d * Sum(c) == Sum(a) + Sum(b)
  {
    if a != [] {
      SumAdd(a[1..], b[1..], c[1..], d);
      assert d * (c[0] + Sum(c[1..])) == d * c[0] + d * Sum(c[1..]);
    }
  }

  lemma {:induction false} SumNonNegative(a: seq<int>)
    requires forall i :: 0 <= i < |a| ==> a[i] >= 0
    ensures Sum(a) >= 0
    ensures Sum(a) == 0 <==> forall i :: 0 <= i < |a| ==> a[i] == 0
  {
    if a != [] {
      SumNonNegative(a[1..]);
      assert forall i :: 1 <= i < |a| ==> a[i] == a[1..][i - 1];
    }
  }

  function Compose(a: seq<int>, p: seq<nat>): (r: seq<int>)
    requires forall i :: 0 <= i < |p| ==> p[i] < |a|
    ensures |r| == |p| && forall i :: 0 <= i < |p| ==> r[i] == a[p[i]]
  {
    seq(|p|, i requires 0 <= i < |p| => a[p[i]])
  }

  function Without(p: seq<nat>, k: nat): seq<nat>
    requires k < |p|
  {
    p[..k] + p[k + 1..]
  }

  /** A permutation without its greatest value is one of the others. */
  lemma WithoutGreatest(p: seq<nat>, k: nat)
    requires IsPerm(p) && k < |p| && p[k] == |p| - 1
    ensures IsPerm(Without(p, k))
  {
    var q := Without(p, k);
    assert forall i :: 0 <= i < |q| ==> q[i] == if i < k then p[i] else p[i + 1];
  }

  lemma ComposeWithout(a: seq<int>, p: seq<nat>, k: nat)
    requires IsPerm(p) && |a| == |p| && k < |p| && p[k] == |p| - 1 && IsPerm(Without(p, k))
    ensures var rest := Compose(a[..|a| - 1], Without(p, k));
      Compose(a, p) == rest[..k] + ([a[|a| - 1]] + rest[k..])
  {
    var q := Without(p, k);
    assert forall i :: 0 <= i < |q| ==> q[i] == if i < k then p[i] else p[i + 1];
  }

  /** Summing in the order of a permutation changes nothing. */
  lemma {:induction false} SumReindexed(a: seq<int>, p: seq<nat>)
    requires IsPerm(p) && |a| == |p|
    ensures Sum(Compose(a, p)) == Sum(a)
    decreases |p|
  {
    var n := |p|;
    if n > 0 {
      var k := Surjective(p, n - 1);
      var last := a[n - 1];
      WithoutGreatest(p, k);
      ComposeWithout(a, p, k);
      SumReindexed(a[..n - 1], Without(p, k));
      var c := Compose(a[..n - 1], Without(p, k));
      assert c == c[..k] + c[k..] && a == a[..n - 1] + [last];
      hide Sum, Compose, IsPerm, Without;
      SumAppend(c[..k], [last] + c[k..]);
      SumAppend([last], c[k..]);
      SumAppend(c[..k], c[k..]);
      SumAppend(a[..n - 1], [last]);
    } else {
      assert Compose(a, p) == a;
    }
  }

  /* ---------- squared rank differences ---------- */

  function Square(x: int): int { x * x }

  /** The terms of the squared-difference sum, of its counterpart for the reversed ranking, and of
      the fixed total both share. */
  function Differences(p: seq<nat>): seq<int> {
    seq(|p|, i requires 0 <= i < |p| => Square(i - p[i]))
  }

  function Reversals(p: seq<nat>): seq<int> {
    seq(|p|, i requires 0 <= i < |p| => Square(i + p[i] - (|p| - 1)))
  }

  function Spread(n: nat, m: int): seq<int> {
    seq(n, i => Square(2 * i - m))
  }

  lemma SpreadStep(k: nat, m: int)
    ensures 2 * (k - 1) * k * (2 * k - 1) - 6 * m * k * (k - 1) + 3 * k * m * m + 3 * Square(2 * k - m)
            == 2 * k * (k + 1) * (2 * k + 1) - 6 * m * (k + 1) * k + 3 * (k + 1) * m * m
  {
    var kk, kkk, mk, mkk, mm := k * k, k * k * k, m * k, m * k * k, m * m;
    CubicTerms(k);
    MixedTerms(k, m);
    SquareTerms(k, m);
    assert 3 * (k + 1) * m * m == 3 * k * m * m + 3 * mm by { MoreSquares(k, m); }
  }

  lemma CubicTerms(k: int)
    ensures 2 * (k - 1) * k * (2 * k - 1) == 4 * (k * k * k) - 6 * (k * k) + 2 * k
    ensures 2 * k * (k + 1) * (2 * k + 1) == 4 * (k * k * k) + 6 * (k * k) + 2 * k
  {
  }

  lemma MixedTerms(k: int, m: int)
    ensures 6 * m * k * (k - 1) == 6 * (m * k * k) - 6 * (m * k)
    ensures 6 * m * (k + 1) * k == 6 * (m * k * k) + 6 * (m * k)
  {
  }

  lemma SquareTerms(k: int, m: int)
    ensures 3 * Square(2 * k - m) == 12 * (k * k) - 12 * (m * k) + 3 * (m * m)
  {
  }

  lemma MoreSquares(k: int, m: int)
    ensures 3 * (k + 1) * m * m == 3 * k * m * m + 3 * (m * m)
  {
  }

  lemma {:induction false} SpreadSum(n: nat, m: int)
    ensures 3 * Sum(Spread(n, m)) == 2 * (n - 1) * n * (2 * n - 1) - 6 * m * n * (n - 1) + 3 * n * m * m
  {
    if n > 0 {
      SpreadSum(n - 1, m);
      SpreadStep(n - 1, m);
      assert Spread(n, m) == Spread(n - 1, m) + [Square(2 * (n - 1) - m)];
      SumAppend(Spread(n - 1, m), [Square(2 * (n - 1) - m)]);
    }
  }

  lemma SpreadTotal(n: nat)
    ensures 3 * Sum(Spread(n, n - 1)) == n * (n * n - 1)
  {
    hide Sum, Spread;
    SpreadSum(n, n - 1);
    var q := (n - 1) * n;
    assert 2 * (n - 1) * n * (2 * n - 1) == q * (4 * n - 2);
    assert 6 * (n - 1) * n * (n - 1) == q * (6 * n - 6);
    assert 3 * n * (n - 1) * (n - 1) == q * (3 * n - 3);
    assert q * (4 * n - 2) - q * (6 * n - 6) + q * (3 * n - 3) == q * (n + 1);
    assert q * (n + 1) == n * ((n - 1) * (n + 1)) == n * (n * n - 1);
  }

  /** Positions as deviations from the middle one, doubled to stay whole: the products of each with its
      image. */
  function Products(p: seq<nat>): seq<int> {
    seq(|p|, i requires 0 <= i < |p| => Product(2 * i - (|p| - 1), 2 * p[i] - (|p| - 1)))
  }

  function Product(x: int, y: int): int { x * y }

  lemma DifferenceSquared(i: int, x: int, m: int)
    ensures 2 * (2 * Square(i - x) + Product(2 * i - m, 2 * x - m)) == Square(2 * i - m) + Square(2 * x - m)
  {
    var a, b := 2 * i - m, 2 * x - m;
    assert a - b == 2 * (i - x);
    assert Square(a - b) == Square(a) - 2 * Product(a, b) + Square(b);
    assert Square(2 * (i - x)) == 4 * Square(i - x);
  }

  /** Twice the squared differences and the products add up to the spread of the positions. */
  lemma ProductsAndDifferences(p: seq<nat>)
    requires IsPerm(p)
    ensures 2 * Sum(Differences(p)) + Sum(Products(p)) == Sum(Spread(|p|, |p| - 1))
    ensures Sum(Compose(Spread(|p|, |p| - 1), p)) == Sum(Spread(|p|, |p| - 1))
  {
    var spread := Spread(|p|, |p| - 1);
    var doubled := Doubled(Differences(p));
    var mixed := Mixed(p);
    MixedAt(p);
    assert |Differences(p)| == |Products(p)| == |spread| == |p|;
    hide Sum, Square, Products, Differences, Compose, Spread, Mixed, Doubled;
    SumReindexed(spread, p);
    SumAdd(spread, Compose(spread, p), mixed, 2);
    SumAdd(Differences(p), Differences(p), doubled, 1);
    SumAdd(doubled, Products(p), mixed, 1);
  }

  function Doubled(a: seq<int>): (r: seq<int>)
    ensures |r| == |a| && forall i :: 0 <= i < |r| ==> r[i] == 2 * a[i]
  {
    seq(|a|, i requires 0 <= i < |a| => 2 * a[i])
  }

  function Mixed(p: seq<nat>): (r: seq<int>)
    ensures |r| == |p|
  {
    seq(|p|, i requires 0 <= i < |p| => 2 * Differences(p)[i] + Products(p)[i])
  }

  lemma MixedAt(p: seq<nat>)
    requires IsPerm(p)
    ensures |Differences(p)| == |Products(p)| == |Spread(|p|, |p| - 1)| == |p|
    ensures forall i :: 0 <= i < |p| ==> 1 * Mixed(p)[i] == Doubled(Differences(p))[i] + Products(p)[i]
    ensures forall i :: 0 <= i < |p| ==> 2 * Mixed(p)[i] == Spread(|p|, |p| - 1)[i] + Compose(Spread(|p|, |p| - 1), p)[i]
  {
    hide Square, Product;
    var n := |p|;
    forall i | 0 <= i < n ensures 2 * Mixed(p)[i] == Spread(n, n - 1)[i] + Compose(Spread(n, n - 1), p)[i] {
      DifferenceSquared(i, p[i], n - 1);
      assert Differences(p)[i] == Square(i - p[i]) && Products(p)[i] == Product(2 * i - (n - 1), 2 * p[i] - (n - 1));
      assert Mixed(p)[i] == 2 * Differences(p)[i] + Products(p)[i];
      assert Compose(Spread(n, n - 1), p)[i] == Spread(n, n - 1)[p[i]] == Square(2 * p[i] - (n - 1));
    }
  }

  lemma SquareSplit(i: int, x: int, m: int)
    ensures 2 * (Square(i - x) + Square(i + x - m)) == Square(2 * i - m) + Square(2 * x - m)
  {
  }

  /** The two squares at each position, added. */
  function Both(p: seq<nat>): (r: seq<int>)
    ensures |r| == |p|
  {
    seq(|p|, i requires 0 <= i < |p| => Square(i - p[i]) + Square(i + p[i] - (|p| - 1)))
  }

  lemma BothTerms(p: seq<nat>)
    requires IsPerm(p)
    ensures forall i :: 0 <= i < |p| ==> 1 * Both(p)[i] == Differences(p)[i] + Reversals(p)[i]
    ensures forall i :: 0 <= i < |p| ==> 2 * Both(p)[i] == Spread(|p|, |p| - 1)[i] + Compose(Spread(|p|, |p| - 1), p)[i]
  {
    hide Square;
    var n := |p|;
    forall i | 0 <= i < n ensures 2 * Both(p)[i] == Spread(n, n - 1)[i] + Compose(Spread(n, n - 1), p)[i] {
      SquareSplit(i, p[i], n - 1);
    }
  }

  /** The squared differences to a ranking and to its reversal always add up to n(n^2-1)/3. */
  lemma DifferencesAndReversals(p: seq<nat>)
    requires IsPerm(p)
    ensures 3 * (Sum(Differences(p)) + Sum(Reversals(p))) == |p| * (|p| * |p| - 1)
  {
    var spread := Spread(|p|, |p| - 1);
    DoubleSums(p);
    SpreadTotal(|p|);
    hide *;
    assert Sum(Differences(p)) + Sum(Reversals(p)) == Sum(spread);
  }

  lemma DoubleSums(p: seq<nat>)
    requires IsPerm(p)
    ensures Sum(Differences(p)) + Sum(Reversals(p)) == Sum(Spread(|p|, |p| - 1))
  {
    var spread := Spread(|p|, |p| - 1);
    BothTerms(p);
    assert |Differences(p)| == |Reversals(p)| == |spread| == |p|;
    hide Square, Sum, Both, Differences, Reversals, Spread, Compose;
    SumAdd(Differences(p), Reversals(p), Both(p), 1);
    SumAdd(spread, Compose(spread, p), Both(p), 2);
    SumReindexed(spread, p);
  }

  lemma ZeroDifferences(p: seq<nat>)
    ensures Sum(Differences(p)) >= 0
    ensures Sum(Differences(p)) == 0 <==> IsIdentity(p)
  {
    hide Sum, Square;
    forall i | 0 <= i < |p| ensures Differences(p)[i] >= 0 && (Differences(p)[i] == 0 <==> p[i] == i) {
      SquareZero(i - p[i]);
    }
    SumNonNegative(Differences(p));
    if Sum(Differences(p)) == 0 {
      forall i | 0 <= i < |p| ensures p[i] == i {
        assert Differences(p)[i] == 0;
      }
    }
  }

  lemma ZeroReversals(p: seq<nat>)
    ensures Sum(Reversals(p)) >= 0
    ensures Sum(Reversals(p)) == 0 <==> IsReversal(p)
  {
    hide Sum, Square;
    forall i | 0 <= i < |p| ensures Reversals(p)[i] >= 0 && (Reversals(p)[i] == 0 <==> p[i] == |p| - 1 - i) {
      SquareZero(i + p[i] - (|p| - 1));
    }
    SumNonNegative(Reversals(p));
    if Sum(Reversals(p)) == 0 {
      forall i | 0 <= i < |p| ensures p[i] == |p| - 1 - i {
        assert Reversals(p)[i] == 0;
      }
    }
  }

  lemma SquareZero(x: int)
    ensures Square(x) >= 0 && (Square(x) == 0 <==> x == 0)
  {
  }

  /* ---------- inverses ---------- */

  ghost predicate Inverse(p: seq<nat>, q: seq<nat>) {
    && |p| == |q| && IsPerm(p) && IsPerm(q)
    && (forall i :: 0 <= i < |p| ==> q[p[i]] == i)
    && (forall i :: 0 <= i < |q| ==> p[q[i]] == i)
  }

  lemma DifferencesOfInverse(p: seq<nat>, q: seq<nat>)
    requires Inverse(p, q)
    ensures Sum(Differences(p)) == Sum(Differences(q))
  {
    var d := Differences(q);
    forall i | 0 <= i < |p| ensures Compose(d, p)[i] == Differences(p)[i] {
      assert d[p[i]] == Square(p[i] - i) == Square(i - p[i]);
    }
    assert Compose(d, p) == Differences(p);
    SumReindexed(d, p);
  }

  /** Pairs of positions, in order, that the permutation keeps or turns around. */
  function Concordant(p: seq<nat>): set<(nat, nat)> {
    set i: nat, k: nat | i < k < |p| && p[i] < p[k] :: (i, k)
  }

  function Discordant(p: seq<nat>): set<(nat, nat)> {
    set i: nat, k: nat | i < k < |p| && p[i] >= p[k] :: (i, k)
  }

  function AllPairs(n: nat): set<(nat, nat)> {
    set i: nat, k: nat | i < k < n :: (i, k)
  }

  function LastPairs(m: nat): set<(nat, nat)> {
    set i | i in Below(m) :: (i, m)
  }

  lemma LastPairsCard(m: nat)
    ensures |LastPairs(m)| == m
  {
    InjectionCard(Below(m), LastPairs(m), (i: nat) => (i, m));
    InjectionCard(LastPairs(m), Below(m), (t: (nat, nat)) => t.0);
  }

  lemma {:induction false} AllPairsCard(n: nat)
    ensures 2 * |AllPairs(n)| == n * (n - 1)
  {
    if n > 0 {
      var m := n - 1;
      AllPairsCard(m);
      LastPairsCard(m);
      assert AllPairs(n) == AllPairs(m) + LastPairs(m) && AllPairs(m) !! LastPairs(m);
      hide AllPairs, LastPairs;
      PairStep(m);
    } else {
      assert AllPairs(0) == {};
    }
  }

  lemma PairStep(m: nat)
    ensures m * (m - 1) + 2 * m == (m + 1) * m
  {
  }

  lemma PairsSplit(p: seq<nat>)
    ensures |Concordant(p)| + |Discordant(p)| == |AllPairs(|p|)|
  {
    assert Concordant(p) !! Discordant(p);
    assert Concordant(p) + Discordant(p) == AllPairs(|p|);
  }

  /** A permutation and its inverse have equally many inversions. */
  lemma InversionsOfInverse(p: seq<nat>, q: seq<nat>)
    requires Inverse(p, q)
    ensures |Discordant(p)| == |Discordant(q)|
  {
    InversionsMapped(p, q);
    InversionsMapped(q, p);
  }

  lemma InversionsMapped(p: seq<nat>, q: seq<nat>)
    requires Inverse(p, q)
    ensures |Discordant(p)| <= |Discordant(q)|
  {
    var h := (t: (nat, nat)) requires t.0 < |p| && t.1 < |p| => (p[t.1], p[t.0]);
    forall t | t in Discordant(p) ensures h.requires(t) && h(t) in Discordant(q) {
      assert p[t.0] != p[t.1];
      assert q[p[t.1]] == t.1 && q[p[t.0]] == t.0;
    }
    forall t, u | t in Discordant(p) && u in Discordant(p) && h(t) == h(u) ensures t == u {
      assert q[p[t.0]] == t.0 && q[p[u.0]] == u.0 && q[p[t.1]] == t.1 && q[p[u.1]] == u.1;
    }
    InjectionCard(Discordant(p), Discordant(q), h);
  }

  /* ---------- the extreme permutations ---------- */

  ghost predicate Increasing(p: seq<nat>) {
    forall i, k :: 0 <= i < k < |p| ==> p[i] < p[k]
  }

  lemma {:induction false} IncreasingAtLeast(p: seq<nat>, i: nat)
    requires Increasing(p) && i < |p|
    ensures p[i] >= i
  {
    if i > 0 {
      IncreasingAtLeast(p, i - 1);
    }
  }

  lemma {:induction false} IncreasingAtMost(p: seq<nat>, i: nat)
    requires Increasing(p) && i < |p|
    requires forall k :: 0 <= k < |p| ==> p[k] < |p|
    ensures p[i] <= i
    decreases |p| - i
  {
    if i + 1 < |p| {
      IncreasingAtMost(p, i + 1);
    }
  }

  ghost predicate IsIdentity(p: seq<nat>) {
    forall i :: 0 <= i < |p| ==> p[i] == i
  }

  ghost predicate IsReversal(p: seq<nat>) {
    forall i :: 0 <= i < |p| ==> p[i] == |p| - 1 - i
  }

  lemma IncreasingIsIdentity(p: seq<nat>)
    requires Increasing(p) && forall k :: 0 <= k < |p| ==> p[k] < |p|
    ensures IsIdentity(p)
  {
    forall i | 0 <= i < |p| ensures p[i] == i {
      IncreasingAtLeast(p, i);
      IncreasingAtMost(p, i);
    }
  }

  lemma NoInversions(p: seq<nat>)
    requires IsPerm(p)
    ensures |Discordant(p)| == 0 <==> IsIdentity(p)
  {
    if |Discordant(p)| == 0 {
      forall i, k | 0 <= i < k < |p| ensures p[i] < p[k] {
        assert (i, k) !in Discordant(p);
      }
      IncreasingIsIdentity(p);
    }
    if IsIdentity(p) {
      assert Discordant(p) == {};
    }
  }

  lemma OnlyInversions(p: seq<nat>)
    requires IsPerm(p)
    ensures |Concordant(p)| == 0 <==> IsReversal(p)
  {
    if |Concordant(p)| == 0 {
      var q: seq<nat> := seq(|p|, i requires 0 <= i < |p| => |p| - 1 - p[i]);
      forall i, k | 0 <= i < k < |p| ensures q[i] < q[k] {
        assert (i, k) !in Concordant(p) && p[i] != p[k];
      }
      IncreasingIsIdentity(q);
      assert forall i :: 0 <= i < |p| ==> q[i] == |p| - 1 - p[i];
    }
    if IsReversal(p) {
      assert Concordant(p) == {};
    }
  }
}
