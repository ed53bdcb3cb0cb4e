/** The score cache: keys built from normalised texts, and what keeps its entries right. */
module Cache {
  import opened Basics
  import opened Batching
  import opened Texts

  /** The settings that go into every key, fixed while the process serves one model; `nfkc` is the
      Unicode normalisation. SHA-256 is taken to be injective, so a key is its payload. */
  datatype KeySettings = KeySettings(model: string, revision: string, backend: string, precision: string,
                                     maxLength: string, nfkc: string -> string)

  const NUL: char := '\0'

  function Key(c: KeySettings, p: Pair): string {
    c.model + [NUL] + c.revision + [NUL] + c.backend + [NUL] + c.precision + [NUL]
    + Texts2(Normalize(p.0, c.nfkc), Normalize(p.1, c.nfkc))
    + [NUL] + c.maxLength
  }

  /** The part of the payload that depends on the request. */
  function Texts2(q: string, d: string): string { q + [NUL] + d }

  /** Every separator in the text has a space beside it. */
  predicate NulsTouchSpaces(s: string) {
    forall i :: 0 <= i < |s| && s[i] == NUL ==> !LoneNul(s, i)
  }

  predicate LoneNul(s: string, i: nat)
    requires i < |s|
  {
    s[i] == NUL && (i > 0 ==> s[i - 1] != ' ') && (i + 1 < |s| ==> s[i + 1] != ' ')
  }

  /** In both normalised texts every separator, if there is any, has a space beside it. */
  predicate Plain(c: KeySettings, p: Pair) {
    NulsTouchSpaces(Normalize(p.0, c.nfkc)) && NulsTouchSpaces(Normalize(p.1, c.nfkc))
  }

  predicate SameTexts(c: KeySettings, a: Pair, b: Pair) {
    Normalize(a.0, c.nfkc) == Normalize(b.0, c.nfkc) && Normalize(a.1, c.nfkc) == Normalize(b.1, c.nfkc)
  }

  /* ---------- keys ---------- */

  /** Tidy texts on either side of the same payload as two texts without lone separators are those
      texts: cutting at another separator would leave a space at an end. */
  lemma SplitUnique(q: string, d: string, q': string, d': string)
    requires NulsTouchSpaces(q) && NulsTouchSpaces(d) && Tidy(q') && Tidy(d')
    requires Texts2(q, d) == Texts2(q', d')
    ensures q == q' && d == d'
  {
    var s := Texts2(q, d);
    var k := |q'|;
    assert s[k] == NUL && q' == s[..k] && d' == s[k + 1..];
    if k < |q| {
      assert q[k] == NUL && !LoneNul(q, k);
      EndsTidy(q', d');
      assert false;
    } else if k > |q| {
      var i := k - |q| - 1;
      assert d[i] == NUL && !LoneNul(d, i);
      EndsTidy(q', d');
      assert false;
    } else {
      assert q == s[..k] && d == s[k + 1..];
    }
  }

  lemma EndsTidy(a: string, b: string)
    requires Tidy(a) && Tidy(b)
    ensures a != "" ==> a[|a| - 1] != ' '
    ensures b != "" ==> b[0] != ' '
  {
    assert IsSpace(' ');
  }

  lemma NormalizeTidy(s: string, nfkc: string -> string)
    ensures Tidy(Normalize(s, nfkc))
  {
    JoinTidy(Words(nfkc(s)));
  }

  /** A pair whose separators all touch spaces shares a key with exactly the pairs that have the same
      normalised texts. */
  lemma KeyExact(c: KeySettings, a: Pair, b: Pair)
    requires Plain(c, a)
    ensures Key(c, a) == Key(c, b) <==> SameTexts(c, a, b)
    ensures Key(c, a) == Key(c, b) ==> Plain(c, b)
  {
    if Key(c, a) == Key(c, b) {
      KeyMiddle(c, a, b);
      NormalizeTidy(b.0, c.nfkc);
      NormalizeTidy(b.1, c.nfkc);
      hide Normalize, Key, NulsTouchSpaces;
      SplitUnique(Normalize(a.0, c.nfkc), Normalize(a.1, c.nfkc), Normalize(b.0, c.nfkc), Normalize(b.1, c.nfkc));
    }
  }

  lemma KeyMiddle(c: KeySettings, a: Pair, b: Pair)
    requires Key(c, a) == Key(c, b)
    ensures Texts2(Normalize(a.0, c.nfkc), Normalize(a.1, c.nfkc)) == Texts2(Normalize(b.0, c.nfkc), Normalize(b.1, c.nfkc))
  {
    hide Texts2, Normalize;
    var head := c.model + [NUL] + c.revision + [NUL] + c.backend + [NUL] + c.precision + [NUL];
    var tail := [NUL] + c.maxLength;
    var x, y := Texts2(Normalize(a.0, c.nfkc), Normalize(a.1, c.nfkc)), Texts2(Normalize(b.0, c.nfkc), Normalize(b.1, c.nfkc));
    assert Key(c, a) == head + x + tail && Key(c, b) == head + y + tail;
    CancelBoth(head, x, y, tail);
  }

  lemma CancelBoth(head: string, x: string, y: string, tail: string)
    requires head + x + tail == head + y + tail
    ensures x == y
  {
    var s := head + x + tail;
    assert |x| == |y|;
    assert x == s[|head|..|head| + |x|] && y == s[|head|..|head| + |y|];
  }

  predicate NulFree(s: string) {
    forall i :: 0 <= i < |s| ==> s[i] != NUL
  }

  /** None of the settings in the key contains the separator. */
  predicate SeparatorFree(c: KeySettings) {
    NulFree(c.model) && NulFree(c.revision) && NulFree(c.backend) && NulFree(c.precision) && NulFree(c.maxLength)
  }

  predicate SameSettings(c: KeySettings, d: KeySettings) {
    && c.model == d.model && c.revision == d.revision && c.backend == d.backend
    && c.precision == d.precision && c.maxLength == d.maxLength
  }

  /** What stands before the first separator. */
  lemma FirstField(a: string, x: string, b: string, y: string)
    requires NulFree(a) && NulFree(b) && a + [NUL] + x == b + [NUL] + y
    ensures a == b && x == y
  {
    var s := a + [NUL] + x;
    assert forall i :: 0 <= i < |a| ==> s[i] == a[i];
    assert forall i :: 0 <= i < |b| ==> s[i] == b[i];
    assert s[|a|] == NUL && s[|b|] == NUL;
    assert a == s[..|a|] && b == s[..|b|] && x == s[|a| + 1..] && y == s[|b| + 1..];
  }

  /** What stands after the last one. */
  lemma LastField(x: string, a: string, y: string, b: string)
    requires NulFree(a) && NulFree(b) && x + [NUL] + a == y + [NUL] + b
    ensures x == y && a == b
  {
    var s := x + [NUL] + a;
    assert forall i :: |x| < i < |s| ==> s[i] == a[i - |x| - 1];
    assert forall i :: |y| < i < |s| ==> s[i] == b[i - |y| - 1];
    assert s[|x|] == NUL && s[|y|] == NUL;
    assert x == s[..|x|] && y == s[..|y|] && a == s[|x| + 1..] && b == s[|y| + 1..];
  }

  /** The payload in fields, from the front. */
  lemma KeyFields(c: KeySettings, p: Pair)
    ensures var texts := Texts2(Normalize(p.0, c.nfkc), Normalize(p.1, c.nfkc));
      Key(c, p) == c.model + [NUL] + (c.revision + [NUL] + (c.backend + [NUL] + (c.precision + [NUL] + (texts + [NUL] + c.maxLength))))
  {
    hide Texts2, Normalize;
    var texts := Texts2(Normalize(p.0, c.nfkc), Normalize(p.1, c.nfkc));
    var last := texts + [NUL] + c.maxLength;
    assert Key(c, p) == c.model + [NUL] + c.revision + [NUL] + c.backend + [NUL] + c.precision + [NUL] + last;
    Associates(c.model + [NUL] + c.revision + [NUL] + c.backend + [NUL], c.precision + [NUL], last);
    Associates(c.model + [NUL] + c.revision + [NUL], c.backend + [NUL], c.precision + [NUL] + last);
    Associates(c.model + [NUL], c.revision + [NUL], c.backend + [NUL] + (c.precision + [NUL] + last));
  }

  /** Equal keys come from the same settings and the same text payload. */
  lemma KeySplits(c: KeySettings, a: Pair, d: KeySettings, b: Pair)
    requires SeparatorFree(c) && SeparatorFree(d) && Key(c, a) == Key(d, b)
    ensures SameSettings(c, d)
    ensures Texts2(Normalize(a.0, c.nfkc), Normalize(a.1, c.nfkc)) == Texts2(Normalize(b.0, d.nfkc), Normalize(b.1, d.nfkc))
  {
    KeyFields(c, a);
    KeyFields(d, b);
    hide Key, Texts2, Normalize, NulFree;
    var x, y := Texts2(Normalize(a.0, c.nfkc), Normalize(a.1, c.nfkc)), Texts2(Normalize(b.0, d.nfkc), Normalize(b.1, d.nfkc));
    var x4, y4 := x + [NUL] + c.maxLength, y + [NUL] + d.maxLength;
    var x3, y3 := c.precision + [NUL] + x4, d.precision + [NUL] + y4;
    var x2, y2 := c.backend + [NUL] + x3, d.backend + [NUL] + y3;
    FirstField(c.model, c.revision + [NUL] + x2, d.model, d.revision + [NUL] + y2);
    FirstField(c.revision, x2, d.revision, y2);
    FirstField(c.backend, x3, d.backend, y3);
    FirstField(c.precision, x4, d.precision, y4);
    LastField(x, c.maxLength, y, d.maxLength);
  }

  /** Keys made under any two settings: they are equal exactly when model, revision, backend, precision
      and length limit all agree and the normalised texts do. */
  lemma KeyExactAcrossSettings(c: KeySettings, a: Pair, d: KeySettings, b: Pair)
    requires SeparatorFree(c) && SeparatorFree(d) && Plain(c, a)
    ensures Key(c, a) == Key(d, b) <==>
      && SameSettings(c, d)
      && Normalize(a.0, c.nfkc) == Normalize(b.0, d.nfkc) && Normalize(a.1, c.nfkc) == Normalize(b.1, d.nfkc)
  {
    if Key(c, a) == Key(d, b) {
      KeySplits(c, a, d, b);
      NormalizeTidy(b.0, d.nfkc);
      NormalizeTidy(b.1, d.nfkc);
      hide Normalize, Key, NulsTouchSpaces;
      SplitUnique(Normalize(a.0, c.nfkc), Normalize(a.1, c.nfkc), Normalize(b.0, d.nfkc), Normalize(b.1, d.nfkc));
    } else {
      hide Texts2, Normalize;
    }
  }

  lemma SamePayload(c: KeySettings, a: Pair, b: Pair)
    requires Texts2(Normalize(a.0, c.nfkc), Normalize(a.1, c.nfkc)) == Texts2(Normalize(b.0, c.nfkc), Normalize(b.1, c.nfkc))
    ensures Key(c, a) == Key(c, b)
  {
    hide Normalize, Texts2;
  }

  predicate LeavesAlone(nfkc: string -> string, s: string) {
    nfkc(s) == s
  }

  /** What Unicode promises of NFKC here: the separator composes with nothing around it. */
  ghost predicate NulIsBoundary(nfkc: string -> string) {
    forall a, b :: LeavesAlone(nfkc, Texts2(a, b)) <==> LeavesAlone(nfkc, a) && LeavesAlone(nfkc, b)
  }

  /** And replacing runs of spaces by one space leaves its result normalised. */
  ghost predicate KeepsNormalForms(nfkc: string -> string) {
    forall s :: LeavesAlone(nfkc, Normalize(s, nfkc))
  }

  /** A pair's key is its own, up to the spacing that normalisation removes, if and only if every
      separator in its normalised texts has a space beside it. At a lone separator the payload reads
      as two other normalised texts just as well. */
  lemma KeyUnambiguousIff(c: KeySettings, p: Pair)
    requires NulIsBoundary(c.nfkc) && KeepsNormalForms(c.nfkc)
    ensures (forall x: Pair :: Key(c, x) == Key(c, p) ==> SameTexts(c, x, p)) <==> Plain(c, p)
  {
    if Plain(c, p) {
      forall x: Pair | Key(c, x) == Key(c, p) ensures SameTexts(c, x, p) {
        KeyExact(c, p, x);
      }
    } else {
      var x := OtherReading(c, p);
    }
  }

  lemma OtherReading(c: KeySettings, p: Pair) returns (x: Pair)
    requires NulIsBoundary(c.nfkc) && KeepsNormalForms(c.nfkc) && !Plain(c, p)
    ensures Key(c, x) == Key(c, p) && !SameTexts(c, x, p)
  {
    var q, d := Normalize(p.0, c.nfkc), Normalize(p.1, c.nfkc);
    NormalizeTidy(p.0, c.nfkc);
    NormalizeTidy(p.1, c.nfkc);
    assert LeavesAlone(c.nfkc, q) && LeavesAlone(c.nfkc, d);
    hide Normalize, Key, Tidy, LeavesAlone, Texts2;
    if !NulsTouchSpaces(q) {
      var k :| 0 <= k < |q| && LoneNul(q, k);
      x := CutInQuery(c.nfkc, q, d, k);
    } else {
      var k :| 0 <= k < |d| && LoneNul(d, k);
      x := CutInDocument(c.nfkc, q, d, k);
    }
    SameNormal(x.0, c.nfkc);
    SameNormal(x.1, c.nfkc);
    SamePayload(c, x, p);
  }

  lemma CutInQuery(nfkc: string -> string, q: string, d: string, k: nat) returns (x: Pair)
    requires NulIsBoundary(nfkc) && Tidy(q) && Tidy(d) && LeavesAlone(nfkc, q) && LeavesAlone(nfkc, d)
    requires k < |q| && LoneNul(q, k)
    ensures Tidy(x.0) && Tidy(x.1) && LeavesAlone(nfkc, x.0) && LeavesAlone(nfkc, x.1)
    ensures Texts2(x.0, x.1) == Texts2(q, d) && x.0 != q
  {
    var left, right := CutAtNul(q, k);
    x := (left, Texts2(right, d));
    JoinedTidy(right, d);
    assert |left| < |q|;
    hide Tidy, LeavesAlone;
    assert Texts2(x.0, x.1) == Texts2(Texts2(left, right), d);
  }

  lemma CutInDocument(nfkc: string -> string, q: string, d: string, k: nat) returns (x: Pair)
    requires NulIsBoundary(nfkc) && Tidy(q) && Tidy(d) && LeavesAlone(nfkc, q) && LeavesAlone(nfkc, d)
    requires k < |d| && LoneNul(d, k)
    ensures Tidy(x.0) && Tidy(x.1) && LeavesAlone(nfkc, x.0) && LeavesAlone(nfkc, x.1)
    ensures Texts2(x.0, x.1) == Texts2(q, d) && x.0 != q
  {
    var left, right := CutAtNul(d, k);
    x := (Texts2(q, left), right);
    JoinedTidy(q, left);
    assert |x.0| > |q|;
    hide Tidy, LeavesAlone;
    assert Texts2(x.0, x.1) == Texts2(q, Texts2(left, right));
  }

  /** The two sides of a lone separator are tidy. */
  lemma CutAtNul(s: string, k: nat) returns (left: string, right: string)
    requires Tidy(s) && k < |s| && LoneNul(s, k)
    ensures left == s[..k] && right == s[k + 1..] && s == Texts2(left, right) && Tidy(left) && Tidy(right)
  {
    left, right := s[..k], s[k + 1..];
    assert s == left + [NUL] + right;
  }

  lemma JoinedTidy(a: string, b: string)
    requires Tidy(a) && Tidy(b)
    ensures Tidy(Texts2(a, b))
  {
    var s := Texts2(a, b);
    assert !IsSpace(NUL);
    assert forall i :: |a| < i < |s| ==> s[i] == b[i - |a| - 1];
  }

  lemma SameNormal(s: string, nfkc: string -> string)
    requires Tidy(s) && LeavesAlone(nfkc, s)
    ensures Normalize(s, nfkc) == s
  {
    TidyIff(s);
  }

  /** Two requests, with different normalised texts, that share a key whatever the settings. */
  lemma KeyCollision(c: KeySettings)
    requires LeavesAlone(c.nfkc, "a\0b") && LeavesAlone(c.nfkc, "c") && LeavesAlone(c.nfkc, "a") && LeavesAlone(c.nfkc, "b\0c")
    ensures Key(c, ("a\0b", "c")) == Key(c, ("a", "b\0c")) && !SameTexts(c, ("a\0b", "c"), ("a", "b\0c"))
  {
    OneWordNormal("a\0b", c.nfkc);
    OneWordNormal("c", c.nfkc);
    OneWordNormal("a", c.nfkc);
    OneWordNormal("b\0c", c.nfkc);
    hide Normalize, Key, IsSpace, LeavesAlone;
    assert Texts2("a\0b", "c") == ['a', NUL, 'b', NUL, 'c'] == Texts2("a", "b\0c");
    assert |"a\0b"| != |"a"|;
    hide Texts2;
    SamePayload(c, ("a\0b", "c"), ("a", "b\0c"));
  }

  lemma OneWordNormal(s: string, nfkc: string -> string)
    requires IsWord(s) && LeavesAlone(nfkc, s)
    ensures Normalize(s, nfkc) == s
  {
    SameNormal(s, nfkc);
  }

  /* ---------- entries ---------- */

  /** The predictor's score depends on the normalised texts only. */
  ghost predicate Respects(c: KeySettings, f: Pair -> Score) {
    forall a: Pair, b: Pair :: Plain(c, a) && Plain(c, b) && SameTexts(c, a, b) ==> f(a) == f(b)
  }

  /** Every entry a plain pair can find is that pair's own score. */
  ghost predicate Coherent(c: KeySettings, store: map<string, Score>, f: Pair -> Score) {
    forall p: Pair :: Plain(c, p) && Key(c, p) in store ==> store[Key(c, p)] == f(p)
  }

  function PairsOf(query: string, texts: seq<string>): (ps: seq<Pair>)
    ensures |ps| == |texts| && forall i :: 0 <= i < |ps| ==> ps[i] == (query, texts[i])
  {
    seq(|texts|, i requires 0 <= i < |texts| => (query, texts[i]))
  }

  function Lookup(c: KeySettings, store: map<string, Score>, p: Pair): Option<Score> {
    if Key(c, p) in store then Some(store[Key(c, p)]) else None
  }

  lemma StoreKeepsCoherent(c: KeySettings, store: map<string, Score>, f: Pair -> Score, p: Pair)
    requires Respects(c, f) && Coherent(c, store, f)
    ensures Coherent(c, store[Key(c, p) := f(p)], f)
  {
    hide Key, Plain, SameTexts;
    var after := store[Key(c, p) := f(p)];
    forall x: Pair | Plain(c, x) && Key(c, x) in after ensures after[Key(c, x)] == f(x) {
      if Key(c, x) == Key(c, p) {
        KeyExact(c, x, p);
      }
    }
  }

  /** Losing entries, to expiry or eviction, keeps the cache coherent. */
  lemma EvictKeepsCoherent(c: KeySettings, store: map<string, Score>, f: Pair -> Score, keys: set<string>)
    requires Coherent(c, store, f)
    ensures Coherent(c, store - keys, f)
  {
    hide Key, Plain;
  }

  ghost predicate StoresSafely(c: KeySettings, f: Pair -> Score, store: map<string, Score>, p: Pair) {
    Coherent(c, store, f) ==> Coherent(c, store[Key(c, p) := f(p)], f)
  }

  /** Storing scores can be relied on if and only if the predictor's score depends on the normalised
      texts alone: otherwise one pair's entry is served to another that scores differently. */
  lemma StoresSafelyIff(c: KeySettings, f: Pair -> Score)
    ensures Respects(c, f) <==> forall store: map<string, Score>, p: Pair :: StoresSafely(c, f, store, p)
  {
    hide Key, Plain, SameTexts;
    if Respects(c, f) {
      forall store: map<string, Score>, p: Pair ensures StoresSafely(c, f, store, p) {
        if Coherent(c, store, f) {
          StoreKeepsCoherent(c, store, f, p);
        }
      }
    }
    if forall store: map<string, Score>, p: Pair :: StoresSafely(c, f, store, p) {
      forall a: Pair, b: Pair | Plain(c, a) && Plain(c, b) && SameTexts(c, a, b) ensures f(a) == f(b) {
        assert StoresSafely(c, f, map[], a);
        KeyExact(c, a, b);
        assert Key(c, b) in map[][Key(c, a) := f(a)];
      }
    }
  }

  class ScoreCache {
    const settings: KeySettings
    var enabled: bool
    var store: map<string, Score>

    constructor (settings: KeySettings, enabled: bool)
      ensures this.settings == settings && this.enabled == enabled && store == map[]
    {
      this.settings, this.enabled, this.store := settings, enabled, map[];
    }

    /** `get_many`; `down` says that the store could not be read. */
    method GetMany(query: string, documents: seq<string>, down: bool) returns (values: seq<Option<Score>>)
      ensures |values| == |documents|
      ensures forall i :: 0 <= i < |documents| ==>
        values[i] == if enabled && !down then Lookup(settings, store, (query, documents[i])) else None
    {
      if !enabled || down {
        return seq(|documents|, i => None);
      }
      values := [];
      for i := 0 to |documents|
        invariant |values| == i
        invariant forall k :: 0 <= k < i ==> values[k] == Lookup(settings, store, (query, documents[k]))
      {
        values := values + [Lookup(settings, store, (query, documents[i]))];
      }
    }

    /** `set_many`; `applied` are the writes of the pipeline that took effect before any failure.
        A length mismatch is an error before anything is sent. Errors are swallowed. */
    method SetMany(query: string, documents: seq<string>, scores: seq<Score>, applied: set<nat>)
      modifies this`store
      ensures store == if enabled && |documents| == |scores|
                       then Stored(settings, old(store), PairsOf(query, documents), scores, applied, |documents|)
                       else old(store)
    {
      if !enabled || |documents| != |scores| {
        return;
      }
      for i := 0 to |documents|
        invariant store == Stored(settings, old(store), PairsOf(query, documents), scores, applied, i)
      {
        if i in applied {
          store := store[Key(settings, (query, documents[i])) := scores[i]];
        }
      }
    }
  }

  /** The store after the first `n` writes of a pipeline, of which only those in `applied` took effect. */
  function Stored(c: KeySettings, store: map<string, Score>, ps: seq<Pair>, scores: seq<Score>, applied: set<nat>, n: nat): map<string, Score>
    requires n <= |ps| == |scores|
  {
    if n == 0 then store else
    var before := Stored(c, store, ps, scores, applied, n - 1);
    if n - 1 in applied then before[Key(c, ps[n - 1]) := scores[n - 1]] else before
  }

  /** A write that took effect is read back, by every request with that key, unless a later write of
      the same pipeline went to the same key; and so long as the key is not evicted. */
  lemma {:induction false} WrittenIsRead(c: KeySettings, store: map<string, Score>, ps: seq<Pair>, scores: seq<Score>, applied: set<nat>,
                                         n: nat, k: nat, evicted: set<string>, p: Pair)
    requires k < n <= |ps| == |scores| && k in applied
    requires forall j :: k < j < n && j in applied ==> Key(c, ps[j]) != Key(c, ps[k])
    requires Key(c, p) == Key(c, ps[k]) && Key(c, p) !in evicted
    ensures Lookup(c, Stored(c, store, ps, scores, applied, n) - evicted, p) == Some(scores[k])
  {
    hide Key;
    if k < n - 1 {
      WrittenIsRead(c, store, ps, scores, applied, n - 1, k, evicted, p);
    }
  }

  /** A pipeline removes nothing, and adds what it writes. */
  lemma {:induction false} StoredHas(c: KeySettings, store: map<string, Score>, ps: seq<Pair>, scores: seq<Score>, applied: set<nat>,
                                     n: nat, p: Pair)
    requires n <= |ps| == |scores|
    ensures Lookup(c, Stored(c, store, ps, scores, applied, n), p).Some?
            <==> Lookup(c, store, p).Some? || exists k :: 0 <= k < n && k in applied && Key(c, ps[k]) == Key(c, p)
  {
    hide Key;
    if n > 0 {
      StoredHas(c, store, ps, scores, applied, n - 1, p);
    }
  }

  /** A pipeline changes no entry but those it writes. */
  lemma {:induction false} OthersAreKept(c: KeySettings, store: map<string, Score>, ps: seq<Pair>, scores: seq<Score>, applied: set<nat>,
                                         n: nat, p: Pair)
    requires n <= |ps| == |scores|
    requires forall j :: 0 <= j < n && j in applied ==> Key(c, ps[j]) != Key(c, p)
    ensures Lookup(c, Stored(c, store, ps, scores, applied, n), p) == Lookup(c, store, p)
  {
    hide Key;
    if n > 0 {
      OthersAreKept(c, store, ps, scores, applied, n - 1, p);
    }
  }

  /** What was stored under one model, revision, backend, precision or length limit is never found under
      another: a request under other settings misses, whatever its texts. */
  lemma {:induction false} OtherSettingsMiss(c: KeySettings, ps: seq<Pair>, scores: seq<Score>, applied: set<nat>, n: nat,
                                             d: KeySettings, p: Pair)
    requires SeparatorFree(c) && SeparatorFree(d) && !SameSettings(c, d)
    requires n <= |ps| == |scores|
    ensures Lookup(d, Stored(c, map[], ps, scores, applied, n), p) == None
  {
    hide Key, SeparatorFree, SameSettings;
    if n > 0 {
      OtherSettingsMiss(c, ps, scores, applied, n - 1, d, p);
      if Key(c, ps[n - 1]) == Key(d, p) {
        KeySplits(c, ps[n - 1], d, p);
      }
    }
  }

  /** Any part of any `set_many` keeps the cache coherent. */
  lemma {:induction false} StoredCoherent(c: KeySettings, store: map<string, Score>, f: Pair -> Score, ps: seq<Pair>, applied: set<nat>, n: nat)
    requires Respects(c, f) && Coherent(c, store, f) && n <= |ps|
    ensures Coherent(c, Stored(c, store, ps, Map(f, ps), applied, n), f)
  {
    hide Coherent, Respects, Key;
    if n > 0 {
      StoredCoherent(c, store, f, ps, applied, n - 1);
      StoreKeepsCoherent(c, Stored(c, store, ps, Map(f, ps), applied, n - 1), f, ps[n - 1]);
    }
  }
}
