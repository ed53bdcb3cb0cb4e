/** Text handling shared by the batcher's token estimate and the cache key:
    `str.split()` with no argument, and the normalisation built on it. */
module Texts {
  import opened Basics

  /** The characters at which a text is split when no separator is named. */
  predicate IsSpace(c: char) {
    var i := c as int;
    || 0x09 <= i <= 0x0D
    || 0x1C <= i <= 0x20
    || i == 0x85
    || i == 0xA0
    || i == 0x1680
    || 0x2000 <= i <= 0x200A
    || i == 0x2028 || i == 0x2029 || i == 0x202F || i == 0x205F || i == 0x3000
  }

  /** One by one: the control characters among them, the space, the no-break space and the spaces and
      separators of Unicode. */
  const SPACES := "\U{09}\U{0A}\U{0B}\U{0C}\U{0D}\U{1C}\U{1D}\U{1E}\U{1F} \U{85}\U{A0}\U{1680}"
    + "\U{2000}\U{2001}\U{2002}\U{2003}\U{2004}\U{2005}\U{2006}\U{2007}\U{2008}\U{2009}\U{200A}"
    + "\U{2028}\U{2029}\U{202F}\U{205F}\U{3000}"

  lemma SpacesAre(c: char)
    ensures IsSpace(c) <==> c in SPACES
  {
    assert forall k :: 0 <= k < |SPACES| ==> IsSpace(SPACES[k]);
    if IsSpace(c) {
      var i := c as int;
      assert c == SPACES[
        if i <= 0x0D then i - 0x09 else if i <= 0x20 then i - 0x1C + 5 else if i == 0x85 then 10 else if i == 0xA0 then 11
        else if i == 0x1680 then 12 else if i <= 0x200A then i - 0x2000 + 13 else if i == 0x2028 then 24
        else if i == 0x2029 then 25 else if i == 0x202F then 26 else if i == 0x205F then 27 else 28];
    }
  }

  predicate IsWord(w: string) {
    w != "" && forall i :: 0 <= i < |w| ==> !IsSpace(w[i])
  }

  predicate AllWords(ws: seq<string>) {
    forall i :: 0 <= i < |ws| ==> IsWord(ws[i])
  }

  function SkipSpaces(s: string): (t: string)
    ensures |t| <= |s|
    ensures t != "" ==> !IsSpace(t[0])
  {
    if s == "" || !IsSpace(s[0]) then s else SkipSpaces(s[1..])
  }

  function WordLength(s: string): (n: nat)
    ensures n <= |s|
    ensures forall i :: 0 <= i < n ==> !IsSpace(s[i])
    ensures n < |s| ==> IsSpace(s[n])
  {
    if s == "" || IsSpace(s[0]) then 0 else 1 + WordLength(s[1..])
  }

  /** The maximal runs of non-space characters, in order. */
  function Words(s: string): (ws: seq<string>)
    ensures AllWords(ws)
    decreases |s|
  {
    var t := SkipSpaces(s);
    if t == "" then [] else
    var n := WordLength(t);
    [t[..n]] + Words(t[n..])
  }

  /** The words with a single space between each two. */
  function Join(ws: seq<string>): string {
    if |ws| == 0 then "" else if |ws| == 1 then ws[0] else ws[0] + " " + Join(ws[1..])
  }

  /** `normalize_text`; Unicode NFKC normalisation is a parameter. */
  function Normalize(s: string, nfkc: string -> string): string {
    Join(Words(nfkc(s)))
  }

  lemma WordLengthAt(s: string, n: nat)
    requires n <= |s|
    requires forall i :: 0 <= i < n ==> !IsSpace(s[i])
    requires n < |s| ==> IsSpace(s[n])
    ensures WordLength(s) == n
  {
  }

  lemma {:induction false} WordsOfJoin(ws: seq<string>)
    requires AllWords(ws)
    ensures Words(Join(ws)) == ws
  {
    if |ws| == 0 {
    } else if |ws| == 1 {
      WordLengthAt(ws[0], |ws[0]|);
      assert ws[0][|ws[0]|..] == "";
      assert ws[0][..|ws[0]|] == ws[0];
    } else {
      var s := Join(ws);
      var tail := " " + Join(ws[1..]);
      assert s == ws[0] + tail;
      assert s[|ws[0]|] == ' ';
      WordLengthAt(s, |ws[0]|);
      assert s[|ws[0]|..] == tail && s[..|ws[0]|] == ws[0];
      assert tail[1..] == Join(ws[1..]);
      assert SkipSpaces(tail) == SkipSpaces(Join(ws[1..]));
      WordsOfJoin(ws[1..]);
    }
  }

  predicate AllSpace(s: string) {
    forall i :: 0 <= i < |s| ==> IsSpace(s[i])
  }

  lemma WordsOfWord(w: string)
    requires IsWord(w)
    ensures Words(w) == [w]
  {
    WordsOfJoin([w]);
  }

  lemma {:induction false} SpacesSkipped(sep: string, t: string)
    requires AllSpace(sep)
    ensures SkipSpaces(sep + t) == SkipSpaces(t)
  {
    if sep == "" {
      assert sep + t == t;
    } else {
      assert (sep + t)[0] == sep[0] && (sep + t)[1..] == sep[1..] + t;
      SpacesSkipped(sep[1..], t);
    }
  }

  lemma {:induction false} SkipEnds(s: string, rest: string)
    requires SkipSpaces(s) != ""
    ensures SkipSpaces(s + rest) == SkipSpaces(s) + rest
  {
    assert (s + rest)[0] == s[0];
    if IsSpace(s[0]) {
      assert (s + rest)[1..] == s[1..] + rest;
      SkipEnds(s[1..], rest);
    }
  }

  lemma {:induction false} SkipsAll(s: string)
    requires SkipSpaces(s) == ""
    ensures AllSpace(s)
  {
    if s != "" {
      SkipsAll(s[1..]);
      assert s == [s[0]] + s[1..];
    }
  }

  /** The first word of a text, when space follows the text or another word of it does. */
  lemma FirstWord(u: string, rest: string)
    requires u != "" && !IsSpace(u[0]) && rest != "" && IsSpace(rest[0])
    ensures var n := WordLength(u); n > 0 && Words(u + rest) == [u[..n]] + Words(u[n..] + rest)
  {
    var n := WordLength(u);
    assert n == |u| ==> (u + rest)[n] == rest[0];
    WordLengthAt(u + rest, n);
    assert (u + rest)[n..] == u[n..] + rest && (u + rest)[..n] == u[..n];
  }

  lemma WordsSkip(s: string, t: string)
    requires SkipSpaces(s) == SkipSpaces(t)
    ensures Words(s) == Words(t)
  {
  }

  lemma SkipTwice(s: string)
    ensures SkipSpaces(SkipSpaces(s)) == SkipSpaces(s)
  {
  }

  lemma SpaceAppends(s: string, sep: string, t: string)
    requires AllSpace(s) && AllSpace(sep)
    ensures SkipSpaces(s + (sep + t)) == SkipSpaces(t)
  {
    SpacesSkipped(sep, t);
    SpacesSkipped(s, sep + t);
  }

  /** However much space of whatever kind stands between two texts, the words are those of the one and
      then those of the other. With `WordsOfWord` this says what the words of any text are. */
  lemma {:induction false} WordsAround(s: string, sep: string, t: string)
    requires sep != "" && AllSpace(sep)
    ensures Words(s + sep + t) == Words(s) + Words(t)
    decreases |s|
  {
    var rest := sep + t;
    var u := SkipSpaces(s);
    assert rest[0] == sep[0];
    Associates(s, sep, t);
    if u == "" {
      SkipsAll(s);
      SpaceAppends(s, sep, t);
      WordsSkip(s + rest, t);
    } else {
      var n := WordLength(u);
      SkipEnds(s, rest);
      SkipTwice(s + rest);
      WordsSkip(s + rest, u + rest);
      FirstWord(u, rest);
      assert Words(s) == [u[..n]] + Words(u[n..]);
      hide SkipSpaces, WordLength, Words;
      Associates(u[n..], sep, t);
      WordsAround(u[n..], sep, t);
      Associates([u[..n]], Words(u[n..]), Words(t));
    }
  }

  /** Two texts normalise to the same string exactly when NFKC leaves them with the
      same words: padding and the kind of spacing never matter, anything else does. */
  lemma SameNormalForm(a: string, b: string, nfkc: string -> string)
    ensures Normalize(a, nfkc) == Normalize(b, nfkc) <==> Words(nfkc(a)) == Words(nfkc(b))
  {
    WordsOfJoin(Words(nfkc(a)));
    WordsOfJoin(Words(nfkc(b)));
  }

  /** Normalising a normalised text changes nothing, when NFKC leaves it alone. */
  lemma NormalizeIdempotent(a: string, nfkc: string -> string)
    requires nfkc(Normalize(a, nfkc)) == Normalize(a, nfkc)
    ensures Normalize(Normalize(a, nfkc), nfkc) == Normalize(a, nfkc)
  {
    WordsOfJoin(Words(nfkc(a)));
  }

  /* ---------- what normalised texts look like ---------- */

  /** Single spaces between words and nothing else that counts as space. */
  predicate Tidy(s: string) {
    && (forall i :: 0 <= i < |s| && IsSpace(s[i]) ==> s[i] == ' ')
    && (forall i :: 0 <= i < |s| && IsSpace(s[i]) ==> 0 < i < |s| - 1 && !IsSpace(s[i - 1]) && !IsSpace(s[i + 1]))
  }

  lemma {:induction false} JoinTidy(ws: seq<string>)
    requires AllWords(ws)
    ensures Tidy(Join(ws)) && (ws != [] ==> Join(ws) != "")
  {
    if |ws| > 1 {
      var w, rest := ws[0], Join(ws[1..]);
      JoinTidy(ws[1..]);
      assert !IsSpace(rest[0]) && !IsSpace(w[|w| - 1]);
      AfterWord(w, rest);
    }
  }

  lemma AfterWord(w: string, rest: string)
    requires IsWord(w) && Tidy(rest) && rest != "" && !IsSpace(rest[0])
    ensures Tidy(w + " " + rest)
  {
    var s := w + " " + rest;
    assert forall i :: |w| < i < |s| ==> s[i] == rest[i - |w| - 1];
  }

  /** A tidy text goes on after a space with another word, and is tidy from there. */
  lemma TidyTail(s: string, n: nat)
    requires Tidy(s) && n < |s| && IsSpace(s[n])
    ensures s[n] == ' ' && n + 1 < |s| && !IsSpace(s[n + 1]) && Tidy(s[n + 1..])
  {
  }

  lemma CutAtSpace(s: string, n: nat)
    requires n < |s| && s[n] == ' '
    ensures s == s[..n] + " " + s[n + 1..] && s[n..] == " " + s[n + 1..]
  {
  }

  lemma SpaceFirst(rest: string)
    ensures Words(" " + rest) == Words(rest)
  {
    assert AllSpace(" ");
    SpacesSkipped(" ", rest);
    WordsSkip(" " + rest, rest);
  }

  lemma WordFirst(s: string)
    requires s != "" && !IsSpace(s[0])
    ensures Words(s) == [s[..WordLength(s)]] + Words(s[WordLength(s)..])
  {
    assert SkipSpaces(s) == s;
  }

  /** A text that starts with a word, and goes on after a space. */
  lemma WordThenRest(s: string, n: nat)
    requires s != "" && !IsSpace(s[0]) && n == WordLength(s) && n < |s| && s[n] == ' '
    ensures Words(s) == [s[..n]] + Words(s[n + 1..]) && s == s[..n] + " " + s[n + 1..]
  {
    CutAtSpace(s, n);
    SpaceFirst(s[n + 1..]);
    WordFirst(s);
    hide *;
  }

  lemma {:induction false} JoinOfWords(s: string)
    requires Tidy(s)
    ensures Join(Words(s)) == s
    decreases |s|
  {
    if s != "" {
      var n := WordLength(s);
      if n == |s| {
        assert SkipSpaces(s) == s && s[n..] == "" && s[..n] == s;
      } else {
        TidyTail(s, n);
        assert !IsSpace(s[0]);
        WordThenRest(s, n);
        WordsSomething(s[n + 1..]);
        hide Tidy, Words, WordLength, IsSpace;
        JoinOfWords(s[n + 1..]);
        var words := Words(s[n + 1..]);
        assert ([s[..n]] + words)[1..] == words;
      }
    }
  }

  lemma WordsSomething(s: string)
    requires s != "" && !IsSpace(s[0])
    ensures Words(s) != []
  {
  }

  /** Exactly the tidy texts are what splitting and joining can yield. */
  lemma TidyIff(s: string)
    ensures Tidy(s) <==> Join(Words(s)) == s
  {
    JoinTidy(Words(s));
    if Tidy(s) {
      JoinOfWords(s);
    }
  }
}
