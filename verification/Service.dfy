/** One rerank request: validation, cache lookup, inference for the misses, stable sort, top n. */
module Service {
  import opened Basics
  import opened Batching
  import opened Cache
  import opened Permutations
  import opened Ranking
  import opened Texts

  datatype Document = Document(id: string, text: string, metadata: string)

  datatype Request = Request(query: string, documents: seq<Document>, topN: Option<Positive>,
                             returnDocuments: bool, truncate: bool)

  datatype Limits = Limits(maxDocuments: nat, maxQuery: nat, maxDocument: nat, maxTotal: nat, defaultTopN: Positive)

  datatype Prepared = Prepared(document: Document, text: string, truncated: bool)

  datatype ServiceError = ServiceError(status: nat, code: string)

  const TOO_LARGE := ServiceError(413, "request_too_large")
  const NOT_READY := ServiceError(503, "model_not_ready")
  const TIMED_OUT := ServiceError(504, "inference_timeout")
  const INTERNAL_ERROR := ServiceError(500, "internal_error")

  /** What comes back from the predictor: scores, a timeout, no predictor at all, or its own error. */
  datatype Inference = Inferred(values: seq<Score>) | TimedOut | Unavailable | Erred(error: ServiceError)

  datatype Item = Item(id: string, score: Score, rank: nat, text: Option<string>, metadata: string,
                       tokenCount: nat, truncated: bool, cacheHit: bool)

  datatype Response = Response(results: seq<Item>, received: nat, scored: nat, hits: nat)

  /* ---------- validation ---------- */

  /** The text, or as much of its beginning as the limit lets through. */
  function Clip(s: string, limit: nat): string {
    if |s| > limit then s[..limit] else s
  }

  function Prepare(d: Document, limit: nat): Prepared {
    Prepared(d, Clip(d.text, limit), |d.text| > limit)
  }

  function PrepareAll(request: Request, limits: Limits): (r: seq<Prepared>)
    ensures |r| == |request.documents|
    ensures forall i :: 0 <= i < |r| ==> r[i] == Prepare(request.documents[i], limits.maxDocument)
  {
    seq(|request.documents|, i requires 0 <= i < |request.documents| => Prepare(request.documents[i], limits.maxDocument))
  }

  function Query(request: Request, limits: Limits): string {
    Clip(request.query, limits.maxQuery)
  }

  function Characters(ps: seq<Prepared>): nat {
    if ps == [] then 0 else Characters(ps[..|ps| - 1]) + |ps[|ps| - 1].text|
  }

  /** When a request is accepted: few enough documents, nothing over its limit unless truncation is
      asked for, and the texts that remain within the total. */
  predicate Admissible(request: Request, limits: Limits) {
    && |request.documents| <= limits.maxDocuments
    && (request.truncate || |request.query| <= limits.maxQuery)
    && (request.truncate || forall i :: 0 <= i < |request.documents| ==> |request.documents[i].text| <= limits.maxDocument)
    && |Query(request, limits)| + Characters(PrepareAll(request, limits)) <= limits.maxTotal
  }

  /** All texts in one. */
  function Joined(texts: seq<string>): string {
    if texts == [] then "" else texts[0] + Joined(texts[1..])
  }

  lemma {:induction false} CharactersAreJoined(ps: seq<Prepared>)
    ensures Characters(ps) == |Joined(TextsOf(ps))|
    decreases |ps|
  {
    if ps != [] {
      var n := |ps| - 1;
      CharactersAreJoined(ps[..n]);
      assert TextsOf(ps) == TextsOf(ps[..n]) + [ps[n].text];
      JoinedAppend(TextsOf(ps[..n]), ps[n].text);
    }
  }

  lemma {:induction false} JoinedAppend(texts: seq<string>, last: string)
    ensures |Joined(texts + [last])| == |Joined(texts)| + |last|
  {
    if texts != [] {
      assert (texts + [last])[1..] == texts[1..] + [last];
      JoinedAppend(texts[1..], last);
    }
  }

  /** What of the query and of a document is scored: the text, up to its own limit. */
  lemma TextsAreCut(request: Request, limits: Limits, i: nat)
    requires i < |request.documents|
    ensures Query(request, limits) == if |request.query| <= limits.maxQuery then request.query else request.query[..limits.maxQuery]
    ensures var text := request.documents[i].text;
      TextsOf(PrepareAll(request, limits))[i] == if |text| <= limits.maxDocument then text else text[..limits.maxDocument]
  {
  }

  /** A request is admitted exactly when it has few enough documents, each of its texts fits its own limit
      or may be cut to it, and the query and the documents that remain, one after the other, are no
      longer than the total allows. */
  lemma AdmissibleMeans(request: Request, limits: Limits)
    ensures Admissible(request, limits) <==>
      && |request.documents| <= limits.maxDocuments
      && (!request.truncate ==> Query(request, limits) == request.query)
      && (!request.truncate ==> forall i :: 0 <= i < |request.documents| ==>
            TextsOf(PrepareAll(request, limits))[i] == request.documents[i].text)
      && |Query(request, limits) + Joined(TextsOf(PrepareAll(request, limits)))| <= limits.maxTotal
  {
    CharactersAreJoined(PrepareAll(request, limits));
  }

  /** One document more of those prepared. */
  lemma PreparedOneMore(request: Request, limits: Limits, i: nat)
    requires i < |request.documents|
    ensures var all, d, limit := PrepareAll(request, limits), request.documents[i], limits.maxDocument;
      var text := if |d.text| > limit then d.text[..limit] else d.text;
      && all[..i + 1] == all[..i] + [Prepared(d, text, |d.text| > limit)]
      && Characters(all[..i + 1]) == Characters(all[..i]) + |text|
  {
    var all := PrepareAll(request, limits);
    assert all[..i + 1][..i] == all[..i];
  }

  lemma PreparedAll(request: Request, limits: Limits)
    ensures var all := PrepareAll(request, limits); all[..0] == [] && all[..|request.documents|] == all && Characters([]) == 0
  {
  }

  /** Once no count and no single text stands in the way, the total decides. */
  lemma TotalDecides(request: Request, limits: Limits)
    requires |request.documents| <= limits.maxDocuments && (request.truncate || |request.query| <= limits.maxQuery)
    requires request.truncate || forall k :: 0 <= k < |request.documents| ==> |request.documents[k].text| <= limits.maxDocument
    ensures Admissible(request, limits) <==> |Query(request, limits)| + Characters(PrepareAll(request, limits)) <= limits.maxTotal
  {
  }

  lemma TooLong(request: Request, limits: Limits, i: nat)
    requires i < |request.documents| && !request.truncate && |request.documents[i].text| > limits.maxDocument
    ensures !Admissible(request, limits)
  {
  }

  method Validate(request: Request, limits: Limits) returns (r: Result<(string, seq<Prepared>), ServiceError>)
    ensures r.Ok? <==> Admissible(request, limits)
    ensures r.Ok? ==> r.value == (Query(request, limits), PrepareAll(request, limits))
    ensures r.Error? ==> r.error == ServiceError(413, "request_too_large")
  {
    if |request.documents| > limits.maxDocuments {
      return Error(TOO_LARGE);
    }
    var query := request.query;
    if |query| > limits.maxQuery {
      if !request.truncate {
        return Error(TOO_LARGE);
      }
      query := query[..limits.maxQuery];
    }
    assert query == Query(request, limits);
    hide Admissible, Characters, PrepareAll, Prepare, Query;
    var prepared := [];
    var total := |query|;
    ghost var all := PrepareAll(request, limits);
    PreparedAll(request, limits);
    for i := 0 to |request.documents|
      invariant prepared == all[..i]
      invariant total == |query| + Characters(prepared)
      invariant request.truncate || forall k :: 0 <= k < i ==> |request.documents[k].text| <= limits.maxDocument
    {
      var document := request.documents[i];
      var text, wasTruncated := document.text, false;
      if |text| > limits.maxDocument {
        if !request.truncate {
          TooLong(request, limits, i);
          return Error(TOO_LARGE);
        }
        text, wasTruncated := text[..limits.maxDocument], true;
      }
      PreparedOneMore(request, limits, i);
      total := total + |text|;
      prepared := prepared + [Prepared(document, text, wasTruncated)];
    }
    TotalDecides(request, limits);
    if total > limits.maxTotal {
      return Error(TOO_LARGE);
    }
    return Ok((query, prepared));
  }

  /* ---------- scores and results ---------- */

  function TextsOf(prepared: seq<Prepared>): (r: seq<string>)
    ensures |r| == |prepared| && forall i :: 0 <= i < |r| ==> r[i] == prepared[i].text
  {
    seq(|prepared|, i requires 0 <= i < |prepared| => prepared[i].text)
  }

  /** Positions without a cached score, in order. */
  function Misses(scores: seq<Option<Score>>): (misses: seq<nat>)
    ensures forall k :: 0 <= k < |misses| ==> misses[k] < |scores| && scores[misses[k]].None?
    ensures forall i :: 0 <= i < |scores| && scores[i].None? ==> i in misses
    ensures forall a, b :: 0 <= a < b < |misses| ==> misses[a] < misses[b]
    ensures |misses| <= |scores|
    decreases |scores|
  {
    if scores == [] then [] else
    var n := |scores| - 1;
    if scores[n].None? then Misses(scores[..n]) + [n] else Misses(scores[..n])
  }

  function MissPairs(query: string, texts: seq<string>, misses: seq<nat>): (ps: seq<Pair>)
    requires forall k :: 0 <= k < |misses| ==> misses[k] < |texts|
    ensures |ps| == |misses| && forall k :: 0 <= k < |ps| ==> ps[k] == (query, texts[misses[k]])
  {
    seq(|misses|, k requires 0 <= k < |misses| => (query, texts[misses[k]]))
  }

  /** Every document's score is the predictor's own. */
  function TrueScores(query: string, texts: seq<string>, f: Pair -> Score): seq<Score> {
    Map(f, PairsOf(query, texts))
  }

  /** The response for final scores: sorted, cut to the top n, with the misses told from the hits. */
  function Respond(request: Request, limits: Limits, scores: seq<Score>, misses: seq<nat>): Response
    requires |scores| == |request.documents|
    requires |misses| <= |scores|
  {
    var prepared := PrepareAll(request, limits);
    var order := Sorted(scores);
    Response(seq(TopN(request, limits), k requires 0 <= k < TopN(request, limits) =>
               ItemFor(request, prepared[order[k]], scores[order[k]], k + 1, order[k] !in misses)),
             |prepared|, |prepared|, |prepared| - |misses|)
  }

  function TopN(request: Request, limits: Limits): (n: nat)
    ensures n <= |request.documents|
  {
    var wanted := match request.topN case Some(n) => n case None => limits.defaultTopN;
    if wanted < |request.documents| then wanted else |request.documents|
  }

  function ItemFor(request: Request, p: Prepared, score: Score, rank: nat, hit: bool): Item {
    Item(p.document.id, score, rank, if request.returnDocuments then Some(p.document.text) else None,
         p.document.metadata, |Words(p.text)|, p.truncated, hit)
  }

  /** The response without what tells cached scores from fresh ones. */
  function Bare(r: Response): Response {
    Response(seq(|r.results|, k requires 0 <= k < |r.results| => r.results[k].(cacheHit := false)), r.received, r.scored, 0)
  }

  /** Two responses are the same in this sense exactly when they received and scored as many documents and
      their results agree, one by one, in everything but whether they were hits. */
  lemma BareMeans(a: Response, b: Response)
    ensures Bare(a) == Bare(b) <==>
      && a.received == b.received && a.scored == b.scored && |a.results| == |b.results|
      && forall k :: 0 <= k < |a.results| ==> SameItem(a.results[k], b.results[k])
  {
    if Bare(a) == Bare(b) {
      forall k | 0 <= k < |a.results| ensures SameItem(a.results[k], b.results[k]) {
        assert |Bare(a).results| == |Bare(b).results|;
        assert Bare(a).results[k] == Bare(b).results[k];
      }
    }
  }

  predicate SameItem(a: Item, b: Item) {
    && a.id == b.id && a.score == b.score && a.rank == b.rank && a.text == b.text && a.metadata == b.metadata
    && a.tokenCount == b.tokenCount && a.truncated == b.truncated
  }

  /** The answer to the request alone, with an empty cache. */
  function Alone(request: Request, limits: Limits, f: Pair -> Score): Response {
    var texts := TextsOf(PrepareAll(request, limits));
    Respond(request, limits, TrueScores(Query(request, limits), texts, f), seq(|texts|, i => i))
  }

  /** In all pairs of the request every key separator has a space beside it. */
  ghost predicate PlainRequest(c: KeySettings, request: Request, limits: Limits) {
    forall i :: 0 <= i < |request.documents| ==>
      Plain(c, (Query(request, limits), Prepare(request.documents[i], limits.maxDocument).text))
  }

  /* ---------- what a response means ---------- */

  /** What the result for a document says, field by field. */
  predicate Describes(item: Item, request: Request, limits: Limits, i: nat)
    requires i < |request.documents|
  {
    var d := request.documents[i];
    var fits := |d.text| <= limits.maxDocument;
    && item.id == d.id
    && item.metadata == d.metadata
    && item.text == (if request.returnDocuments then Some(d.text) else None)
    && item.truncated == !fits
    && item.tokenCount == |Words(if fits then d.text else d.text[..limits.maxDocument])|
  }

  /** Any response: as many results as were asked for, or as the default says, and never more than
      there are documents; the k-th one describes the document ranked k-th, carries its score and says
      whether it was a miss; and every document received counts as scored. */
  lemma RespondGives(request: Request, limits: Limits, scores: seq<Score>, misses: seq<nat>, order: seq<nat>)
    requires |scores| == |request.documents| && |misses| <= |scores| && IsRanking(scores, order)
    ensures var r := Respond(request, limits, scores, misses);
      && (forall n :: request.topN == Some(n) ==> |r.results| == if n < |request.documents| then n else |request.documents|)
      && (request.topN.None? ==>
            |r.results| == if limits.defaultTopN < |request.documents| then limits.defaultTopN else |request.documents|)
      && (forall k :: 0 <= k < |r.results| ==>
            && Describes(r.results[k], request, limits, order[k])
            && r.results[k].score == scores[order[k]]
            && r.results[k].rank == k + 1
            && (r.results[k].cacheHit <==> order[k] !in misses))
      && BestFirst(scores, order)
      && r.received == r.scored == |request.documents|
      && r.hits == |request.documents| - |misses|
  {
    RankingUnique(scores, order, Sorted(scores));
    RankingIsBestFirst(scores, order);
    hide Sorted, Words, BestFirst;
  }

  /** The results are the first of the unique stable descending order, as many as were asked for, or as
      the default says, with ranks counting from 1; the document at rank r is beaten by exactly r - 1
      others, and none left out beats it. */
  lemma AloneIsTopOfRanking(request: Request, limits: Limits, f: Pair -> Score, order: seq<nat>)
    requires IsRanking(TrueScores(Query(request, limits), TextsOf(PrepareAll(request, limits)), f), order)
    ensures var results := Alone(request, limits, f).results;
      var scores := TrueScores(Query(request, limits), TextsOf(PrepareAll(request, limits)), f);
      && (forall n :: request.topN == Some(n) ==> |results| == if n < |request.documents| then n else |request.documents|)
      && (request.topN.None? ==>
            |results| == if limits.defaultTopN < |request.documents| then limits.defaultTopN else |request.documents|)
      && BestFirst(scores, order)
      && forall k :: 0 <= k < |results| ==>
        && Describes(results[k], request, limits, order[k])
        && results[k].score == f((Query(request, limits), Clip(request.documents[order[k]].text, limits.maxDocument)))
        && results[k].rank == k + 1 == |Better(scores, order[k])| + 1
        && forall i :: |results| <= i < |order| ==> Before(scores, order[k], order[i])
  {
    var scores := TrueScores(Query(request, limits), TextsOf(PrepareAll(request, limits)), f);
    var misses := seq(|request.documents|, i => i);
    RespondGives(request, limits, scores, misses, order);
    var results := Alone(request, limits, f).results;
    assert results == Respond(request, limits, scores, misses).results;
    hide Respond, Describes, BestFirst;
    forall k | 0 <= k < |results|
      ensures results[k].rank == |Better(scores, order[k])| + 1
    {
      PositionCountsBetter(scores, order, k);
    }
  }

  lemma BareRespond(request: Request, limits: Limits, scores: seq<Score>, a: seq<nat>, b: seq<nat>)
    requires |scores| == |request.documents| && |a| <= |scores| && |b| <= |scores|
    ensures Bare(Respond(request, limits, scores, a)) == Bare(Respond(request, limits, scores, b))
  {
    var x, y := Bare(Respond(request, limits, scores, a)), Bare(Respond(request, limits, scores, b));
    assert x.results == y.results;
  }

  /* ---------- merging cached and fresh scores ---------- */

  /** The scores with each inferred one put at its missing position, in order. */
  function Merge(scores: seq<Option<Score>>, misses: seq<nat>, inferred: seq<Score>): (r: seq<Option<Score>>)
    requires |misses| == |inferred| && forall k :: 0 <= k < |misses| ==> misses[k] < |scores|
    ensures |r| == |scores|
    decreases |misses|
  {
    if misses == [] then scores
    else Merge(scores[misses[0] := Some(inferred[0])], misses[1..], inferred[1..])
  }

  lemma {:induction false} MergeAt(scores: seq<Option<Score>>, misses: seq<nat>, inferred: seq<Score>)
    requires |misses| == |inferred| && forall k :: 0 <= k < |misses| ==> misses[k] < |scores|
    requires forall a, b :: 0 <= a < b < |misses| ==> misses[a] < misses[b]
    ensures var r := Merge(scores, misses, inferred);
      && (forall k :: 0 <= k < |misses| ==> r[misses[k]] == Some(inferred[k]))
      && (forall i :: 0 <= i < |scores| && i !in misses ==> r[i] == scores[i])
    decreases |misses|
  {
    if misses != [] {
      var next := scores[misses[0] := Some(inferred[0])];
      MergeAt(next, misses[1..], inferred[1..]);
      assert misses[0] !in misses[1..];
      forall k | 1 <= k < |misses| ensures Merge(scores, misses, inferred)[misses[k]] == Some(inferred[k]) {
        assert misses[1..][k - 1] == misses[k] && inferred[1..][k - 1] == inferred[k];
      }
    }
  }

  /** The stored score of each document, or 0.0 for one that has none. */
  function Final(scores: seq<Option<Score>>): (r: seq<Score>)
    ensures |r| == |scores|
  {
    seq(|scores|, i requires 0 <= i < |scores| => match scores[i] case Some(v) => v case None => 0.0)
  }

  /** Each known score is the pair's own: what a coherent cache can return, under any pattern of
      hits, evictions and failed reads. */
  ghost predicate Truthful(scores: seq<Option<Score>>, query: string, texts: seq<string>, f: Pair -> Score) {
    && |scores| == |texts|
    && forall i :: 0 <= i < |scores| && scores[i].Some? ==> scores[i].value == f((query, texts[i]))
  }

  lemma CoherentLookupTruthful(c: KeySettings, store: map<string, Score>, f: Pair -> Score, query: string, texts: seq<string>, scores: seq<Option<Score>>)
    requires Coherent(c, store, f)
    requires forall i :: 0 <= i < |texts| ==> Plain(c, (query, texts[i]))
    requires |scores| == |texts|
    requires forall i :: 0 <= i < |texts| ==> scores[i].None? || scores[i] == Lookup(c, store, (query, texts[i]))
    ensures Truthful(scores, query, texts, f)
  {
    hide Key, Plain;
  }

  /** Cache transparency: whatever a coherent cache returned, filling the misses with the
      predictor's scores gives every document its own score, and the 0.0 default is never used. */
  lemma MergeIsTrue(scores: seq<Option<Score>>, query: string, texts: seq<string>, f: Pair -> Score)
    requires Truthful(scores, query, texts, f)
    ensures var misses := Misses(scores);
      var merged := Merge(scores, misses, Map(f, MissPairs(query, texts, misses)));
      && (forall i :: 0 <= i < |merged| ==> merged[i].Some?)
      && Final(merged) == TrueScores(query, texts, f)
  {
    var misses := Misses(scores);
    var inferred := Map(f, MissPairs(query, texts, misses));
    MergeAt(scores, misses, inferred);
    var merged := Merge(scores, misses, inferred);
    forall i | 0 <= i < |merged| ensures merged[i] == Some(f((query, texts[i]))) {
      if scores[i].None? {
        var k :| 0 <= k < |misses| && misses[k] == i;
        assert merged[misses[k]] == Some(inferred[k]);
      } else {
        assert i !in misses;
      }
    }
  }

  /** Every request answered from any mix of cached and fresh scores gets the answer it would get
      alone with an empty cache. */
  lemma Transparent(request: Request, limits: Limits, scores: seq<Option<Score>>, f: Pair -> Score)
    requires Truthful(scores, Query(request, limits), TextsOf(PrepareAll(request, limits)), f)
    ensures var query, texts := Query(request, limits), TextsOf(PrepareAll(request, limits));
      var misses := Misses(scores);
      var merged := Merge(scores, misses, Map(f, MissPairs(query, texts, misses)));
      Bare(Respond(request, limits, Final(merged), misses)) == Bare(Alone(request, limits, f))
  {
    hide Respond, Bare;
    var query, texts := Query(request, limits), TextsOf(PrepareAll(request, limits));
    MergeIsTrue(scores, query, texts, f);
    BareRespond(request, limits, TrueScores(query, texts, f), Misses(scores), seq(|texts|, i => i));
  }

  /** The reported hits are the documents whose score was found in the cache, and only the results
      of those documents are marked as hits; hits and misses add up to the documents received. */
  lemma HitsAreCached(request: Request, limits: Limits, found: seq<Option<Score>>, scores: seq<Score>)
    requires |found| == |scores| == |request.documents|
    ensures var misses := Misses(found);
      var r := Respond(request, limits, scores, misses);
      && r.hits == |set i: nat | i < |found| && found[i].Some?|
      && r.hits + |misses| == r.received
      && forall k :: 0 <= k < |r.results| ==> (r.results[k].cacheHit <==> found[Sorted(scores)[k]].Some?)
  {
    hide Sorted, Misses, Words;
    MissCount(found);
    var order := Sorted(scores);
    assert forall k :: 0 <= k < |order| ==> (order[k] in Misses(found) <==> found[order[k]].None?);
  }

  lemma MissCount(found: seq<Option<Score>>)
    ensures |Misses(found)| + |set i: nat | i < |found| && found[i].Some?| == |found|
    ensures (forall i :: 0 <= i < |found| ==> found[i].None?) ==> |Misses(found)| == |found|
  {
    hide Misses;
    var misses := Misses(found);
    var cached := set i: nat | i < |found| && found[i].Some?;
    assert NoDup(misses);
    ElementsCard(misses);
    assert cached !! Elements(misses) && cached + Elements(misses) == Below(|found|);
    assert |cached + Elements(misses)| == |cached| + |Elements(misses)|;
    if forall i :: 0 <= i < |found| ==> found[i].None? {
      assert cached == {};
    }
  }

  /* ---------- the program ---------- */

  /** What the inference step makes of the predictor's answer for `n` misses. */
  function Answered(inference: Inference, n: nat): (r: Result<seq<Score>, ServiceError>)
    ensures r.Ok? ==> |r.value| == n
  {
    match inference
    case Unavailable => Error(NOT_READY)
    case TimedOut => Error(TIMED_OUT)
    case Erred(e) => Error(e)
    case Inferred(values) => if |values| == n then Ok(values) else Error(INTERNAL_ERROR)
  }

  /** What the cache knows, when it is on and can be read. */
  function LookedUp(c: KeySettings, store: map<string, Score>, readable: bool, query: string, texts: seq<string>): (r: seq<Option<Score>>)
    ensures |r| == |texts|
  {
    seq(|texts|, i requires 0 <= i < |texts| => if readable then Lookup(c, store, (query, texts[i])) else None)
  }

  /** The answer to a request that passed validation, given what the cache knew. */
  function Served(request: Request, limits: Limits, looked: seq<Option<Score>>, predict: seq<Pair> -> Inference): Result<Response, ServiceError>
    requires |looked| == |request.documents|
  {
    var misses := Misses(looked);
    var pairs := MissPairs(Query(request, limits), TextsOf(PrepareAll(request, limits)), misses);
    if misses == [] then Ok(Respond(request, limits, Final(looked), misses))
    else match Answered(predict(pairs), |misses|)
      case Error(e) => Error(e)
      case Ok(values) => Ok(Respond(request, limits, Final(Merge(looked, misses, values)), misses))
  }

  /** What the cache holds after it. */
  function StoreAfter(request: Request, limits: Limits, c: KeySettings, store: map<string, Score>, looked: seq<Option<Score>>,
                      predict: seq<Pair> -> Inference, written: set<nat>): map<string, Score>
    requires |looked| == |request.documents|
  {
    var misses := Misses(looked);
    var pairs := MissPairs(Query(request, limits), TextsOf(PrepareAll(request, limits)), misses);
    if misses == [] then store
    else match Answered(predict(pairs), |misses|)
      case Error(_) => store
      case Ok(values) => Stored(c, store, pairs, values, written, |misses|)
  }

  lemma NoMissesIff(looked: seq<Option<Score>>)
    ensures Misses(looked) == [] <==> forall i :: 0 <= i < |looked| ==> looked[i].Some?
  {
    if Misses(looked) != [] {
      assert looked[Misses(looked)[0]].None?;
    }
  }

  /** A request that passed validation fails if and only if something is missing from the cache and the
      predictor does not return one score for each missing document; then its error is the
      predictor's own, or says that there is none, that time ran out or that the scores do not fit,
      and nothing is stored. A fully cached request does not depend on the predictor at all. */
  lemma FailsOnlyForMisses(request: Request, limits: Limits, c: KeySettings, store: map<string, Score>, looked: seq<Option<Score>>,
                           predict: seq<Pair> -> Inference, written: set<nat>)
    requires |looked| == |request.documents|
    ensures var r := Served(request, limits, looked, predict);
      var missing := exists i :: 0 <= i < |looked| && looked[i].None?;
      var answer := predict(MissPairs(Query(request, limits), TextsOf(PrepareAll(request, limits)), Misses(looked)));
      && (r.Error? <==> missing && !(answer.Inferred? && |answer.values| == |Misses(looked)|))
      && (r.Error? ==>
            && StoreAfter(request, limits, c, store, looked, predict, written) == store
            && (answer.Erred? ==> r.error == answer.error)
            && (answer.TimedOut? ==> r.error == ServiceError(504, "inference_timeout"))
            && (answer.Unavailable? ==> r.error == ServiceError(503, "model_not_ready"))
            && (answer.Inferred? ==> r.error == ServiceError(500, "internal_error")))
      && (!missing ==> r == Ok(Respond(request, limits, Final(looked), [])))
  {
    hide Respond, Merge, Stored, Final;
    NoMissesIff(looked);
  }

  /** Scores that come back from the predictor, one per pair, are its function's. */
  ghost predicate Honest(predict: seq<Pair> -> Inference, f: Pair -> Score) {
    forall ps :: predict(ps).Inferred? && |predict(ps).values| == |ps| ==> predict(ps).values == Map(f, ps)
  }

  /** Cache transparency for one request: whatever is cached, evicted, unreadable or written in part,
      a request that succeeds gets the results it would get with everything scored afresh. */
  lemma CacheIsTransparent(request: Request, limits: Limits, c: KeySettings, store: map<string, Score>, readable: bool,
                           predict: seq<Pair> -> Inference, f: Pair -> Score)
    requires Honest(predict, f) && Coherent(c, store, f) && PlainRequest(c, request, limits)
    ensures var looked := LookedUp(c, store, readable, Query(request, limits), TextsOf(PrepareAll(request, limits)));
      var r := Served(request, limits, looked, predict);
      r.Ok? ==> Bare(r.value) == Bare(Alone(request, limits, f))
  {
    var query, texts := Query(request, limits), TextsOf(PrepareAll(request, limits));
    var looked := LookedUp(c, store, readable, query, texts);
    var misses := Misses(looked);
    var pairs := MissPairs(query, texts, misses);
    assert Answered(predict(pairs), |misses|).Ok? ==> Answered(predict(pairs), |misses|).value == Map(f, pairs);
    hide Coherent, PlainRequest, Bare, Alone, Merge, Lookup, Misses, Honest, Answered;
    PlainLookup(request, limits, c, store, f, looked);
    NoMissesNoMerge(looked, misses, query, texts, f);
  }

  /** And it leaves the cache coherent. */
  lemma CacheStaysCoherent(request: Request, limits: Limits, c: KeySettings, store: map<string, Score>, looked: seq<Option<Score>>,
                           predict: seq<Pair> -> Inference, written: set<nat>, f: Pair -> Score)
    requires |looked| == |request.documents|
    requires Honest(predict, f) && Respects(c, f) && Coherent(c, store, f)
    ensures Coherent(c, StoreAfter(request, limits, c, store, looked, predict, written), f)
  {
    var misses := Misses(looked);
    var pairs := MissPairs(Query(request, limits), TextsOf(PrepareAll(request, limits)), misses);
    assert Answered(predict(pairs), |misses|).Ok? ==> Answered(predict(pairs), |misses|).value == Map(f, pairs);
    hide Coherent, Respects, Misses, Honest, Answered, Stored;
    StoredCoherent(c, store, f, pairs, written, |pairs|);
  }

  /** Once a request's misses are all written, each of its documents is found. */
  lemma AllWritten(c: KeySettings, store: map<string, Score>, query: string, texts: seq<string>, looked: seq<Option<Score>>,
                   values: seq<Score>, written: set<nat>)
    requires |looked| == |texts| && |values| == |Misses(looked)| && forall k :: 0 <= k < |texts| ==> k in written
    requires forall i :: 0 <= i < |texts| ==> looked[i] == Lookup(c, store, (query, texts[i]))
    ensures forall i :: 0 <= i < |texts| ==>
      Lookup(c, Stored(c, store, MissPairs(query, texts, Misses(looked)), values, written, |values|), (query, texts[i])).Some?
  {
    hide Key, Misses, Lookup, Stored;
    var misses := Misses(looked);
    var pairs := MissPairs(query, texts, misses);
    forall i | 0 <= i < |texts| ensures Lookup(c, Stored(c, store, pairs, values, written, |values|), (query, texts[i])).Some? {
      StoredHas(c, store, pairs, values, written, |values|, (query, texts[i]));
      if looked[i].None? {
        var k :| 0 <= k < |misses| && misses[k] == i;
        assert Key(c, pairs[k]) == Key(c, (query, texts[i]));
      }
    }
  }

  /** A request that succeeds and whose writes all take effect leaves every one of its documents cached: the
      same request again finds all scores and needs no predictor. */
  lemma ServedIsCached(request: Request, limits: Limits, c: KeySettings, store: map<string, Score>,
                       predict: seq<Pair> -> Inference, written: set<nat>)
    requires forall k :: 0 <= k < |request.documents| ==> k in written
    ensures var query, texts := Query(request, limits), TextsOf(PrepareAll(request, limits));
      var looked := LookedUp(c, store, true, query, texts);
      var after := StoreAfter(request, limits, c, store, looked, predict, written);
      Served(request, limits, looked, predict).Ok? ==> Misses(LookedUp(c, after, true, query, texts)) == []
  {
    var query, texts := Query(request, limits), TextsOf(PrepareAll(request, limits));
    var looked := LookedUp(c, store, true, query, texts);
    var after := StoreAfter(request, limits, c, store, looked, predict, written);
    hide Key, Misses, Respond, Merge, Final, Answered, Query, TextsOf, PrepareAll, Lookup, Stored;
    NoMissesIff(LookedUp(c, after, true, query, texts));
    if Served(request, limits, looked, predict).Ok? && Misses(looked) != [] {
      var values := Answered(predict(MissPairs(query, texts, Misses(looked))), |Misses(looked)|).value;
      AllWritten(c, store, query, texts, looked, values, written);
    }
  }

  lemma PlainLookup(request: Request, limits: Limits, c: KeySettings, store: map<string, Score>, f: Pair -> Score, looked: seq<Option<Score>>)
    requires Coherent(c, store, f) && PlainRequest(c, request, limits)
    requires |looked| == |request.documents|
    requires forall i :: 0 <= i < |looked| ==>
      (looked[i].None? || looked[i] == Lookup(c, store, (Query(request, limits), PrepareAll(request, limits)[i].text)))
    ensures var query, texts := Query(request, limits), TextsOf(PrepareAll(request, limits));
      var misses := Misses(looked);
      Bare(Respond(request, limits, Final(Merge(looked, misses, Map(f, MissPairs(query, texts, misses)))), misses))
      == Bare(Alone(request, limits, f))
  {
    hide Key, Plain, Bare, Respond, Alone, Lookup;
    var texts := TextsOf(PrepareAll(request, limits));
    assert forall i :: 0 <= i < |texts| ==> texts[i] == Prepare(request.documents[i], limits.maxDocument).text;
    CoherentLookupTruthful(c, store, f, Query(request, limits), texts, looked);
    Transparent(request, limits, looked, f);
  }

  lemma NoMissesNoMerge(looked: seq<Option<Score>>, misses: seq<nat>, query: string, texts: seq<string>, f: Pair -> Score)
    requires |looked| == |texts| && misses == Misses(looked)
    ensures misses == [] ==> Merge(looked, misses, Map(f, MissPairs(query, texts, misses))) == looked
  {
  }

  class RerankService {
    const limits: Limits
    const cache: ScoreCache
    var ready: bool
    var backendMaxDocuments: Option<nat>

    constructor (limits: Limits, cache: ScoreCache, backendMaxDocuments: Option<nat>)
      ensures this.limits == limits && this.cache == cache && !ready
      ensures this.backendMaxDocuments == backendMaxDocuments
    {
      this.limits, this.cache, this.backendMaxDocuments, ready := limits, cache, backendMaxDocuments, false;
    }

    /** `rerank` for a pairwise backend. `down` says that the cache could not be read, `predict` is
        what the batcher returns, `written` the cache writes that take effect. */
    method Rerank(request: Request, down: bool, predict: seq<Pair> -> Inference, written: set<nat>) returns (r: Result<Response, ServiceError>)
      modifies cache`store
      ensures var texts := TextsOf(PrepareAll(request, limits));
        var looked := LookedUp(cache.settings, old(cache.store), cache.enabled && !down, Query(request, limits), texts);
        if !ready then r == Error(NOT_READY) && cache.store == old(cache.store)
        else if (backendMaxDocuments.Some? && |request.documents| > backendMaxDocuments.value) || !Admissible(request, limits)
        then r == Error(TOO_LARGE) && cache.store == old(cache.store)
        else
          && r == Served(request, limits, looked, predict)
          && cache.store == if cache.enabled
               then StoreAfter(request, limits, cache.settings, old(cache.store), looked, predict, written)
               else old(cache.store)
    {
      hide Admissible, Merge, Lookup, Misses, Answered, Stored, Respond;
      if !ready {
        return Error(NOT_READY);
      }
      if backendMaxDocuments.Some? && |request.documents| > backendMaxDocuments.value {
        return Error(TOO_LARGE);
      }
      var validated := Validate(request, limits);
      if validated.Error? {
        return Error(validated.error);
      }
      var (query, prepared) := validated.value;
      var texts := TextsOf(prepared);
      var scores := cache.GetMany(query, texts, down);
      assert scores == LookedUp(cache.settings, cache.store, cache.enabled && !down, query, texts);
      var misses := Misses(scores);
      if misses != [] {
        var inferred := InferMisses(query, texts, misses, predict);
        if inferred.Error? {
          return Error(inferred.error);
        }
        scores := FillMisses(scores, misses, inferred.value);
        StoreMisses(query, texts, misses, inferred.value, written);
      }
      r := Ok(Respond(request, limits, Final(scores), misses));
    }

    /** The inference step: one predictor call for all misses. */
    method InferMisses(query: string, texts: seq<string>, misses: seq<nat>, predict: seq<Pair> -> Inference)
      returns (r: Result<seq<Score>, ServiceError>)
      requires forall k :: 0 <= k < |misses| ==> misses[k] < |texts|
      ensures r == Answered(predict(MissPairs(query, texts, misses)), |misses|)
    {
      r := Answered(predict(MissPairs(query, texts, misses)), |misses|);
    }

    /** Storing what was inferred: the writes in `written` take effect, if the cache is on. */
    method StoreMisses(query: string, texts: seq<string>, misses: seq<nat>, inferred: seq<Score>, written: set<nat>)
      requires |inferred| == |misses| && forall k :: 0 <= k < |misses| ==> misses[k] < |texts|
      modifies cache`store
      ensures cache.store == if cache.enabled
        then Stored(cache.settings, old(cache.store), MissPairs(query, texts, misses), inferred, written, |misses|)
        else old(cache.store)
    {
      var missTexts := seq(|misses|, k requires 0 <= k < |misses| => texts[misses[k]]);
      assert PairsOf(query, missTexts) == MissPairs(query, texts, misses);
      cache.SetMany(query, missTexts, inferred, written);
    }
  }

  /** The loop that overwrites the missing scores. */
  method FillMisses(scores: seq<Option<Score>>, misses: seq<nat>, inferred: seq<Score>) returns (r: seq<Option<Score>>)
    requires |misses| == |inferred| && forall k :: 0 <= k < |misses| ==> misses[k] < |scores|
    ensures r == Merge(scores, misses, inferred)
  {
    r := scores;
    assert misses[0..] == misses && inferred[0..] == inferred;
    for k := 0 to |misses|
      invariant |r| == |scores|
      invariant Merge(r, misses[k..], inferred[k..]) == Merge(scores, misses, inferred)
    {
      assert misses[k..][1..] == misses[k + 1..] && inferred[k..][1..] == inferred[k + 1..];
      r := r[misses[k] := Some(inferred[k])];
    }
  }
}
