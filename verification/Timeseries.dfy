/** The admin dashboard's time series: request records grouped into equal time buckets. */
module Timeseries {
  import Basics
  import Batching

  /** A record of a served request; the latest come first in the admin's deque. */
  datatype Request = Request(timestamp: real, latency: real, documents: int, cacheHits: int, success: bool)

  datatype Point = Point(timestamp: int, requests: nat, documents: int, cacheHits: int,
                         latencyMean: real, latencyP95: real, errors: int)

  /* ---------- buckets ---------- */

  function Times(q: int, width: Batching.Positive): int {
    q * width
  }

  ghost predicate IsMultiple(t: int, width: Batching.Positive) {
    exists q :: t == Times(q, width)
  }

  function Bucket(timestamp: real, width: Batching.Positive): int {
    Times((timestamp / width as real).Floor, width)
  }

  /** The records from `cutoff` on whose bucket is among `keys`, in their order. */
  function Members(requests: seq<Request>, cutoff: real, width: Batching.Positive, keys: set<int>): seq<Request> {
    if requests == [] then [] else
    var last := requests[|requests| - 1];
    Members(requests[..|requests| - 1], cutoff, width, keys)
    + if last.timestamp >= cutoff && Bucket(last.timestamp, width) in keys then [last] else []
  }

  /** The records from `cutoff` on. */
  function Recent(requests: seq<Request>, cutoff: real): seq<Request> {
    if requests == [] then [] else
    var last := requests[|requests| - 1];
    Recent(requests[..|requests| - 1], cutoff) + if last.timestamp >= cutoff then [last] else []
  }

  /* ---------- totals ---------- */

  function Total(requests: seq<Request>, weight: Request -> int): int {
    if requests == [] then 0 else Total(requests[..|requests| - 1], weight) + weight(requests[|requests| - 1])
  }

  function One(r: Request): int { 1 }
  function Documents(r: Request): int { r.documents }
  function CacheHits(r: Request): int { r.cacheHits }
  function Error(r: Request): int { if r.success then 0 else 1 }

  function Sum(values: seq<real>): real {
    if values == [] then 0.0 else values[0] + Sum(values[1..])
  }

  function Latencies(requests: seq<Request>): (r: seq<real>)
    ensures |r| == |requests| && forall i :: 0 <= i < |r| ==> r[i] == requests[i].latency
  {
    seq(|requests|, i requires 0 <= i < |requests| => requests[i].latency)
  }

  /* ---------- the 95th percentile ---------- */

  /** 95% of k, rounded to the nearest integer and to the even one of two. */
  function Round95(k: nat): nat {
    var whole, part := 19 * k / 20, 19 * k % 20;
    if part > 10 || (part == 10 && whole % 2 == 1) then whole + 1 else whole
  }

  function P95Index(n: nat): (i: nat)
    requires n > 0
    ensures i < n
  {
    if Round95(n - 1) < n - 1 then Round95(n - 1) else n - 1
  }

  /** The index is within the list and no other is nearer to 95% of the way; where two are as near it is
      the even one; and the cap at the last index is never needed. */
  lemma P95IndexIsNearest(n: nat, other: int)
    requires n > 0
    ensures P95Index(n) == Round95(n - 1) < n
    ensures -10 <= 20 * P95Index(n) - 19 * (n - 1) <= 10
    ensures other != P95Index(n) ==> other * 20 - 19 * (n - 1) >= 10 || 19 * (n - 1) - other * 20 >= 10
    ensures 20 * P95Index(n) - 19 * (n - 1) == 10 || 19 * (n - 1) - 20 * P95Index(n) == 10 ==> P95Index(n) % 2 == 0
  {
  }

  predicate Ascending(values: seq<real>) {
    forall i, k :: 0 <= i < k < |values| ==> values[i] <= values[k]
  }

  function Insert(x: real, sorted: seq<real>): seq<real> {
    if sorted == [] || x <= sorted[0] then [x] + sorted else [sorted[0]] + Insert(x, sorted[1..])
  }

  function Sorted(values: seq<real>): seq<real> {
    if values == [] then [] else Insert(values[0], Sorted(values[1..]))
  }

  lemma {:induction false} InsertElements(x: real, sorted: seq<real>)
    ensures multiset(Insert(x, sorted)) == multiset(sorted) + multiset{x}
    ensures Sum(Insert(x, sorted)) == Sum(sorted) + x
    decreases |sorted|
  {
    if sorted != [] && x > sorted[0] {
      InsertElements(x, sorted[1..]);
      assert sorted == [sorted[0]] + sorted[1..];
    } else {
      assert ([x] + sorted)[1..] == sorted;
    }
  }

  lemma {:induction false} InsertAscending(x: real, sorted: seq<real>)
    requires Ascending(sorted)
    ensures Ascending(Insert(x, sorted))
    decreases |sorted|
  {
    if sorted != [] && x > sorted[0] {
      var tail := sorted[1..];
      InsertAscending(x, tail);
      InsertElements(x, tail);
      var rest := Insert(x, tail);
      hide Insert, Sum;
      forall k | 0 <= k < |rest| ensures sorted[0] <= rest[k] {
        assert rest[k] in multiset(rest);
        assert rest[k] == x || rest[k] in tail;
      }
      PrependAscending(sorted[0], rest);
    }
  }

  lemma PrependAscending(x: real, sorted: seq<real>)
    requires Ascending(sorted) && forall k :: 0 <= k < |sorted| ==> x <= sorted[k]
    ensures Ascending([x] + sorted)
  {
  }

  lemma {:induction false} SortedAscending(values: seq<real>)
    ensures Ascending(Sorted(values)) && multiset(Sorted(values)) == multiset(values)
    ensures Sum(Sorted(values)) == Sum(values)
    decreases |values|
  {
    if values != [] {
      var sorted := Sorted(values[1..]);
      SortedAscending(values[1..]);
      InsertAscending(values[0], sorted);
      InsertElements(values[0], sorted);
      hide Insert, Ascending;
      assert values == [values[0]] + values[1..];
    }
  }

  lemma SortedLength(values: seq<real>)
    ensures |Sorted(values)| == |values|
  {
    SortedAscending(values);
    assert |multiset(Sorted(values))| == |Sorted(values)|;
    assert |multiset(values)| == |values|;
  }

  predicate IsMean(mean: real, values: seq<real>) {
    mean * |values| as real == Sum(values)
  }

  function Mean(values: seq<real>): (mean: real)
    requires values != []
    ensures IsMean(mean, values)
  {
    Sum(values) / |values| as real
  }

  lemma SameMean(values: seq<real>, others: seq<real>)
    requires |values| == |others| > 0 && Sum(values) == Sum(others)
    ensures IsMean(Mean(values), others)
  {
  }

  /* ---------- points ---------- */

  /** Enough of the bucket on either side: `value` is one of its latencies, with `index` of them (or
      more) no greater before it and the rest no less. */
  ghost predicate Quantile(latencies: seq<real>, value: real, index: nat) {
    exists sorted: seq<real> :: multiset(sorted) == multiset(latencies) && Ascending(sorted)
                                && index < |sorted| && sorted[index] == value
  }

  /** What a point says of the records it stands for. */
  ghost predicate Summarises(p: Point, members: seq<Request>) {
    && members != []
    && p.requests == |members|
    && p.documents == Total(members, Documents)
    && p.cacheHits == Total(members, CacheHits)
    && p.errors == Total(members, Error)
    && IsMean(p.latencyMean, Latencies(members))
    && Quantile(Latencies(members), p.latencyP95, P95Index(|members|))
  }

  ghost predicate Increasing(points: seq<Point>) {
    forall i, k :: 0 <= i < k < |points| ==> points[i].timestamp < points[k].timestamp
  }

  /** One point for each bucket that has a record from the cutoff on, in order. */
  ghost predicate IsSeries(points: seq<Point>, requests: seq<Request>, cutoff: real, width: Batching.Positive) {
    && Increasing(points)
    && (forall i :: 0 <= i < |points| ==> Summarises(points[i], Members(requests, cutoff, width, {points[i].timestamp})))
    && (forall i :: 0 <= i < |requests| && requests[i].timestamp >= cutoff ==> HasPoint(points, Bucket(requests[i].timestamp, width)))
  }

  ghost predicate HasPoint(points: seq<Point>, timestamp: int) {
    exists k :: 0 <= k < |points| && points[k].timestamp == timestamp
  }

  method Summarise(timestamp: int, requests: seq<Request>) returns (p: Point)
    requires requests != []
    ensures p.timestamp == timestamp && Summarises(p, requests)
  {
    var latencies := Sorted(Latencies(requests));
    SortedAscending(Latencies(requests));
    SortedLength(Latencies(requests));
    hide IsMean, P95Index;
    SameMean(latencies, Latencies(requests));
    hide Sorted, Sum, Total, Round95, Mean;
    var p95Index := P95Index(|latencies|);
    p := Point(timestamp, |requests|, Total(requests, Documents), Total(requests, CacheHits),
               Mean(latencies), latencies[p95Index], Total(requests, Error));
    assert Quantile(Latencies(requests), p.latencyP95, p95Index) by {
      assert Ascending(latencies) && latencies[p95Index] == p.latencyP95;
    }
  }

  class AdminState {
    const maxRecords: nat := 1000
    var requests: seq<Request>

    constructor ()
      ensures requests == []
    {
      requests := [];
    }

    /** The latest record goes in front; of more than a thousand the oldest is dropped. */
    method Record(r: Request)
      requires |requests| <= maxRecords
      modifies this
      ensures |requests| <= maxRecords
      ensures requests <= [r] + old(requests)
      ensures |requests| == if |old(requests)| < maxRecords then |old(requests)| + 1 else maxRecords
    {
      requests := [r] + requests;
      if |requests| > maxRecords {
        requests := requests[..maxRecords];
      }
    }

    /** `timeseries`, with the current time. */
    method Timeseries(now: real, period: real, width: Batching.Positive) returns (points: seq<Point>)
      ensures IsSeries(points, requests, now - period, width)
    {
      hide *;
      var cutoff := now - period;
      var buckets: map<int, seq<Request>> := map[];
      GroupNone(cutoff, width);
      var i := 0;
      while i < |requests|
        invariant 0 <= i <= |requests|
        invariant Grouped(buckets, requests[..i], cutoff, width)
      {
        var request := requests[i];
        assert requests[..i + 1] == requests[..i] + [request];
        GroupOneMore(buckets, requests[..i], request, cutoff, width);
        if request.timestamp >= cutoff {
          var bucket := Bucket(request.timestamp, width);
          buckets := buckets[bucket := Get(buckets, bucket) + [request]];
        }
        i := i + 1;
      }
      assert requests[..i] == requests;
      points := [];
      StartNone(buckets);
      var left := buckets.Keys;
      while left != {}
        invariant left <= buckets.Keys
        invariant Started(points, buckets, left)
        decreases left
      {
        HasLeast(left);
        var timestamp: int :| timestamp in left && forall key :: key in left ==> timestamp <= key;
        GroupsNonEmpty(buckets, requests, cutoff, width, timestamp);
        var point := Summarise(timestamp, buckets[timestamp]);
        StartOneMore(points, buckets, left, point);
        points := points + [point];
        left := left - {timestamp};
      }
      AllStarted(points, buckets, requests, cutoff, width);
    }
  }

  /* ---------- the loops' invariants ---------- */

  function Get(buckets: map<int, seq<Request>>, key: int): seq<Request> {
    if key in buckets then buckets[key] else []
  }

  /** Every bucket holds its members among the records, and there is a bucket for each that has one. */
  ghost predicate Grouped(buckets: map<int, seq<Request>>, requests: seq<Request>, cutoff: real, width: Batching.Positive) {
    && (forall key :: key in buckets ==> buckets[key] != [])
    && (forall key :: Get(buckets, key) == Members(requests, cutoff, width, {key}))
  }

  lemma GroupNone(cutoff: real, width: Batching.Positive)
    ensures Grouped(map[], [], cutoff, width)
  {
  }

  lemma GroupOneMore(buckets: map<int, seq<Request>>, requests: seq<Request>, next: Request, cutoff: real, width: Batching.Positive)
    requires Grouped(buckets, requests, cutoff, width)
    ensures var key := Bucket(next.timestamp, width);
      Grouped(if next.timestamp >= cutoff then buckets[key := Get(buckets, key) + [next]] else buckets,
              requests + [next], cutoff, width)
  {
    hide Bucket;
    assert (requests + [next])[..|requests|] == requests;
  }

  lemma GroupsNonEmpty(buckets: map<int, seq<Request>>, requests: seq<Request>, cutoff: real, width: Batching.Positive, key: int)
    requires Grouped(buckets, requests, cutoff, width) && key in buckets
    ensures buckets[key] != []
  {
  }

  /** The points made so far, from all the buckets but those `left`. */
  ghost predicate Started(points: seq<Point>, buckets: map<int, seq<Request>>, left: set<int>)
    requires left <= buckets.Keys
  {
    && Increasing(points)
    && (forall i :: 0 <= i < |points| ==> points[i].timestamp in buckets && Summarises(points[i], buckets[points[i].timestamp]))
    && (forall i, key :: 0 <= i < |points| && key in left ==> points[i].timestamp < key)
    && (forall key :: key in buckets && key !in left ==> HasPoint(points, key))
  }

  lemma StartNone(buckets: map<int, seq<Request>>)
    ensures Started([], buckets, buckets.Keys)
  {
  }

  lemma StartOneMore(points: seq<Point>, buckets: map<int, seq<Request>>, left: set<int>, next: Point)
    requires left <= buckets.Keys && Started(points, buckets, left)
    requires next.timestamp in left && forall key :: key in left ==> next.timestamp <= key
    requires Summarises(next, buckets[next.timestamp])
    ensures Started(points + [next], buckets, left - {next.timestamp})
  {
    hide Summarises;
    KeepsPoints(points, next);
  }

  lemma AllStarted(points: seq<Point>, buckets: map<int, seq<Request>>, requests: seq<Request>, cutoff: real, width: Batching.Positive)
    requires Started(points, buckets, {}) && Grouped(buckets, requests, cutoff, width)
    ensures IsSeries(points, requests, cutoff, width)
  {
    hide Summarises, Bucket;
    forall i | 0 <= i < |points| ensures Summarises(points[i], Members(requests, cutoff, width, {points[i].timestamp})) {
      assert Get(buckets, points[i].timestamp) == buckets[points[i].timestamp];
    }
    forall i | 0 <= i < |requests| && requests[i].timestamp >= cutoff
      ensures HasPoint(points, Bucket(requests[i].timestamp, width))
    {
      var key := Bucket(requests[i].timestamp, width);
      MemberOf(requests, cutoff, width, {key}, i);
      assert Get(buckets, key) != [];
    }
  }

  lemma {:induction false} MemberOf(requests: seq<Request>, cutoff: real, width: Batching.Positive, keys: set<int>, i: nat)
    requires i < |requests| && requests[i].timestamp >= cutoff && Bucket(requests[i].timestamp, width) in keys
    ensures requests[i] in Members(requests, cutoff, width, keys)
    decreases |requests|
  {
    hide Bucket;
    if i < |requests| - 1 {
      MemberOf(requests[..|requests| - 1], cutoff, width, keys, i);
    }
  }

  lemma KeepsPoints(points: seq<Point>, next: Point)
    ensures forall t :: HasPoint(points, t) ==> HasPoint(points + [next], t)
    ensures HasPoint(points + [next], next.timestamp)
  {
    forall t | HasPoint(points, t) ensures HasPoint(points + [next], t) {
      var k :| 0 <= k < |points| && points[k].timestamp == t;
      assert (points + [next])[k].timestamp == t;
    }
    assert (points + [next])[|points|] == next;
  }

  lemma {:induction false} HasLeast(keys: set<int>)
    requires keys != {}
    ensures exists key :: key in keys && forall other :: other in keys ==> key <= other
    decreases |keys|
  {
    var key := SomeElement(keys);
    if other: int :| other in keys && other < key {
      var rest := keys - {key};
      assert other in rest;
      HasLeast(rest);
      var least: int :| least in rest && forall k :: k in rest ==> least <= k;
      assert forall k :: k in keys ==> k == key || k in rest;
      assert least <= key;
    }
  }

  lemma SomeElement<T>(s: set<T>) returns (x: T)
    requires s != {}
    ensures x in s
  {
    x :| x in s;
  }

  /* ---------- conservation ---------- */

  lemma TotalAppend(requests: seq<Request>, last: Request, weight: Request -> int)
    ensures Total(requests + [last], weight) == Total(requests, weight) + weight(last)
  {
    assert (requests + [last])[..|requests|] == requests;
  }

  /** Records of two groups of buckets are those of the one and those of the other. */
  lemma {:induction false} MembersUnion(requests: seq<Request>, cutoff: real, width: Batching.Positive, a: set<int>, b: set<int>, weight: Request -> int)
    requires a !! b
    ensures Total(Members(requests, cutoff, width, a + b), weight)
         == Total(Members(requests, cutoff, width, a), weight) + Total(Members(requests, cutoff, width, b), weight)
    decreases |requests|
  {
    hide Bucket;
    if requests != [] {
      var front, last := requests[..|requests| - 1], requests[|requests| - 1];
      MembersUnion(front, cutoff, width, a, b, weight);
      if last.timestamp >= cutoff && Bucket(last.timestamp, width) in a + b {
        TotalAppend(Members(front, cutoff, width, a + b), last, weight);
        TotalAppend(Members(front, cutoff, width, if Bucket(last.timestamp, width) in a then a else b), last, weight);
      }
      hide Total;
      assert forall s: seq<Request> :: s + [] == s;
    }
  }

  lemma {:induction false} MembersOfAll(requests: seq<Request>, cutoff: real, width: Batching.Positive, keys: set<int>)
    requires forall i :: 0 <= i < |requests| && requests[i].timestamp >= cutoff ==> Bucket(requests[i].timestamp, width) in keys
    ensures Members(requests, cutoff, width, keys) == Recent(requests, cutoff)
    decreases |requests|
  {
    hide Bucket;
    if requests != [] {
      MembersOfAll(requests[..|requests| - 1], cutoff, width, keys);
    }
  }

  lemma {:induction false} MembersOfNone(requests: seq<Request>, cutoff: real, width: Batching.Positive)
    ensures Members(requests, cutoff, width, {}) == []
    decreases |requests|
  {
    if requests != [] {
      MembersOfNone(requests[..|requests| - 1], cutoff, width);
    }
  }

  function PointTotal(points: seq<Point>, weight: Point -> int): int {
    if points == [] then 0 else PointTotal(points[..|points| - 1], weight) + weight(points[|points| - 1])
  }

  function RequestsAt(p: Point): int { p.requests }
  function DocumentsAt(p: Point): int { p.documents }
  function CacheHitsAt(p: Point): int { p.cacheHits }
  function ErrorsAt(p: Point): int { p.errors }

  function Timestamps(points: seq<Point>): set<int> {
    set p | p in points :: p.timestamp
  }

  lemma LastTimestamp(points: seq<Point>)
    requires points != [] && Increasing(points)
    ensures var front, last := points[..|points| - 1], points[|points| - 1].timestamp;
      Timestamps(points) == Timestamps(front) + {last} && Timestamps(front) !! {last}
  {
    assert points == points[..|points| - 1] + [points[|points| - 1]];
  }

  /** A point's figure that totals a weight over its members totals it over all recent records. */
  lemma {:induction false} PointsAddUp(points: seq<Point>, requests: seq<Request>, cutoff: real, width: Batching.Positive,
                                       figure: Point -> int, weight: Request -> int)
    requires Increasing(points)
    requires forall i :: 0 <= i < |points| ==>
      figure(points[i]) == Total(Members(requests, cutoff, width, {points[i].timestamp}), weight)
    ensures PointTotal(points, figure) == Total(Members(requests, cutoff, width, Timestamps(points)), weight)
    decreases |points|
  {
    if points == [] {
      assert Timestamps(points) == {};
      MembersOfNone(requests, cutoff, width);
    } else {
      hide Members, Total, Bucket;
      var front, last := points[..|points| - 1], points[|points| - 1];
      PointsAddUp(front, requests, cutoff, width, figure, weight);
      LastTimestamp(points);
      hide Timestamps, Increasing;
      MembersUnion(requests, cutoff, width, Timestamps(front), {last.timestamp}, weight);
    }
  }

  lemma {:induction false} TotalOfOnes(requests: seq<Request>)
    ensures Total(requests, One) == |requests|
    decreases |requests|
  {
    if requests != [] {
      TotalOfOnes(requests[..|requests| - 1]);
    }
  }

  lemma TimestampsCover(points: seq<Point>, requests: seq<Request>, cutoff: real, width: Batching.Positive)
    requires IsSeries(points, requests, cutoff, width)
    ensures Members(requests, cutoff, width, Timestamps(points)) == Recent(requests, cutoff)
  {
    hide Bucket, Summarises;
    forall i | 0 <= i < |requests| && requests[i].timestamp >= cutoff
      ensures Bucket(requests[i].timestamp, width) in Timestamps(points)
    {
      assert HasPoint(points, Bucket(requests[i].timestamp, width));
    }
    MembersOfAll(requests, cutoff, width, Timestamps(points));
  }

  /** The series counts every record from the cutoff on exactly once: requests, documents, cache hits
      and errors add up over the points to what they are over those records. */
  lemma Conservation(points: seq<Point>, requests: seq<Request>, cutoff: real, width: Batching.Positive)
    requires IsSeries(points, requests, cutoff, width)
    ensures PointTotal(points, RequestsAt) == |Recent(requests, cutoff)| && forall p: Point :: RequestsAt(p) == p.requests
    ensures PointTotal(points, DocumentsAt) == Total(Recent(requests, cutoff), Documents)
    ensures PointTotal(points, CacheHitsAt) == Total(Recent(requests, cutoff), CacheHits)
    ensures PointTotal(points, ErrorsAt) == Total(Recent(requests, cutoff), Error)
    ensures forall p: Point :: DocumentsAt(p) == p.documents && CacheHitsAt(p) == p.cacheHits && ErrorsAt(p) == p.errors
    ensures forall r: Request ::
      Documents(r) == r.documents && CacheHits(r) == r.cacheHits && (r.success ==> Error(r) == 0) && (!r.success ==> Error(r) == 1)
  {
    TimestampsCover(points, requests, cutoff, width);
    hide Bucket, Members, Total, PointTotal, Recent, Quantile, IsMean, Latencies, HasPoint;
    forall i | 0 <= i < |points|
      ensures points[i].requests == Total(Members(requests, cutoff, width, {points[i].timestamp}), One)
    {
      TotalOfOnes(Members(requests, cutoff, width, {points[i].timestamp}));
    }
    TotalOfOnes(Recent(requests, cutoff));
    PointsAddUp(points, requests, cutoff, width, RequestsAt, One);
    PointsAddUp(points, requests, cutoff, width, DocumentsAt, Documents);
    PointsAddUp(points, requests, cutoff, width, CacheHitsAt, CacheHits);
    PointsAddUp(points, requests, cutoff, width, ErrorsAt, Error);
  }

  /** A bucket is the multiple of the width whose interval holds the time. */
  lemma BucketInterval(timestamp: real, width: Batching.Positive)
    ensures IsMultiple(Bucket(timestamp, width), width)
    ensures Bucket(timestamp, width) as real <= timestamp < (Bucket(timestamp, width) + width) as real
  {
    var w := width as real;
    var q := (timestamp / w).Floor;
    TimesWidth(timestamp, w, q as real);
    TimesAsReal(q, width);
  }

  lemma TimesAsReal(q: int, width: Batching.Positive)
    ensures Times(q, width) as real == q as real * width as real
  {
  }

  lemma TimesWidth(timestamp: real, w: real, q: real)
    requires w > 0.0 && q <= timestamp / w < q + 1.0
    ensures q * w <= timestamp < q * w + w
  {
    var x := timestamp / w;
    assert x * w == timestamp;
    ScaledAtLeast(q, x, w, timestamp);
    ScaledBelow(x, q, w, timestamp);
  }

  lemma ScaledAtLeast(q: real, x: real, w: real, product: real)
    requires w > 0.0 && q <= x && product == x * w
    ensures q * w <= product
  {
  }

  lemma ScaledBelow(x: real, q: real, w: real, product: real)
    requires w > 0.0 && x < q + 1.0 && product == x * w
    ensures product < q * w + w
  {
    var next := q + 1.0;
    Basics.ScaledLess(x, next, w);
    NextMultiple(q, w);
  }

  lemma NextMultiple(q: real, w: real)
    ensures (q + 1.0) * w == q * w + w
  {
  }

  /** Two multiples of the width whose intervals share a time are the same. */
  lemma OneInterval(timestamp: real, width: Batching.Positive, t: int)
    requires IsMultiple(t, width) && t as real <= timestamp < (t + width) as real
    ensures t == Bucket(timestamp, width)
  {
    BucketInterval(timestamp, width);
    var b := Bucket(timestamp, width);
    hide Bucket, Times;
    var x :| t == Times(x, width);
    var y :| b == Times(y, width);
    assert t < b + width && b < t + width;
    CloseMultiples(x, y, width);
  }

  lemma CloseMultiples(x: int, y: int, width: Batching.Positive)
    requires Times(x, width) < Times(y, width) + width && Times(y, width) < Times(x, width) + width
    ensures x == y
  {
    if x > y {
      TimesApart(x, y, width);
    } else if y > x {
      TimesApart(y, x, width);
    }
  }

  lemma TimesApart(x: int, y: int, width: Batching.Positive)
    requires x > y
    ensures Times(x, width) >= Times(y, width) + width
  {
    assert (x - y - 1) * width >= 0;
  }

  /** Every recent record lies in the interval [t, t + width) of exactly one point, and the points are
      at increasing multiples of the width. */
  lemma OnePointPerRecord(points: seq<Point>, requests: seq<Request>, cutoff: real, width: Batching.Positive, i: nat) returns (k: nat)
    requires IsSeries(points, requests, cutoff, width) && i < |requests|
    ensures requests[i].timestamp >= cutoff ==> k < |points| && OnlyPoint(points, k, requests[i].timestamp, width)
  {
    hide Bucket, Summarises, Members;
    k := 0;
    if requests[i].timestamp >= cutoff {
      var time := requests[i].timestamp;
      assert HasPoint(points, Bucket(time, width));
      k :| 0 <= k < |points| && points[k].timestamp == Bucket(time, width);
      BucketInterval(time, width);
      forall j | 0 <= j < |points| && InInterval(points[j], time, width) ensures j == k {
        PointsAtMultiples(points, requests, cutoff, width, j);
        OneInterval(time, width, points[j].timestamp);
      }
    }
  }

  /** Point `k` is the one whose interval holds the time. */
  predicate OnlyPoint(points: seq<Point>, k: nat, time: real, width: Batching.Positive)
    requires k < |points|
  {
    && InInterval(points[k], time, width)
    && forall j :: 0 <= j < |points| && InInterval(points[j], time, width) ==> j == k
  }

  predicate InInterval(p: Point, time: real, width: Batching.Positive) {
    p.timestamp as real <= time < (p.timestamp + width) as real
  }

  lemma PointsAtMultiples(points: seq<Point>, requests: seq<Request>, cutoff: real, width: Batching.Positive, j: nat)
    requires IsSeries(points, requests, cutoff, width) && j < |points|
    ensures IsMultiple(points[j].timestamp, width)
  {
    hide Bucket;
    MembersInBucket(requests, cutoff, width, points[j].timestamp);
  }

  lemma {:induction false} MembersInBucket(requests: seq<Request>, cutoff: real, width: Batching.Positive, key: int)
    requires Members(requests, cutoff, width, {key}) != []
    ensures IsMultiple(key, width)
    decreases |requests|
  {
    var front, last := requests[..|requests| - 1], requests[|requests| - 1];
    if last.timestamp >= cutoff && Bucket(last.timestamp, width) in {key} {
      BucketInterval(last.timestamp, width);
    } else {
      hide Bucket;
      MembersInBucket(front, cutoff, width, key);
    }
  }

  /* ---------- there is only one such series ---------- */

  lemma {:induction false} AscendingUnique(a: seq<real>, b: seq<real>)
    requires Ascending(a) && Ascending(b) && multiset(a) == multiset(b)
    ensures a == b
    decreases |a|
  {
    assert |a| == |multiset(a)| && |b| == |multiset(b)|;
    if a != [] {
      LeastFirst(a, b);
      LeastFirst(b, a);
      assert a == [a[0]] + a[1..] && b == [b[0]] + b[1..];
      assert multiset(a[1..]) == multiset(a) - multiset{a[0]} && multiset(b[1..]) == multiset(b) - multiset{b[0]};
      assert Ascending(a[1..]) && Ascending(b[1..]);
      hide Ascending;
      AscendingUnique(a[1..], b[1..]);
    }
  }

  lemma LeastFirst(a: seq<real>, b: seq<real>)
    requires Ascending(a) && multiset(a) == multiset(b) && a != [] && b != []
    ensures a[0] <= b[0]
  {
    assert b[0] in multiset(a);
    var k :| 0 <= k < |a| && a[k] == b[0];
  }

  lemma SummaryUnique(p: Point, q: Point, members: seq<Request>)
    requires Summarises(p, members) && Summarises(q, members) && p.timestamp == q.timestamp
    ensures p == q
  {
    var latencies := Latencies(members);
    var index := P95Index(|members|);
    hide Total, Sum, P95Index, Latencies;
    var a: seq<real> :| multiset(a) == multiset(latencies) && Ascending(a) && index < |a| && a[index] == p.latencyP95;
    var b: seq<real> :| multiset(b) == multiset(latencies) && Ascending(b) && index < |b| && b[index] == q.latencyP95;
    AscendingUnique(a, b);
    MeanUnique(p.latencyMean, q.latencyMean, latencies);
  }

  lemma MeanUnique(x: real, y: real, values: seq<real>)
    requires values != [] && IsMean(x, values) && IsMean(y, values)
    ensures x == y
  {
    var n := |values| as real;
    assert (x - y) * n == 0.0;
  }

  /** The points of one increasing list, all among those of another, come no earlier in it. */
  lemma {:induction false} NotBefore(a: seq<Point>, b: seq<Point>, k: nat)
    requires Increasing(a) && Increasing(b) && k < |a|
    requires forall i :: 0 <= i < |a| ==> HasPoint(b, a[i].timestamp)
    ensures k < |b| && b[k].timestamp <= a[k].timestamp
    decreases k
  {
    assert HasPoint(b, a[k].timestamp);
    var j :| 0 <= j < |b| && b[j].timestamp == a[k].timestamp;
    if k > 0 {
      NotBefore(a, b, k - 1);
      assert a[k - 1].timestamp < a[k].timestamp;
      assert j > k - 1;
    }
  }

  lemma PointsOfTheOther(a: seq<Point>, b: seq<Point>, requests: seq<Request>, cutoff: real, width: Batching.Positive, i: nat)
    requires IsSeries(a, requests, cutoff, width) && IsSeries(b, requests, cutoff, width) && i < |a|
    ensures HasPoint(b, a[i].timestamp)
  {
    hide Bucket;
    MemberBehind(requests, cutoff, width, a[i].timestamp);
  }

  lemma {:induction false} MemberBehind(requests: seq<Request>, cutoff: real, width: Batching.Positive, key: int)
    requires Members(requests, cutoff, width, {key}) != []
    ensures exists i :: 0 <= i < |requests| && requests[i].timestamp >= cutoff && Bucket(requests[i].timestamp, width) == key
    decreases |requests|
  {
    hide Bucket;
    var front, last := requests[..|requests| - 1], requests[|requests| - 1];
    if !(last.timestamp >= cutoff && Bucket(last.timestamp, width) in {key}) {
      MemberBehind(front, cutoff, width, key);
      var i :| 0 <= i < |front| && front[i].timestamp >= cutoff && Bucket(front[i].timestamp, width) == key;
      assert requests[i] == front[i];
    }
  }

  /** The records, the cutoff and the width determine the series. */
  lemma SeriesUnique(a: seq<Point>, b: seq<Point>, requests: seq<Request>, cutoff: real, width: Batching.Positive)
    requires IsSeries(a, requests, cutoff, width) && IsSeries(b, requests, cutoff, width)
    ensures a == b
  {
    hide Summarises, Members, Bucket;
    forall i | 0 <= i < |a| ensures HasPoint(b, a[i].timestamp) {
      PointsOfTheOther(a, b, requests, cutoff, width, i);
    }
    forall i | 0 <= i < |b| ensures HasPoint(a, b[i].timestamp) {
      PointsOfTheOther(b, a, requests, cutoff, width, i);
    }
    hide HasPoint;
    if |a| > |b| {
      NotBefore(a, b, |b|);
    } else if |b| > |a| {
      NotBefore(b, a, |a|);
    }
    forall i | 0 <= i < |a| ensures a[i] == b[i] {
      NotBefore(a, b, i);
      NotBefore(b, a, i);
      SummaryUnique(a[i], b[i], Members(requests, cutoff, width, {a[i].timestamp}));
    }
  }
}
