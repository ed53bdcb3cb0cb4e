/** The per-client rate limiter: a window of the last minute's accepted requests. */
module Security {

  const PERIOD := 60.0

  datatype Verdict = Accepted | Rejected

  /** One request as the limiter sees it: who asks, and when. */
  datatype Arrival = Arrival(key: string, now: real)

  /** The entries a check leaves in the window, oldest first. */
  function Expire(window: seq<real>, now: real): seq<real> {
    if window != [] && window[0] < now - PERIOD then Expire(window[1..], now) else window
  }

  function Window(requests: map<string, seq<real>>, key: string): seq<real> {
    if key in requests then requests[key] else []
  }

  /** Whether a request is let through, and the window after it. */
  function Check(window: seq<real>, now: real, limit: nat): (Verdict, seq<real>) {
    var recent := Expire(window, now);
    if |recent| >= limit then (Rejected, recent) else (Accepted, recent + [now])
  }

  class RateLimiter {
    const limit: nat
    var requests: map<string, seq<real>>

    constructor (limit: nat)
      ensures this.limit == limit && requests == map[]
    {
      this.limit, requests := limit, map[];
    }

    /** `rate_limit`: `now` is the monotonic clock; only the caller's own window changes. */
    method RateLimit(key: string, now: real) returns (verdict: Verdict)
      modifies this
      ensures var (v, window) := Check(old(Window(requests, key)), now, limit);
        verdict == v && requests == old(requests)[key := window]
    {
      var window := Window(requests, key);
      while window != [] && window[0] < now - PERIOD
        invariant Expire(window, now) == Expire(old(Window(requests, key)), now)
        decreases |window|
      {
        window := window[1..];
      }
      if |window| >= limit {
        requests := requests[key := window];
        return Rejected;
      }
      requests := requests[key := window + [now]];
      return Accepted;
    }
  }

  /* ---------- whole runs ---------- */

  /** The limiter's windows after some arrivals. */
  function After(arrivals: seq<Arrival>, limit: nat): map<string, seq<real>> {
    if arrivals == [] then map[] else
    var earlier := After(arrivals[..|arrivals| - 1], limit);
    var last := arrivals[|arrivals| - 1];
    earlier[last.key := Check(Window(earlier, last.key), last.now, limit).1]
  }

  /** What request `i` of a run is told. */
  function VerdictOf(arrivals: seq<Arrival>, i: nat, limit: nat): Verdict
    requires i < |arrivals|
  {
    Check(Window(After(arrivals[..i], limit), arrivals[i].key), arrivals[i].now, limit).0
  }

  /** The times at which a client's requests have been let through, over a whole run. */
  function History(arrivals: seq<Arrival>, key: string, limit: nat): seq<real> {
    if arrivals == [] then [] else
    var earlier := History(arrivals[..|arrivals| - 1], key, limit);
    var last := |arrivals| - 1;
    if arrivals[last].key == key && VerdictOf(arrivals, last, limit).Accepted?
    then earlier + [arrivals[last].now] else earlier
  }

  ghost predicate Monotone(arrivals: seq<Arrival>) {
    forall i, k :: 0 <= i < k < |arrivals| ==> arrivals[i].now <= arrivals[k].now
  }

  ghost predicate Ordered(times: seq<real>) {
    forall i, k :: 0 <= i < k < |times| ==> times[i] <= times[k]
  }

  /** The times of a list that fall in [from, to], both ends included. */
  function Within(times: seq<real>, from: real, to: real): seq<real> {
    if times == [] then [] else
    var rest := Within(times[..|times| - 1], from, to);
    var last := times[|times| - 1];
    if from <= last <= to then rest + [last] else rest
  }

  /** The entries at or after `from`, which come last in an ordered list. */
  lemma {:induction false} ExpireAppend(times: seq<real>, last: real, now: real)
    requires Ordered(times + [last])
    ensures Expire(times + [last], now) == if last < now - PERIOD then [] else Expire(times, now) + [last]
    decreases |times|
  {
    if times == [] {
    } else {
      var all := times + [last];
      assert all[1..] == times[1..] + [last];
      if times[0] < now - PERIOD {
        ExpireAppend(times[1..], last, now);
      } else {
        assert all[0] <= all[|all| - 1];
      }
    }
  }

  lemma {:induction false} WithinNone(times: seq<real>, from: real, to: real)
    requires forall i :: 0 <= i < |times| ==> times[i] < from
    ensures Within(times, from, to) == []
    decreases |times|
  {
    if times != [] {
      WithinNone(times[..|times| - 1], from, to);
    }
  }

  /** On an ordered list that ends by now, popping the old entries leaves those of the last minute. */
  lemma {:induction false} ExpireIsWithin(times: seq<real>, now: real)
    requires Ordered(times) && forall i :: 0 <= i < |times| ==> times[i] <= now
    ensures Expire(times, now) == Within(times, now - PERIOD, now)
    decreases |times|
  {
    if times != [] {
      var front, last := times[..|times| - 1], times[|times| - 1];
      assert times == front + [last];
      ExpireAppend(front, last, now);
      ExpireIsWithin(front, now);
      if last < now - PERIOD {
        WithinNone(times, now - PERIOD, now);
      }
    }
  }

  lemma {:induction false} ExpireTwice(times: seq<real>, earlier: real, now: real)
    requires earlier <= now
    ensures Expire(Expire(times, earlier), now) == Expire(times, now)
    decreases |times|
  {
    if times != [] {
      ExpireTwice(times[1..], earlier, now);
    }
  }

  /** A shorter interval holds no more. */
  lemma {:induction false} WithinNarrower(times: seq<real>, from: real, to: real, wideFrom: real, wideTo: real)
    requires wideFrom <= from && forall i :: 0 <= i < |times| ==> times[i] <= wideTo
    ensures |Within(times, from, to)| <= |Within(times, wideFrom, wideTo)|
    decreases |times|
  {
    if times != [] {
      WithinNarrower(times[..|times| - 1], from, to, wideFrom, wideTo);
    }
  }

  /** The last time a client asked, accepted or not. */
  function LastCheck(arrivals: seq<Arrival>, key: string): (i: int)
    ensures -1 <= i < |arrivals|
    ensures i >= 0 ==> arrivals[i].key == key
    ensures forall k :: i < k < |arrivals| ==> arrivals[k].key != key
  {
    if arrivals == [] then -1
    else if arrivals[|arrivals| - 1].key == key then |arrivals| - 1
    else LastCheck(arrivals[..|arrivals| - 1], key)
  }

  lemma {:induction false} HistoryOrdered(arrivals: seq<Arrival>, key: string, limit: nat)
    requires Monotone(arrivals)
    ensures Ordered(History(arrivals, key, limit))
    ensures forall i :: 0 <= i < |History(arrivals, key, limit)| ==>
      arrivals != [] && History(arrivals, key, limit)[i] <= arrivals[|arrivals| - 1].now
    decreases |arrivals|
  {
    hide VerdictOf;
    if arrivals != [] {
      var last := |arrivals| - 1;
      HistoryOrdered(arrivals[..last], key, limit);
      if last > 0 {
        assert arrivals[..last][last - 1] == arrivals[last - 1];
      }
    }
  }

  /** A client's accepted requests of the 60 seconds up to its last check. */
  function Recent(arrivals: seq<Arrival>, key: string, limit: nat): seq<real> {
    var i := LastCheck(arrivals, key);
    if i < 0 then [] else Within(History(arrivals, key, limit), arrivals[i].now - 60.0, arrivals[i].now)
  }

  /** One check adds the same request, or none, to the window and to the history. */
  lemma OneCheck(arrivals: seq<Arrival>, key: string, limit: nat)
    requires arrivals != [] && arrivals[|arrivals| - 1].key == key
    requires var n := |arrivals| - 1; var now := arrivals[n].now;
      Expire(Window(After(arrivals[..n], limit), key), now) == Within(History(arrivals[..n], key, limit), now - PERIOD, now)
    ensures Window(After(arrivals, limit), key) == Recent(arrivals, key, limit)
  {
    hide Expire, Within;
    var n := |arrivals| - 1;
    var now := arrivals[n].now;
    var history := History(arrivals[..n], key, limit);
    assert (history + [now])[..|history|] == history;
    WithinAppend(history, now, now - PERIOD, now);
  }

  lemma WithinAppend(times: seq<real>, last: real, from: real, to: real)
    ensures Within(times + [last], from, to) == Within(times, from, to) + if from <= last <= to then [last] else []
  {
    assert (times + [last])[..|times|] == times;
  }

  /** A check by another client touches neither. */
  lemma OthersCheck(arrivals: seq<Arrival>, key: string, limit: nat)
    requires arrivals != [] && arrivals[|arrivals| - 1].key != key
    ensures Window(After(arrivals, limit), key) == Window(After(arrivals[..|arrivals| - 1], limit), key)
    ensures Recent(arrivals, key, limit) == Recent(arrivals[..|arrivals| - 1], key, limit)
  {
    SameWindow(arrivals, key, limit);
    SameHistory(arrivals, key, limit);
    SameLastCheck(arrivals, key);
    hide After, History, Within, LastCheck, Window;
  }

  lemma SameWindow(arrivals: seq<Arrival>, key: string, limit: nat)
    requires arrivals != [] && arrivals[|arrivals| - 1].key != key
    ensures Window(After(arrivals, limit), key) == Window(After(arrivals[..|arrivals| - 1], limit), key)
  {
    hide Check;
  }

  lemma SameLastCheck(arrivals: seq<Arrival>, key: string)
    requires arrivals != [] && arrivals[|arrivals| - 1].key != key
    ensures LastCheck(arrivals, key) == LastCheck(arrivals[..|arrivals| - 1], key)
  {
  }

  lemma SameHistory(arrivals: seq<Arrival>, key: string, limit: nat)
    requires arrivals != [] && arrivals[|arrivals| - 1].key != key
    ensures History(arrivals, key, limit) == History(arrivals[..|arrivals| - 1], key, limit)
  {
    hide VerdictOf;
  }

  /** A client's window is always its accepted requests of the 60 seconds up to its last check. */
  lemma {:induction false} WindowIsHistory(arrivals: seq<Arrival>, key: string, limit: nat)
    requires Monotone(arrivals)
    ensures Window(After(arrivals, limit), key) == Recent(arrivals, key, limit)
    decreases |arrivals|
  {
    if arrivals != [] {
      hide After, History, Within, Expire, Window, Recent;
      var n := |arrivals| - 1;
      WindowIsHistory(arrivals[..n], key, limit);
      if arrivals[n].key == key {
        RecentIsHistory(arrivals[..n], arrivals[n].now, key, limit);
        OneCheck(arrivals, key, limit);
      } else {
        OthersCheck(arrivals, key, limit);
      }
    }
  }

  /** What a check at `now` leaves of the window: the accepted requests of the last minute. */
  lemma RecentIsHistory(earlier: seq<Arrival>, now: real, key: string, limit: nat)
    requires Monotone(earlier) && (earlier != [] ==> earlier[|earlier| - 1].now <= now)
    requires Window(After(earlier, limit), key) == Recent(earlier, key, limit)
    ensures Expire(Window(After(earlier, limit), key), now) == Within(History(earlier, key, limit), now - PERIOD, now)
  {
    var i := LastCheck(earlier, key);
    var history := History(earlier, key, limit);
    if i >= 0 {
      HistoryOrdered(earlier, key, limit);
      HistoryEndsAtCheck(earlier, key, limit);
      ExpireIsWithin(history, earlier[i].now);
      ExpireTwice(history, earlier[i].now, now);
      ExpireIsWithin(history, now);
    } else {
      NeverChecked(earlier, key, limit);
    }
  }

  lemma {:induction false} NeverChecked(arrivals: seq<Arrival>, key: string, limit: nat)
    requires LastCheck(arrivals, key) < 0
    ensures History(arrivals, key, limit) == []
    decreases |arrivals|
  {
    if arrivals != [] {
      NeverChecked(arrivals[..|arrivals| - 1], key, limit);
    }
  }

  lemma {:induction false} HistoryEndsAtCheck(arrivals: seq<Arrival>, key: string, limit: nat)
    requires Monotone(arrivals) && LastCheck(arrivals, key) >= 0
    ensures forall k :: 0 <= k < |History(arrivals, key, limit)| ==>
      History(arrivals, key, limit)[k] <= arrivals[LastCheck(arrivals, key)].now
    decreases |arrivals|
  {
    hide VerdictOf;
    var n := |arrivals| - 1;
    if arrivals[n].key == key {
      HistoryOrdered(arrivals, key, limit);
    } else {
      HistoryEndsAtCheck(arrivals[..n], key, limit);
    }
  }

  /** A request is rejected exactly when its client has used up the limit in the minute that ends
      with it. */
  lemma RejectedIffUsedUp(arrivals: seq<Arrival>, i: nat, limit: nat)
    requires Monotone(arrivals) && i < |arrivals|
    ensures var a := arrivals[i];
      VerdictOf(arrivals, i, limit).Rejected?
      <==> |Within(History(arrivals[..i], a.key, limit), a.now - 60.0, a.now)| == limit
  {
    var a := arrivals[i];
    WindowIsHistory(arrivals[..i], a.key, limit);
    if i > 0 {
      assert arrivals[..i][i - 1] == arrivals[i - 1];
    }
    RecentIsHistory(arrivals[..i], a.now, a.key, limit);
    LimitHolds(arrivals[..i], a.key, limit, a.now - PERIOD);
  }

  /** No closed interval of 60 seconds holds more accepted requests of a client than the limit. */
  lemma {:induction false} LimitHolds(arrivals: seq<Arrival>, key: string, limit: nat, from: real)
    requires Monotone(arrivals)
    ensures |Within(History(arrivals, key, limit), from, from + 60.0)| <= limit
    decreases |arrivals|
  {
    if arrivals != [] {
      var n := |arrivals| - 1;
      LimitHolds(arrivals[..n], key, limit, from);
      if arrivals[n].key == key && VerdictOf(arrivals, n, limit).Accepted? && from <= arrivals[n].now <= from + PERIOD {
        LimitHoldsAtLast(arrivals, limit, from);
      } else {
        hide After, Check;
        WithinAppend(History(arrivals[..n], key, limit), arrivals[n].now, from, from + PERIOD);
      }
    }
  }

  /** The interval ends after the last request, which was let through: all it holds besides is in
      the minute before that request. */
  lemma LimitHoldsAtLast(arrivals: seq<Arrival>, limit: nat, from: real)
    requires Monotone(arrivals) && arrivals != []
    requires VerdictOf(arrivals, |arrivals| - 1, limit).Accepted?
    requires from <= arrivals[|arrivals| - 1].now <= from + PERIOD
    ensures |Within(History(arrivals, arrivals[|arrivals| - 1].key, limit), from, from + PERIOD)| <= limit
  {
    var n := |arrivals| - 1;
    var earlier, last := arrivals[..n], arrivals[n];
    var history := History(earlier, last.key, limit);
    assert History(arrivals, last.key, limit) == history + [last.now];
    hide After, History, Within, VerdictOf, Check;
    AcceptedHadRoom(arrivals, limit);
    HistoryOrdered(earlier, last.key, limit);
    WithinNarrower(history, from, from + PERIOD, last.now - PERIOD, last.now);
    WithinAppend(history, last.now, from, from + PERIOD);
  }

  /** A request let through found fewer than the limit in the minute before it. */
  lemma AcceptedHadRoom(arrivals: seq<Arrival>, limit: nat)
    requires Monotone(arrivals) && arrivals != []
    requires VerdictOf(arrivals, |arrivals| - 1, limit).Accepted?
    ensures var n := |arrivals| - 1; var last := arrivals[n];
      |Within(History(arrivals[..n], last.key, limit), last.now - PERIOD, last.now)| < limit
  {
    hide After, History, Within, Expire, Window;
    var n := |arrivals| - 1;
    var earlier, last := arrivals[..n], arrivals[n];
    WindowIsHistory(earlier, last.key, limit);
    if n > 0 {
      assert earlier[n - 1] == arrivals[n - 1];
    }
    RecentIsHistory(earlier, last.now, last.key, limit);
  }
}
