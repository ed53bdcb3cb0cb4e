/** What one `_process` run guarantees, for every world: caps that may change between rounds,
    cancellations at every await, and any predictor answers. */
module BatchingProperties {
  import opened Batching

  /* ---------- budget and maximality of one batch ---------- */

  /** A batch of `n` pairs and `t` tokens respects the caps, a single oversized pair excepted. */
  ghost predicate Fits(n: nat, t: nat, caps: Caps) {
    && n <= caps.pairs
    && (n == 0 ==> t == 0)
    && (t <= caps.tokens || n == 1)
  }

  /** No further pair may join a batch of `n` pairs and `t` tokens in front of `next`. */
  ghost predicate Shut(n: nat, t: nat, next: Pair, caps: Caps) {
    n >= caps.pairs || (n > 0 && t + PairTokens(next) > caps.tokens)
  }

  ghost predicate WithinBudget(batch: seq<Pair>, caps: Caps) {
    && 1 <= |batch| <= caps.pairs
    && (Tokens(batch) <= caps.tokens || |batch| == 1)
  }

  lemma TokensOfOne(p: Pair)
    ensures Tokens([p]) == PairTokens(p)
  {
    assert Sum(PairTokens, []) == 0;
    assert [p][1..] == [];
  }

  lemma TokensOfHead(ps: seq<Pair>)
    requires ps != []
    ensures Tokens(ps) >= PairTokens(ps[0])
  {
  }

  lemma {:induction false} TakeCountFits(rest: seq<Pair>, n: nat, t: nat, caps: Caps)
    requires Fits(n, t, caps)
    ensures var c := TakeCount(rest, n, t, caps);
      && Fits(n + c, t + Tokens(rest[..c]), caps)
      && (c < |rest| ==> Shut(n + c, t + Tokens(rest[..c]), rest[c], caps))
      && (n == 0 && rest != [] ==> c > 0)
  {
    var c := TakeCount(rest, n, t, caps);
    if c > 0 {
      assert rest[..c] == [rest[0]] + rest[1..][..c - 1];
      if t + PairTokens(rest[0]) < caps.tokens {
        TakeCountFits(rest[1..], n + 1, t + PairTokens(rest[0]), caps);
      } else {
        assert rest[..c] == [rest[0]];
        TokensOfOne(rest[0]);
      }
    }
  }

  /** One step of packing: the first job's slice, then the batch of the others. */
  lemma PackingStep(jobs: seq<Job>, active: seq<nat>, n: nat, t: nat, caps: Caps)
    requires AllWellFormed(jobs) && ValidIds(jobs, active) && active != []
    ensures var rest := jobs[active[0]].Rest();
      var c := TakeCount(rest, n, t, caps);
      var counts := Counts(jobs, active, n, t, caps);
      var tail := Counts(jobs, active[1..], n + c, t + Tokens(rest[..c]), caps);
      && counts[0] == c && counts[1..] == tail
      && |Batch(jobs, active, counts)| == c + |Batch(jobs, active[1..], tail)|
      && Tokens(Batch(jobs, active, counts)) == Tokens(rest[..c]) + Tokens(Batch(jobs, active[1..], tail))
  {
    hide TakeCount, PairTokens, Sum;
    var rest := jobs[active[0]].Rest();
    var c := TakeCount(rest, n, t, caps);
    var tail := Counts(jobs, active[1..], n + c, t + Tokens(rest[..c]), caps);
    var counts := Counts(jobs, active, n, t, caps);
    assert counts == [c] + tail;
    assert counts[1..] == tail;
    hide Counts;
    assert Batch(jobs, active, counts) == rest[..c] + Batch(jobs, active[1..], tail);
    hide Batch;
    SumAppend(PairTokens, rest[..c], Batch(jobs, active[1..], tail));
  }

  /** The finished batch fits the caps. */
  lemma {:induction false} PackingFits(jobs: seq<Job>, active: seq<nat>, n: nat, t: nat, caps: Caps)
    requires AllWellFormed(jobs) && ValidIds(jobs, active)
    requires Fits(n, t, caps)
    ensures var batch := Batch(jobs, active, Counts(jobs, active, n, t, caps));
      Fits(n + |batch|, t + Tokens(batch), caps)
  {
    hide TakeCount, PairTokens, Fits, Shut;
    if active != [] {
      hide Counts, Batch, Sum;
      var rest := jobs[active[0]].Rest();
      var c := TakeCount(rest, n, t, caps);
      PackingStep(jobs, active, n, t, caps);
      TakeCountFits(rest, n, t, caps);
      PackingFits(jobs, active[1..], n + c, t + Tokens(rest[..c]), caps);
    }
  }

  lemma StillShut(n: nat, t: nat, more: nat, moreTokens: nat, next: Pair, caps: Caps)
    requires Shut(n, t, next, caps)
    ensures Shut(n + more, t + moreTokens, next, caps)
  {
  }

  /** A job not sent in full was stopped by a pair-full batch or by a next pair that does not fit
      into the batch, even as it finally is. */
  lemma {:induction false} PackingIsMaximal(jobs: seq<Job>, active: seq<nat>, n: nat, t: nat, caps: Caps, k: nat)
    requires AllWellFormed(jobs) && ValidIds(jobs, active)
    requires Fits(n, t, caps)
    requires k < |active|
    ensures var counts := Counts(jobs, active, n, t, caps);
      var batch := Batch(jobs, active, counts);
      var rest := jobs[active[k]].Rest();
      counts[k] < |rest| ==> Shut(n + |batch|, t + Tokens(batch), rest[counts[k]], caps)
  {
    hide TakeCount, PairTokens, Batch, Sum, Shut, Fits, Counts;
    var rest := jobs[active[0]].Rest();
    var c := TakeCount(rest, n, t, caps);
    var used := t + Tokens(rest[..c]);
    var tail := Counts(jobs, active[1..], n + c, used, caps);
    PackingStep(jobs, active, n, t, caps);
    TakeCountFits(rest, n, t, caps);
    if k > 0 {
      assert active[1..][k - 1] == active[k] && tail[k - 1] == Counts(jobs, active, n, t, caps)[k];
      PackingIsMaximal(jobs, active[1..], n + c, used, caps, k - 1);
    } else if c < |rest| {
      var batch := Batch(jobs, active[1..], tail);
      StillShut(n + c, used, |batch|, Tokens(batch), rest[c], caps);
    }
  }

  lemma LaterJobs(jobs: seq<Job>, active: seq<nat>, k: nat)
    requires AllWellFormed(jobs) && ValidIds(jobs, active) && 0 < k < |active|
    requires forall i :: 0 <= i < k ==> jobs[active[i]].Rest() == []
    ensures active[1..][k - 1] == active[k]
    ensures forall i :: 0 <= i < k - 1 ==> jobs[active[1..][i]].Rest() == []
  {
    assert forall i :: 0 <= i < k - 1 ==> active[1..][i] == active[i + 1];
  }

  /** The batch starts with the next pair of the first job that has one. */
  lemma {:induction false} PackingStartsWithFirst(jobs: seq<Job>, active: seq<nat>, k: nat, caps: Caps)
    requires AllWellFormed(jobs) && ValidIds(jobs, active)
    requires k < |active| && jobs[active[k]].Rest() != []
    requires forall i :: 0 <= i < k ==> jobs[active[i]].Rest() == []
    ensures var counts := Counts(jobs, active, 0, 0, caps);
      var batch := Batch(jobs, active, counts);
      counts[k] > 0 && batch != [] && batch[0] == jobs[active[k]].Rest()[0]
  {
    var rest := jobs[active[0]].Rest();
    var c := TakeCount(rest, 0, 0, caps);
    TakeCountFits(rest, 0, 0, caps);
    PackingStep(jobs, active, 0, 0, caps);
    assert Tokens([]) == 0;
    var counts := Counts(jobs, active, 0, 0, caps);
    var tail := Counts(jobs, active[1..], c, Tokens(rest[..c]), caps);
    assert Batch(jobs, active, counts) == rest[..c] + Batch(jobs, active[1..], tail);
    hide TakeCount, PairTokens, Sum, Fits, Shut, Counts, Batch, Tokens;
    if k > 0 {
      assert rest == [] && rest[..c] == [];
      LaterJobs(jobs, active, k);
      PackingStartsWithFirst(jobs, active[1..], k - 1, caps);
      assert counts[k] == tail[k - 1];
    }
  }

  lemma {:induction false} NothingLeftNothingSent(jobs: seq<Job>, active: seq<nat>, counts: seq<nat>)
    requires ValidCounts(jobs, active, counts)
    requires forall i :: 0 <= i < |active| ==> jobs[active[i]].Rest() == []
    ensures Batch(jobs, active, counts) == []
  {
    if active != [] {
      NothingLeftNothingSent(jobs, active[1..], counts[1..]);
    }
  }

  /** The first job with something left, if any. */
  function FirstUnsent(jobs: seq<Job>, active: seq<nat>): (k: nat)
    requires AllWellFormed(jobs) && ValidIds(jobs, active)
    ensures k <= |active|
    ensures forall i :: 0 <= i < k ==> jobs[active[i]].Rest() == []
    ensures k < |active| ==> jobs[active[k]].Rest() != []
  {
    if active == [] || jobs[active[0]].Rest() != [] then 0 else 1 + FirstUnsent(jobs, active[1..])
  }

  /** A non-empty batch starts with the next pair of some job of the round. */
  lemma BatchHead(jobs: seq<Job>, ids: seq<nat>, w: World, r: nat) returns (id: nat)
    requires AllWellFormed(jobs) && ValidIds(jobs, ids)
    requires RoundBatch(jobs, ids, w, r) != []
    ensures id in ids && jobs[id].Live() && jobs[id].Rest() != []
    ensures RoundBatch(jobs, ids, w, r)[0] == jobs[id].Rest()[0]
  {
    var active := Active(jobs, ids);
    var k := FirstUnsent(jobs, active);
    if k == |active| {
      NothingLeftNothingSent(jobs, active, RoundCounts(jobs, ids, w, r));
    } else {
      PackingStartsWithFirst(jobs, active, k, w.caps(r));
      id := active[k];
      assert id in active;
    }
  }

  /** One scored round of a run, without the rest of `Process`. */
  lemma ProcessStep(jobs: seq<Job>, ids: seq<nat>, w: World, r: nat)
    requires AllWellFormed(jobs) && ValidIds(jobs, ids)
    ensures var t := Process(jobs, ids, w, r);
      var batch := RoundBatch(jobs, ids, w, r);
      if Active(jobs, ids) != [] && RoundScored(jobs, ids, w, r) then
        var rest := Process(RoundJobs(jobs, ids, w, r), Active(jobs, ids), w, r + 1);
        t == Trace(rest.jobs, [batch] + rest.calls, rest.exit)
      else if Active(jobs, ids) == [] || batch == [] then
        t == Trace(jobs, [], if Active(jobs, ids) == [] then Finished else NothingToSend)
      else
        var reply := RoundReply(jobs, ids, w, r);
        var waited := CancelSome(jobs, reply.cancelled);
        t == if reply.answer.WorkerCancelled? then Trace(waited, [batch], Interrupted)
             else Trace(FailAll(waited, Active(jobs, ids)), [batch], PredictorFailed)
  {
  }

  lemma RoundWithinBudget(jobs: seq<Job>, ids: seq<nat>, w: World, r: nat)
    requires AllWellFormed(jobs) && ValidIds(jobs, ids)
    ensures var batch := RoundBatch(jobs, ids, w, r);
      batch != [] ==> WithinBudget(batch, w.caps(r))
  {
    PackingFits(jobs, Active(jobs, ids), 0, 0, w.caps(r));
  }

  /** A job of the round left with pairs to send was stopped by a pair-full batch or by a pair
      that does not fit. */
  lemma RoundIsMaximal(jobs: seq<Job>, ids: seq<nat>, w: World, r: nat, k: nat)
    requires AllWellFormed(jobs) && ValidIds(jobs, ids)
    requires k < |Active(jobs, ids)|
    ensures var batch, count := RoundBatch(jobs, ids, w, r), RoundCounts(jobs, ids, w, r)[k];
      var job := jobs[Active(jobs, ids)[k]];
      job.cursor + count < |job.pairs| ==>
        Shut(|batch|, Tokens(batch), job.pairs[job.cursor + count], w.caps(r))
  {
    hide TakeCount, Counts, Batch, Sum, PairTokens, Active;
    PackingIsMaximal(jobs, Active(jobs, ids), 0, 0, w.caps(r), k);
  }

  /** A run of calls starting in round `r` respects the caps round by round. */
  ghost predicate CallsFit(calls: seq<seq<Pair>>, w: World, r: nat) {
    forall i :: 0 <= i < |calls| ==> WithinBudget(calls[i], w.caps(r + i))
  }

  lemma OneMoreCall(batch: seq<Pair>, calls: seq<seq<Pair>>, w: World, r: nat)
    requires WithinBudget(batch, w.caps(r)) && CallsFit(calls, w, r + 1)
    ensures CallsFit([batch] + calls, w, r)
  {
    hide WithinBudget;
    var all := [batch] + calls;
    forall i | 0 <= i < |all| ensures WithinBudget(all[i], w.caps(r + i)) {
      if i > 0 {
        assert all[i] == calls[i - 1];
        assert r + i == (r + 1) + (i - 1);
      }
    }
  }

  /** Every predictor call respects the caps in force in its round. */
  lemma {:induction false} CallsWithinBudget(jobs: seq<Job>, ids: seq<nat>, w: World, r: nat)
    requires AllWellFormed(jobs) && ValidIds(jobs, ids)
    ensures CallsFit(Process(jobs, ids, w, r).calls, w, r)
    decreases Backlog(Unit, jobs, ids)
  {
    hide Process, RoundBatch, RoundCounts, PairTokens, Sum, CallsFit, WithinBudget;
    ProcessStep(jobs, ids, w, r);
    RoundWithinBudget(jobs, ids, w, r);
    NoCallsFit(w, r);
    var batch := RoundBatch(jobs, ids, w, r);
    if Active(jobs, ids) != [] && RoundScored(jobs, ids, w, r) {
      var next := RoundJobs(jobs, ids, w, r);
      CallsWithinBudget(next, Active(jobs, ids), w, r + 1);
      OneMoreCall(batch, Process(next, Active(jobs, ids), w, r + 1).calls, w, r);
    } else if batch != [] {
      NoCallsFit(w, r + 1);
      OneMoreCall(batch, [], w, r);
      assert [batch] + [] == [batch];
    }
  }

  lemma NoCallsFit(w: World, r: nat)
    ensures CallsFit([], w, r)
  {
  }

  /* ---------- the call-count bound ---------- */

  /** Of two consecutive calls, the first is pair-full or the two together exceed the token cap:
      a job cannot leave a batch with room unless its next pair, which opens the next batch,
      did not fit. Cancellations in between only remove jobs. */
  lemma ConsecutiveRounds(jobs: seq<Job>, ids: seq<nat>, w: World, r: nat)
    requires AllWellFormed(jobs) && ValidIds(jobs, ids)
    requires RoundScored(jobs, ids, w, r)
    ensures var batch := RoundBatch(jobs, ids, w, r);
      var next := RoundBatch(RoundJobs(jobs, ids, w, r), Active(jobs, ids), w, r + 1);
      next != [] ==> |batch| >= w.caps(r).pairs || Tokens(batch) + Tokens(next) > w.caps(r).tokens
  {
    hide PairTokens, Sum, Tokens, Shut, RoundCounts, RoundBatch, RoundJobs, RoundScored, Active, Advanced, ValidCounts;
    var active, counts := Active(jobs, ids), RoundCounts(jobs, ids, w, r);
    var after := RoundJobs(jobs, ids, w, r);
    var next := RoundBatch(after, active, w, r + 1);
    if next != [] {
      var id := BatchHead(after, active, w, r + 1);
      var k := PlaceOf(active, id);
      RoundCountsValid(jobs, ids, w, r);
      NextPair(jobs, active, counts, after, k);
      RoundIsMaximal(jobs, ids, w, r, k);
      TokensOfHead(next);
      StopsHere(|RoundBatch(jobs, ids, w, r)|, Tokens(RoundBatch(jobs, ids, w, r)), next, w.caps(r));
    }
  }

  lemma RoundCountsValid(jobs: seq<Job>, ids: seq<nat>, w: World, r: nat)
    requires AllWellFormed(jobs) && ValidIds(jobs, ids)
    ensures ValidCounts(jobs, Active(jobs, ids), RoundCounts(jobs, ids, w, r))
  {
  }

  lemma PlaceOf(ids: seq<nat>, id: nat) returns (k: nat)
    requires id in ids
    ensures k < |ids| && ids[k] == id
  {
    k :| 0 <= k < |ids| && ids[k] == id;
  }

  /** The pair a job has next after a round is the one its slice stopped at. */
  lemma NextPair(jobs: seq<Job>, active: seq<nat>, counts: seq<nat>, after: seq<Job>, k: nat)
    requires ValidCounts(jobs, active, counts) && Advanced(jobs, active, counts, after) && k < |active|
    requires after[active[k]].Rest() != []
    ensures var job := jobs[active[k]];
      && job.cursor + counts[k] < |job.pairs|
      && after[active[k]].Rest()[0] == job.pairs[job.cursor + counts[k]]
  {
  }

  lemma StopsHere(n: nat, t: nat, next: seq<Pair>, caps: Caps)
    requires next != [] && Tokens(next) >= PairTokens(next[0]) && Shut(n, t, next[0], caps)
    ensures n >= caps.pairs || t + Tokens(next) > caps.tokens
  {
    hide PairTokens, Sum, Tokens;
  }

  lemma {:induction false} ConsecutiveCalls(jobs: seq<Job>, ids: seq<nat>, w: World, r: nat)
    requires AllWellFormed(jobs) && ValidIds(jobs, ids)
    ensures var calls := Process(jobs, ids, w, r).calls;
      forall i :: 0 <= i < |calls| - 1 ==>
        |calls[i]| >= w.caps(r + i).pairs || Tokens(calls[i]) + Tokens(calls[i + 1]) > w.caps(r + i).tokens
    decreases Backlog(Unit, jobs, ids)
  {
    hide Process, RoundCounts, RoundBatch, PairTokens, Sum, Active, Backlog, RoundJobs;
    var active := Active(jobs, ids);
    ProcessStep(jobs, ids, w, r);
    if active != [] && RoundScored(jobs, ids, w, r) {
      var next := RoundJobs(jobs, ids, w, r);
      ConsecutiveCalls(next, active, w, r + 1);
      ProcessStep(next, active, w, r + 1);
      ConsecutiveRounds(jobs, ids, w, r);
      var calls, rest := Process(jobs, ids, w, r).calls, Process(next, active, w, r + 1).calls;
      assert rest != [] ==> rest[0] == RoundBatch(next, active, w, r + 1);
      forall i | 0 <= i < |calls| - 1
        ensures |calls[i]| >= w.caps(r + i).pairs || Tokens(calls[i]) + Tokens(calls[i + 1]) > w.caps(r + i).tokens
      {
        if i > 0 {
          assert calls[i] == rest[i - 1] && calls[i + 1] == rest[i];
          assert r + i == (r + 1) + (i - 1);
        } else {
          assert calls[1] == rest[0] && r + i == r;
        }
      }
    }
  }

  function SumCalls(m: Pair -> nat, calls: seq<seq<Pair>>): nat {
    if calls == [] then 0 else Sum(m, calls[0]) + SumCalls(m, calls[1..])
  }

  /** How many of the calls but the last are pair-full; the others are open. */
  function FullCalls(calls: seq<seq<Pair>>, caps: Caps): (n: nat)
    ensures calls != [] ==> n < |calls|
  {
    if |calls| <= 1 then 0
    else (if |calls[0]| >= caps.pairs then 1 else 0) + FullCalls(calls[1..], caps)
  }

  lemma {:induction false} FullCallsBound(calls: seq<seq<Pair>>, caps: Caps)
    ensures FullCalls(calls, caps) * caps.pairs <= SumCalls(Unit, calls)
  {
    if |calls| > 1 {
      FullCallsBound(calls[1..], caps);
      SumUnit(calls[0]);
      assert |calls[0]| >= caps.pairs ==>
        (1 + FullCalls(calls[1..], caps)) * caps.pairs == caps.pairs + FullCalls(calls[1..], caps) * caps.pairs;
    }
  }

  lemma {:induction false} OpenCallsBound(calls: seq<seq<Pair>>, caps: Caps)
    requires calls != []
    requires forall i :: 0 <= i < |calls| - 1 ==>
      |calls[i]| >= caps.pairs || Tokens(calls[i]) + Tokens(calls[i + 1]) > caps.tokens
    ensures (|calls| - 1 - FullCalls(calls, caps)) * (caps.tokens + 1) + Tokens(calls[0])
            <= 2 * SumCalls(PairTokens, calls)
  {
    hide Sum, PairTokens;
    if |calls| == 1 {
      assert SumCalls(PairTokens, calls) == Tokens(calls[0]) + SumCalls(PairTokens, []);
    } else {
      var rest := calls[1..];
      OpenCallsBound(rest, caps);
      var open := |rest| - 1 - FullCalls(rest, caps);
      assert (1 + open) * (caps.tokens + 1) == caps.tokens + 1 + open * (caps.tokens + 1);
    }
  }

  /** No pair is sent twice: what a run sends, by any measure, is at most its backlog. */
  lemma {:induction false} SentAtMostOnce(m: Pair -> nat, jobs: seq<Job>, ids: seq<nat>, w: World, r: nat)
    requires AllWellFormed(jobs) && ValidIds(jobs, ids)
    ensures SumCalls(m, Process(jobs, ids, w, r).calls) <= Backlog(m, jobs, ids)
    decreases Backlog(Unit, jobs, ids)
  {
    hide Process, Batch, Sum;
    var active, counts := Active(jobs, ids), RoundCounts(jobs, ids, w, r);
    var batch := RoundBatch(jobs, ids, w, r);
    ProcessStep(jobs, ids, w, r);
    if active != [] && RoundScored(jobs, ids, w, r) {
      var next := RoundJobs(jobs, ids, w, r);
      SentAtMostOnce(m, next, active, w, r + 1);
      RoundSpends(m, jobs, ids, counts, next);
      var t, rest := Process(jobs, ids, w, r), Process(next, active, w, r + 1);
      assert t.calls[1..] == rest.calls;
    } else if active != [] && batch != [] {
      FailedBatch(m, jobs, ids, counts);
      assert SumCalls(m, [batch]) == Sum(m, batch) + SumCalls(m, []);
    }
  }

  lemma FailedBatch(m: Pair -> nat, jobs: seq<Job>, ids: seq<nat>, counts: seq<nat>)
    requires AllWellFormed(jobs) && ValidIds(jobs, ids)
    requires ValidCounts(jobs, Active(jobs, ids), counts)
    ensures Sum(m, Batch(jobs, Active(jobs, ids), counts)) <= Backlog(m, jobs, ids)
  {
    var values := seq(Total(counts), i => 0.0);
    RoundAdvances(jobs, Active(jobs, ids), counts, {}, values);
    RoundSpends(m, jobs, ids, counts, Scatter(CancelSome(jobs, {}), Active(jobs, ids), counts, values));
  }

  /** Under fixed caps of P pairs and M tokens, a run whose calls send N pairs of T tokens in all makes
      at most 1 + N/P + 2T/(M+1) calls, cancellations or not; N and T are bounded by the
      jobs' own totals. */
  lemma CallCountBound(jobs: seq<Job>, ids: seq<nat>, w: World, caps: Caps)
    requires AllWellFormed(jobs) && ValidIds(jobs, ids)
    requires forall r: nat :: w.caps(r) == caps
    ensures var calls := Process(jobs, ids, w, 0).calls;
      var sent, tokens := SumCalls(Unit, calls), SumCalls(PairTokens, calls);
      && |calls| as real <= 1.0 + sent as real / caps.pairs as real + (2 * tokens) as real / (caps.tokens + 1) as real
      && sent <= Backlog(Unit, jobs, ids)
      && tokens <= Backlog(PairTokens, jobs, ids)
  {
    hide Process, Sum, SumCalls, Backlog, PairTokens;
    var calls := Process(jobs, ids, w, 0).calls;
    var n, t := SumCalls(Unit, calls), SumCalls(PairTokens, calls);
    SentAtMostOnce(Unit, jobs, ids, w, 0);
    SentAtMostOnce(PairTokens, jobs, ids, w, 0);
    if calls != [] {
      ConsecutiveCalls(jobs, ids, w, 0);
      FullCallsBound(calls, caps);
      OpenCallsBound(calls, caps);
      var full := FullCalls(calls, caps);
      var open := |calls| - 1 - full;
      QuotientBound(full, caps.pairs, n);
      QuotientBound(open, caps.tokens + 1, 2 * t);
    }
  }

  lemma QuotientBound(k: nat, d: nat, n: nat)
    requires d >= 1 && k * d <= n
    ensures k as real <= n as real / d as real
  {
    assert (k * d) as real == k as real * d as real;
    assert (n as real / d as real) * d as real == n as real;
  }
}
