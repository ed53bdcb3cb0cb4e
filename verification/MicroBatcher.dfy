/** `_process` as the program runs it: nested loops that fill one batch, an await, and updates of
    the job objects in place. Proved equal to `Batching.Process`, whose properties then hold of it. */
module MicroBatcher {
  import opened Batching

  class BatchJob {
    const pairs: seq<Pair>
    var future: Future
    var cursor: nat
    var scores: seq<Score>

    constructor (pairs: seq<Pair>)
      ensures Snapshot() == Job(pairs, 0, [], Pending)
    {
      this.pairs := pairs;
      future, cursor, scores := Pending, 0, [];
    }

    function Snapshot(): Job
      reads this
    {
      Job(pairs, cursor, scores, future)
    }

    /** `future.set_result`: an error on a future that is already done. */
    method SetResult(value: seq<Score>)
      requires future.Pending?
      modifies this`future
      ensures future == Resolved(value)
    {
      future := Resolved(value);
    }

    /** `future.set_exception`: an error on a future that is already done. */
    method SetException()
      requires future.Pending?
      modifies this`future
      ensures future == Failed
    {
      future := Failed;
    }

    /** `future.cancel`: no effect on a future that is already done. */
    method CancelFuture()
      modifies this`future
      ensures Snapshot() == Cancel(old(Snapshot()))
    {
      if future.Pending? {
        future := Cancelled;
      }
    }
  }

  predicate Distinct(jobs: seq<BatchJob>) {
    forall i, k :: 0 <= i < k < |jobs| ==> jobs[i] != jobs[k]
  }

  function Snapshots(jobs: seq<BatchJob>): (r: seq<Job>)
    reads jobs
    ensures |r| == |jobs|
    ensures forall i :: 0 <= i < |jobs| ==> r[i] == jobs[i].Snapshot()
  {
    seq(|jobs|, i requires 0 <= i < |jobs| reads jobs => jobs[i].Snapshot())
  }

  function Upto(n: nat): (ids: seq<nat>)
    ensures |ids| == n && forall i :: 0 <= i < n ==> ids[i] == i
  {
    seq(n, i => i)
  }

  /* ---------- the list of (job, count) slices ---------- */

  /** The pairs the source records in `slices`: jobs that contribute nothing are left out. */
  function Slices(active: seq<nat>, counts: seq<nat>): (r: seq<(nat, nat)>)
    requires |active| == |counts|
  {
    if active == [] then [] else
    (if counts[0] > 0 then [(active[0], counts[0])] else []) + Slices(active[1..], counts[1..])
  }

  function SliceTotal(slices: seq<(nat, nat)>): nat {
    if slices == [] then 0 else slices[0].1 + SliceTotal(slices[1..])
  }

  ghost predicate ValidSlices(jobs: seq<Job>, slices: seq<(nat, nat)>) {
    forall k :: 0 <= k < |slices| ==> slices[k].0 < |jobs|
  }

  function ScatterSlices(jobs: seq<Job>, slices: seq<(nat, nat)>, scores: seq<Score>): (r: seq<Job>)
    requires ValidSlices(jobs, slices) && |scores| == SliceTotal(slices)
    ensures |r| == |jobs|
    decreases |slices|
  {
    if slices == [] then jobs else
    var (id, count) := slices[0];
    ScatterSlices(jobs[id := Advance(jobs[id], scores[..count])], slices[1..], scores[count..])
  }

  lemma SlicesStep(active: seq<nat>, counts: seq<nat>)
    requires |active| == |counts| && active != []
    ensures var slices, tail := Slices(active, counts), Slices(active[1..], counts[1..]);
      if counts[0] == 0 then slices == tail
      else slices != [] && slices[0] == (active[0], counts[0]) && slices[1..] == tail
           && SliceTotal(slices) == counts[0] + SliceTotal(tail)
  {
    var slices, tail := Slices(active, counts), Slices(active[1..], counts[1..]);
    if counts[0] > 0 {
      assert slices == [(active[0], counts[0])] + tail;
      assert slices[1..] == tail;
    }
  }

  lemma {:induction false} SlicesValid(jobs: seq<Job>, active: seq<nat>, counts: seq<nat>)
    requires |active| == |counts|
    requires forall k :: 0 <= k < |active| ==> active[k] < |jobs|
    ensures ValidSlices(jobs, Slices(active, counts)) && SliceTotal(Slices(active, counts)) == Total(counts)
    ensures forall k :: 0 <= k < |Slices(active, counts)| ==> Slices(active, counts)[k].1 > 0
  {
    if active != [] {
      SlicesStep(active, counts);
      SlicesValid(jobs, active[1..], counts[1..]);
      var slices := Slices(active, counts);
      assert counts[0] > 0 ==> forall k :: 1 <= k < |slices| ==> slices[k] == slices[1..][k - 1];
    }
  }

  lemma ScatterStep(jobs: seq<Job>, active: seq<nat>, counts: seq<nat>, scores: seq<Score>)
    requires ValidCounts(jobs, active, counts) && |scores| == Total(counts) && active != []
    ensures var moved := jobs[active[0] := Advance(jobs[active[0]], scores[..counts[0]])];
      && ValidCounts(moved, active[1..], counts[1..])
      && |scores[counts[0]..]| == Total(counts[1..])
      && Scatter(jobs, active, counts, scores) == Scatter(moved, active[1..], counts[1..], scores[counts[0]..])
      && (counts[0] == 0 ==> moved == jobs && scores[counts[0]..] == scores)
  {
    hide Advance;
    MovedStaysValid(jobs, active, counts, scores[..counts[0]]);
    if counts[0] == 0 {
      assert scores[..0] == [];
      AdvanceByNothing(jobs[active[0]]);
    }
  }

  lemma AdvanceByNothing(job: Job)
    ensures Advance(job, []) == job
  {
  }

  /** Jobs that contribute nothing make no difference to the scatter. */
  lemma {:induction false} ScatterBySlices(jobs: seq<Job>, active: seq<nat>, counts: seq<nat>, scores: seq<Score>)
    requires ValidCounts(jobs, active, counts) && |scores| == Total(counts)
    requires ValidSlices(jobs, Slices(active, counts)) && SliceTotal(Slices(active, counts)) == Total(counts)
    ensures ScatterSlices(jobs, Slices(active, counts), scores) == Scatter(jobs, active, counts, scores)
    decreases |active|
  {
    hide Scatter, Advance, Slices, SliceTotal;
    if active == [] {
      ScatterNothing(jobs, scores);
    } else {
      var moved := jobs[active[0] := Advance(jobs[active[0]], scores[..counts[0]])];
      ScatterStep(jobs, active, counts, scores);
      SlicesStep(active, counts);
      SlicesValid(moved, active[1..], counts[1..]);
      ScatterBySlices(moved, active[1..], counts[1..], scores[counts[0]..]);
    }
  }

  lemma ScatterNothing(jobs: seq<Job>, scores: seq<Score>)
    requires AllWellFormed(jobs) && scores == []
    ensures Slices([], []) == [] && Scatter(jobs, [], [], scores) == jobs == ScatterSlices(jobs, [], scores)
  {
  }

  /** Processing the live jobs among `ids` is processing `ids`. */
  lemma ProcessActive(jobs: seq<Job>, ids: seq<nat>, w: World, r: nat)
    requires AllWellFormed(jobs) && ValidIds(jobs, ids)
    ensures Active(jobs, Active(jobs, ids)) == Active(jobs, ids)
    ensures Process(jobs, Active(jobs, ids), w, r) == Process(jobs, ids, w, r)
  {
    var active := Active(jobs, ids);
    ActiveOfLive(jobs, active);
    SameRound(jobs, active, ids, w, r);
    hide Active, RoundBatch, RoundReply, RoundScored, RoundJobs;
  }

  /** A round depends on the live jobs only. */
  lemma SameRound(jobs: seq<Job>, a: seq<nat>, b: seq<nat>, w: World, r: nat)
    requires AllWellFormed(jobs) && ValidIds(jobs, a) && ValidIds(jobs, b)
    requires Active(jobs, a) == Active(jobs, b)
    ensures RoundBatch(jobs, a, w, r) == RoundBatch(jobs, b, w, r)
    ensures RoundReply(jobs, a, w, r) == RoundReply(jobs, b, w, r)
    ensures RoundScored(jobs, a, w, r) <==> RoundScored(jobs, b, w, r)
    ensures RoundScored(jobs, a, w, r) ==> RoundJobs(jobs, a, w, r) == RoundJobs(jobs, b, w, r)
  {
    hide Active, Counts, Batch, Scatter, Backlog, Advanced;
  }

  lemma {:induction false} ActiveOfLive(jobs: seq<Job>, ids: seq<nat>)
    requires ValidIds(jobs, ids)
    requires forall id :: id in ids ==> jobs[id].Live()
    ensures Active(jobs, ids) == ids
    decreases |ids|
  {
    if ids != [] {
      FirstLive(jobs, ids);
      hide Active;
      ActiveOfLive(jobs, ids[1..]);
      assert [ids[0]] + ids[1..] == ids;
    }
  }

  lemma FirstLive(jobs: seq<Job>, ids: seq<nat>)
    requires ValidIds(jobs, ids) && ids != [] && jobs[ids[0]].Live()
    ensures ValidIds(jobs, ids[1..]) && Active(jobs, ids) == [ids[0]] + Active(jobs, ids[1..])
  {
  }

  /* ---------- the loop ---------- */

  /** The jobs of the list whose futures are not done, in order. */
  method StillActive(jobs: seq<BatchJob>, ids: seq<nat>) returns (active: seq<nat>)
    requires ValidIds(Snapshots(jobs), ids)
    ensures active == Active(Snapshots(jobs), ids)
  {
    active := [];
    var k := |ids|;
    while k > 0
      invariant 0 <= k <= |ids|
      invariant active == Active(Snapshots(jobs), ids[k..])
    {
      k := k - 1;
      assert ids[k..][1..] == ids[k + 1..];
      if jobs[ids[k]].future.Pending? {
        active := [ids[k]] + active;
      }
    }
    assert ids[0..] == ids;
  }

  /** The batch after the first `k` jobs: what is packed so far, completed by packing the rest
      of the jobs, is the whole batch. */
  ghost predicate Packed(s: seq<Job>, active: seq<nat>, k: nat, combined: seq<Pair>, slices: seq<(nat, nat)>, tokens: nat, caps: Caps)
    requires AllWellFormed(s) && ValidIds(s, active) && k <= |active|
  {
    var all, rest := Counts(s, active, 0, 0, caps), Counts(s, active[k..], |combined|, tokens, caps);
    && combined + Batch(s, active[k..], rest) == Batch(s, active, all)
    && slices + Slices(active[k..], rest) == Slices(active, all)
  }

  lemma PackedStart(s: seq<Job>, active: seq<nat>, caps: Caps)
    requires AllWellFormed(s) && ValidIds(s, active)
    ensures Packed(s, active, 0, [], [], 0, caps)
  {
    hide Batch, Slices, Counts;
    assert active[0..] == active;
  }

  lemma PackedNext(s: seq<Job>, active: seq<nat>, k: nat, combined: seq<Pair>, slices: seq<(nat, nat)>, tokens: nat, caps: Caps)
    requires AllWellFormed(s) && ValidIds(s, active) && k < |active|
    requires Packed(s, active, k, combined, slices, tokens, caps)
    ensures var rest := s[active[k]].Rest();
      var c := TakeCount(rest, |combined|, tokens, caps);
      Packed(s, active, k + 1, combined + rest[..c],
             slices + if c > 0 then [(active[k], c)] else [], tokens + Tokens(rest[..c]), caps)
  {
    hide Batch, Slices, Counts, TakeCount, Tokens;
    assert active[k..][1..] == active[k + 1..] && active[k..][0] == active[k];
    NextJob(s, active[k..], |combined|, tokens, caps);
  }

  /** All jobs packed, or the batch pair-full: nothing more to add. */
  lemma PackedEnd(s: seq<Job>, active: seq<nat>, k: nat, combined: seq<Pair>, slices: seq<(nat, nat)>, tokens: nat, caps: Caps)
    requires AllWellFormed(s) && ValidIds(s, active) && k <= |active|
    requires Packed(s, active, k, combined, slices, tokens, caps)
    requires k == |active| || |combined| >= caps.pairs
    ensures combined == Batch(s, active, Counts(s, active, 0, 0, caps))
    ensures slices == Slices(active, Counts(s, active, 0, 0, caps))
  {
    NothingMore(s, active[k..], |combined|, tokens, caps);
  }

  lemma {:induction false} NothingMore(s: seq<Job>, active: seq<nat>, n: nat, t: nat, caps: Caps)
    requires AllWellFormed(s) && ValidIds(s, active)
    requires active == [] || n >= caps.pairs
    ensures Batch(s, active, Counts(s, active, n, t, caps)) == []
    ensures Slices(active, Counts(s, active, n, t, caps)) == []
    decreases |active|
  {
    if active != [] {
      assert s[active[0]].Rest()[..0] == [];
      NothingMore(s, active[1..], n, t, caps);
      NextJob(s, active, n, t, caps);
    }
  }

  /** One step of packing, by the function. */
  lemma NextJob(s: seq<Job>, active: seq<nat>, n: nat, t: nat, caps: Caps)
    requires AllWellFormed(s) && ValidIds(s, active) && active != []
    ensures var rest := s[active[0]].Rest();
      var c := TakeCount(rest, n, t, caps);
      var tail := Counts(s, active[1..], n + c, t + Tokens(rest[..c]), caps);
      && Batch(s, active, Counts(s, active, n, t, caps)) == rest[..c] + Batch(s, active[1..], tail)
      && Slices(active, Counts(s, active, n, t, caps))
         == (if c > 0 then [(active[0], c)] else []) + Slices(active[1..], tail)
  {
    hide TakeCount, Sum, PairTokens, Tokens;
    var rest := s[active[0]].Rest();
    var c := TakeCount(rest, n, t, caps);
    var counts, tail := Counts(s, active, n, t, caps), Counts(s, active[1..], n + c, t + Tokens(rest[..c]), caps);
    assert counts[0] == c && counts[1..] == tail;
    hide Counts;
  }

  /** Fills one batch. There is no await here, so nothing else runs meanwhile. */
  method Pack(jobs: seq<BatchJob>, active: seq<nat>, caps: Caps)
    returns (combined: seq<Pair>, slices: seq<(nat, nat)>)
    requires AllWellFormed(Snapshots(jobs)) && ValidIds(Snapshots(jobs), active)
    ensures combined == Batch(Snapshots(jobs), active, Counts(Snapshots(jobs), active, 0, 0, caps))
    ensures slices == Slices(active, Counts(Snapshots(jobs), active, 0, 0, caps))
  {
    hide Packed, TakeCount, Counts, Batch, Slices;
    ghost var s := Snapshots(jobs);
    combined, slices := [], [];
    var combinedTokens := 0;
    var k := 0;
    PackedStart(s, active, caps);
    while k < |active|
      invariant 0 <= k <= |active|
      invariant Packed(s, active, k, combined, slices, combinedTokens, caps)
    {
      if |combined| >= caps.pairs {
        break;
      }
      PackedNext(s, active, k, combined, slices, combinedTokens, caps);
      var count;
      combined, combinedTokens, count := PackJob(jobs[active[k]], combined, combinedTokens, caps);
      if count > 0 {
        slices := slices + [(active[k], count)];
      } else {
        assert slices + [] == slices;
      }
      k := k + 1;
    }
    PackedEnd(s, active, k, combined, slices, combinedTokens, caps);
  }

  /** The inner loop: appends the job's next pairs until it runs out or a cap is hit. */
  method PackJob(job: BatchJob, before: seq<Pair>, tokens: nat, caps: Caps)
    returns (combined: seq<Pair>, combinedTokens: nat, count: nat)
    requires job.Snapshot().WellFormed()
    ensures count == TakeCount(job.Snapshot().Rest(), |before|, tokens, caps)
    ensures combined == before + job.Snapshot().Rest()[..count]
    ensures combinedTokens == tokens + Tokens(job.Snapshot().Rest()[..count])
  {
    hide PairTokens, Sum;
    ghost var rest := job.Snapshot().Rest();
    combined, combinedTokens, count := before, tokens, 0;
    TokensOfNone();
    while job.cursor + count < |job.pairs|
      invariant count <= |rest|
      invariant combined == before + rest[..count]
      invariant combinedTokens == tokens + Tokens(rest[..count])
      invariant count + TakeCount(rest[count..], |combined|, combinedTokens, caps) == TakeCount(rest, |before|, tokens, caps)
    {
      if |combined| >= caps.pairs {
        break;
      }
      assert rest[count..] != [];
      var pair := job.pairs[job.cursor + count];
      assert pair == rest[count..][0];
      var pairTokens := PairTokens(pair);
      if |combined| > 0 && combinedTokens + pairTokens > caps.tokens {
        break;
      }
      assert rest[..count + 1] == rest[..count] + [pair];
      assert rest[count..][1..] == rest[count + 1..];
      TokensSnoc(rest[..count], pair);
      combined := combined + [pair];
      combinedTokens := combinedTokens + pairTokens;
      count := count + 1;
      if combinedTokens >= caps.tokens {
        break;
      }
    }
  }

  lemma TokensOfNone()
    ensures Tokens([]) == 0
  {
  }

  lemma TokensSnoc(ps: seq<Pair>, p: Pair)
    ensures Tokens(ps + [p]) == Tokens(ps) + PairTokens(p)
  {
    SumAppend(PairTokens, ps, [p]);
    assert [p][1..] == [] && Sum(PairTokens, []) == 0;
  }

  /** What the clients do while a call is out. */
  method Await(jobs: seq<BatchJob>, cancelled: set<nat>)
    requires Distinct(jobs)
    modifies jobs
    ensures Snapshots(jobs) == CancelSome(old(Snapshots(jobs)), cancelled)
  {
    for i := 0 to |jobs|
      invariant forall k :: 0 <= k < |jobs| ==>
        (jobs[k].Snapshot() == if k < i && k in cancelled then Cancel(old(jobs[k].Snapshot())) else old(jobs[k].Snapshot()))
    {
      if i in cancelled {
        jobs[i].CancelFuture();
      }
    }
  }

  /** The error path: every job of the round that is not done fails with the predictor's error. */
  method FailActive(jobs: seq<BatchJob>, active: seq<nat>)
    requires Distinct(jobs) && ValidIds(Snapshots(jobs), active)
    modifies jobs
    ensures Snapshots(jobs) == FailAll(old(Snapshots(jobs)), active)
  {
    for i := 0 to |active|
      invariant forall k :: 0 <= k < |jobs| ==>
        (jobs[k].Snapshot() == if k in active[..i] then Fail(old(jobs[k].Snapshot())) else old(jobs[k].Snapshot()))
    {
      if jobs[active[i]].future.Pending? {
        jobs[active[i]].SetException();
      }
    }
    assert active[..|active|] == active;
  }

  /** One slice: the job takes its scores and resolves if they complete it. */
  method AdvanceJob(jobs: seq<BatchJob>, id: nat, chunk: seq<Score>)
    requires Distinct(jobs) && id < |jobs|
    requires chunk != []
    modifies jobs[id]
    ensures Snapshots(jobs) == old(Snapshots(jobs))[id := Advance(old(jobs[id].Snapshot()), chunk)]
  {
    var job := jobs[id];
    job.scores := job.scores + chunk;
    job.cursor := job.cursor + |chunk|;
    if job.cursor == |job.pairs| && job.future.Pending? {
      job.SetResult(job.scores);
    }
  }

  /** Hands the scores back slice by slice. */
  method ScatterScores(jobs: seq<BatchJob>, slices: seq<(nat, nat)>, scores: seq<Score>)
    requires Distinct(jobs) && ValidSlices(Snapshots(jobs), slices)
    requires |scores| == SliceTotal(slices)
    requires forall k :: 0 <= k < |slices| ==> slices[k].1 > 0
    modifies jobs
    ensures Snapshots(jobs) == ScatterSlices(old(Snapshots(jobs)), slices, scores)
  {
    hide Advance;
    var offset := 0;
    assert slices[0..] == slices && scores[0..] == scores;
    for i := 0 to |slices|
      invariant 0 <= offset && offset + SliceTotal(slices[i..]) == |scores|
      invariant ScatterSlices(Snapshots(jobs), slices[i..], scores[offset..]) == ScatterSlices(old(Snapshots(jobs)), slices, scores)
    {
      var (id, count) := slices[i];
      assert slices[i..][0] == slices[i] && slices[i..][1..] == slices[i + 1..];
      assert scores[offset..][..count] == scores[offset..offset + count];
      assert scores[offset..][count..] == scores[offset + count..];
      AdvanceJob(jobs, id, scores[offset..offset + count]);
      offset := offset + count;
    }
  }

  /** One round: pack, await the predictor, and scatter or fail. `over` says that the run ends here. */
  method Round(jobs: seq<BatchJob>, active: seq<nat>, w: World, r: nat)
    returns (combined: seq<Pair>, over: bool, exit: Exit)
    requires Distinct(jobs) && AllWellFormed(Snapshots(jobs)) && ValidIds(Snapshots(jobs), active)
    requires active == Active(Snapshots(jobs), active) && active != []
    modifies jobs
    ensures var s := old(Snapshots(jobs));
      if over then
        Process(s, active, w, r) == Trace(Snapshots(jobs), if combined == [] then [] else [combined], exit)
      else
        && RoundScored(s, active, w, r)
        && combined == RoundBatch(s, active, w, r)
        && Snapshots(jobs) == RoundJobs(s, active, w, r)
  {
    hide Process, Active, Counts, Batch, Slices, Scatter, ScatterSlices, RoundJobs, Backlog, Advance, Sum;
    ghost var s := Snapshots(jobs);
    RoundUnfolds(s, active, w, r);
    over, exit := true, NothingToSend;
    var slices;
    combined, slices := Pack(jobs, active, w.caps(r));
    if combined == [] {
      return;
    }
    var reply := w.predict(r, combined);
    Await(jobs, reply.cancelled);
    match reply.answer
    case WorkerCancelled =>
      exit := Interrupted;
    case Raised =>
      FailActive(jobs, active);
      exit := PredictorFailed;
    case Scores(values) =>
      if |values| != |combined| {
        FailActive(jobs, active);
        exit := PredictorFailed;
      } else {
        ScatterScores(jobs, slices, values);
        over := false;
      }
  }

  /** `_process`: from any jobs in any state, whatever the world does, the objects end up as
      `Batching.Process` says, after exactly the predictor calls it says. */
  method ProcessJobs(jobs: seq<BatchJob>, w: World) returns (calls: seq<seq<Pair>>, exit: Exit)
    requires Distinct(jobs) && AllWellFormed(Snapshots(jobs))
    modifies jobs
    ensures Trace(Snapshots(jobs), calls, exit) == Process(old(Snapshots(jobs)), Upto(|jobs|), w, 0)
  {
    hide Process, Active, RoundBatch, RoundCounts, RoundJobs, Backlog;
    ghost var goal := Process(Snapshots(jobs), Upto(|jobs|), w, 0);
    ProcessActive(Snapshots(jobs), Upto(|jobs|), w, 0);
    var active := StillActive(jobs, Upto(|jobs|));
    var r := 0;
    calls := [];
    while |active| > 0
      invariant AllWellFormed(Snapshots(jobs)) && ValidIds(Snapshots(jobs), active)
      invariant active == Active(Snapshots(jobs), active)
      invariant var rest := Process(Snapshots(jobs), active, w, r);
        goal == Trace(rest.jobs, calls + rest.calls, rest.exit)
      decreases Backlog(Unit, Snapshots(jobs), active)
    {
      ghost var s := Snapshots(jobs);
      var combined, over;
      combined, over, exit := Round(jobs, active, w, r);
      if over {
        calls := calls + if combined == [] then [] else [combined];
        return;
      }
      RoundContinues(s, active, w, r);
      calls := calls + [combined];
      active := StillActive(jobs, active);
      r := r + 1;
    }
    ProcessNobody(Snapshots(jobs), w, r);
    exit := Finished;
  }

  lemma RoundContinues(s: seq<Job>, active: seq<nat>, w: World, r: nat)
    requires AllWellFormed(s) && ValidIds(s, active)
    requires active == Active(s, active) && active != []
    requires RoundScored(s, active, w, r)
    ensures var after := RoundJobs(s, active, w, r);
      var still := Active(after, active);
      var rest := Process(after, still, w, r + 1);
      && still == Active(after, still)
      && Process(s, active, w, r) == Trace(rest.jobs, [RoundBatch(s, active, w, r)] + rest.calls, rest.exit)
      && Backlog(Unit, after, still) < Backlog(Unit, s, active)
  {
    hide RoundBatch, RoundCounts, RoundJobs, Active, Backlog;
    var after := RoundJobs(s, active, w, r);
    ProcessActive(after, active, w, r + 1);
    BacklogActive(Unit, after, active);
  }

  lemma ProcessNobody(s: seq<Job>, w: World, r: nat)
    requires AllWellFormed(s)
    ensures Process(s, [], w, r) == Trace(s, [], Finished)
  {
  }

  /** One round of `Batching.Process`, in terms of the slices that the loop keeps. */
  lemma RoundUnfolds(s: seq<Job>, active: seq<nat>, w: World, r: nat)
    requires AllWellFormed(s) && ValidIds(s, active)
    requires active == Active(s, active) && active != []
    ensures var counts := Counts(s, active, 0, 0, w.caps(r));
      var combined, slices := Batch(s, active, counts), Slices(active, counts);
      var reply := w.predict(r, combined);
      var waited := CancelSome(s, reply.cancelled);
      var t := Process(s, active, w, r);
      && (combined == [] ==> t == Trace(s, [], NothingToSend))
      && (combined != [] ==>
           && ValidSlices(waited, slices)
           && (forall k :: 0 <= k < |slices| ==> slices[k].1 > 0)
           && SliceTotal(slices) == |combined|
           && (match reply.answer
               case WorkerCancelled => t == Trace(waited, [combined], Interrupted)
               case Raised => t == Trace(FailAll(waited, active), [combined], PredictorFailed)
               case Scores(values) =>
                 if |values| == |combined| then
                   RoundScored(s, active, w, r) && ScatterSlices(waited, slices, values) == RoundJobs(s, active, w, r)
                 else t == Trace(FailAll(waited, active), [combined], PredictorFailed)))
  {
    hide TakeCount, Counts, Batch, Active, Backlog, Scatter, ScatterSlices, Slices, Total, SliceTotal;
    var counts := Counts(s, active, 0, 0, w.caps(r));
    var combined, slices := Batch(s, active, counts), Slices(active, counts);
    var reply := w.predict(r, combined);
    var waited := CancelSome(s, reply.cancelled);
    SlicesValid(waited, active, counts);
    BatchLength(s, active, counts);
    if reply.answer.Scores? && |reply.answer.values| == |combined| {
      RoundAdvances(s, active, counts, reply.cancelled, reply.answer.values);
      ScatterBySlices(waited, active, counts, reply.answer.values);
    }
  }

  /* ---------- the queue in front of the worker ---------- */

  /** What a call of `predict` meets before it awaits anything. */
  datatype Admission = Direct | NotStarted | Overloaded | Queued(job: BatchJob)

  class DynamicBatcher {
    const capacity: Positive
    var enabled: bool
    var running: bool
    var queue: seq<BatchJob>

    constructor (capacity: Positive, enabled: bool)
      ensures this.capacity == capacity && this.enabled == enabled
      ensures !running && queue == []
    {
      this.capacity, this.enabled := capacity, enabled;
      running, queue := false, [];
    }

    ghost predicate Valid()
      reads this
    {
      Distinct(queue) && |queue| <= capacity
    }

    method Start()
      modifies this`running
      ensures running == (old(running) || enabled)
    {
      if enabled && !running {
        running := true;
      }
    }

    /** `predict`, up to its await: a rejected call leaves the batcher exactly as it was. */
    method Submit(pairs: seq<Pair>) returns (admission: Admission)
      requires Valid()
      modifies this`queue
      ensures Valid()
      ensures admission.Queued? <==> enabled && running && |old(queue)| < capacity
      ensures admission.Overloaded? <==> enabled && running && |old(queue)| == capacity
      ensures admission.NotStarted? <==> enabled && !running
      ensures match admission
        case Queued(job) =>
          fresh(job) && job.Snapshot() == Job(pairs, 0, [], Pending) && queue == old(queue) + [job]
        case _ => queue == old(queue)
    {
      if !enabled {
        return Direct;
      }
      if !running {
        return NotStarted;
      }
      if |queue| >= capacity {
        return Overloaded;
      }
      var job := new BatchJob(pairs);
      queue := queue + [job];
      return Queued(job);
    }

    /** `queue.get`: the oldest job. */
    method Take() returns (job: BatchJob)
      requires Valid() && queue != []
      modifies this`queue
      ensures Valid() && old(queue) == [job] + queue
    {
      job := queue[0];
      queue := queue[1..];
    }

    /** The worker takes the oldest job and the `more` that arrive while its window is open. */
    method Collect(more: nat) returns (jobs: seq<BatchJob>)
      requires Valid() && more < |queue|
      modifies this`queue
      ensures Valid() && old(queue) == jobs + queue && |jobs| == more + 1
    {
      ghost var all := queue;
      var first := Take();
      jobs := [first];
      while |jobs| <= more
        invariant Valid() && all == jobs + queue && 1 <= |jobs| <= more + 1
      {
        var next := Take();
        jobs := jobs + [next];
      }
    }

    /** One turn of the worker: it collects jobs, oldest first, and processes them; the jobs behind them
        are not touched. */
    method RunOnce(more: nat, w: World) returns (jobs: seq<BatchJob>, calls: seq<seq<Pair>>, exit: Exit)
      requires Valid() && more < |queue| && AllWellFormed(Snapshots(queue))
      modifies this`queue, queue
      ensures Valid() && old(queue) == jobs + queue && |jobs| == more + 1
      ensures Trace(Snapshots(jobs), calls, exit) == Process(old(Snapshots(queue[..more + 1])), Upto(more + 1), w, 0)
      ensures Snapshots(queue) == old(Snapshots(queue[more + 1..]))
    {
      hide Process;
      ghost var all := queue;
      jobs := Collect(more);
      DistinctParts(all, jobs, queue);
      assert jobs == all[..more + 1] && queue == all[more + 1..];
      hide Distinct;
      WellFormedPart(all, jobs);
      ghost var behind := Snapshots(queue);
      assert Snapshots(jobs) == old(Snapshots(queue[..more + 1]));
      assert behind == old(Snapshots(queue[more + 1..]));
      calls, exit := ProcessJobs(jobs, w);
      assert Snapshots(queue) == behind;
    }

    lemma DistinctParts(all: seq<BatchJob>, front: seq<BatchJob>, back: seq<BatchJob>)
      requires Distinct(all) && all == front + back
      ensures Distinct(front) && Distinct(back) && forall k :: 0 <= k < |back| ==> back[k] !in front
    {
      forall i, k | 0 <= i < k < |front| ensures front[i] != front[k] {
        assert front[i] == all[i] && front[k] == all[k];
      }
      forall i, k | 0 <= i < |front| && 0 <= k < |back| ensures front[i] != back[k] {
        assert front[i] == all[i] && back[k] == all[|front| + k];
      }
      forall i, k | 0 <= i < k < |back| ensures back[i] != back[k] {
        assert back[i] == all[|front| + i] && back[k] == all[|front| + k];
      }
    }

    lemma WellFormedPart(all: seq<BatchJob>, front: seq<BatchJob>)
      requires front <= all && AllWellFormed(Snapshots(all))
      ensures AllWellFormed(Snapshots(front))
    {
      assert forall i :: 0 <= i < |front| ==> Snapshots(front)[i] == Snapshots(all)[i];
    }

    /** The end of `close`, once the worker is gone: every queued job that is not done is cancelled. */
    method Close()
      requires Valid()
      modifies this`queue, this`running, queue
      ensures queue == [] && !running
      ensures forall k :: 0 <= k < |old(queue)| ==>
        old(queue)[k].Snapshot() == Cancel(old(queue[k].Snapshot()))
    {
      ghost var all := queue;
      ghost var done := 0;
      running := false;
      while queue != []
        invariant !running && done <= |all| && queue == all[done..]
        invariant forall k :: 0 <= k < |all| ==>
          (all[k].Snapshot() == if k < done then Cancel(old(all[k].Snapshot())) else old(all[k].Snapshot()))
        decreases |queue|
      {
        var job := queue[0];
        queue := queue[1..];
        done := done + 1;
        job.CancelFuture();
      }
    }

    method Reconfigure()
      requires Valid()
      modifies this`queue, this`running, queue
      ensures Valid()
      ensures running == enabled
      ensures forall k :: 0 <= k < |old(queue)| ==>
        old(queue)[k].Snapshot() == if old(running) && !enabled then Cancel(old(queue[k].Snapshot())) else old(queue[k].Snapshot())
      ensures queue == if old(running) && !enabled then [] else old(queue)
    {
      if enabled && !running {
        Start();
      } else if !enabled && running {
        Close();
      }
    }
  }
}
