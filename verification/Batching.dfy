/** The dynamic micro-batcher's inner loop, as a function on job snapshots.
    `jobs` holds every job of the batcher and `ids` the ones being processed, so that the
    same definitions describe one `_process` run and the batcher as a whole. */
module Batching {
  import opened Texts

  type Pair = (string, string)
  type Score = real
  type Positive = n: nat | n >= 1 witness 1

  /** An `asyncio.Future` that carries a score list. */
  datatype Future = Pending | Cancelled | Failed | Resolved(value: seq<Score>)

  datatype Job = Job(pairs: seq<Pair>, cursor: nat, scores: seq<Score>, future: Future) {
    predicate Live() { future.Pending? }

    /** What `_process` keeps true of a job between rounds: a live job still has pairs to send,
        unless it never had any, and a resolved one handed over its full score list. */
    predicate WellFormed() {
      && cursor <= |pairs|
      && |scores| == cursor
      && (future.Pending? && cursor == |pairs| ==> pairs == [])
      && (future.Resolved? ==> cursor == |pairs| && future.value == scores)
    }

    function Rest(): seq<Pair>
      requires cursor <= |pairs|
    {
      pairs[cursor..]
    }
  }

  datatype Caps = Caps(pairs: Positive, tokens: Positive)

  /** What the predictor's `await` ends with. */
  datatype Answer = Scores(values: seq<Score>) | Raised | WorkerCancelled

  /** One `await` of the predictor: the futures that were cancelled meanwhile, and the answer. */
  datatype Reply = Reply(cancelled: set<nat>, answer: Answer)

  /** Everything `_process` does not control: the caps in force in each round (settings may be
      patched while a call is out) and the predictor's reply to each batch. */
  datatype World = World(caps: nat -> Caps, predict: (nat, seq<Pair>) -> Reply)

  datatype Exit = Finished | NothingToSend | PredictorFailed | Interrupted

  /** The jobs after a run, the predictor calls it made, and how it ended. */
  datatype Trace = Trace(jobs: seq<Job>, calls: seq<seq<Pair>>, exit: Exit)

  /** The words of both texts, and at least one: the batcher's estimate of a pair's tokens. */
  function PairTokens(p: Pair): (t: nat)
    ensures t >= 1
  {
    var n := |Words(p.0)| + |Words(p.1)|;
    if n < 1 then 1 else n
  }

  /** A pair weighs the words of its query and of its document together, and 1 when neither has any. */
  lemma PairTokensOfWords(query: seq<string>, document: seq<string>)
    requires AllWords(query) && AllWords(document)
    ensures query + document != [] ==> PairTokens((Join(query), Join(document))) == |query| + |document|
    ensures query + document == [] ==> PairTokens((Join(query), Join(document))) == 1
  {
    WordsOfJoin(query);
    WordsOfJoin(document);
  }

  function Unit(p: Pair): nat { 1 }

  function Sum(m: Pair -> nat, ps: seq<Pair>): nat {
    if ps == [] then 0 else m(ps[0]) + Sum(m, ps[1..])
  }

  function Tokens(ps: seq<Pair>): nat { Sum(PairTokens, ps) }

  function Map(f: Pair -> Score, ps: seq<Pair>): (r: seq<Score>)
    ensures |r| == |ps|
  {
    seq(|ps|, i requires 0 <= i < |ps| => f(ps[i]))
  }

  ghost predicate AllWellFormed(jobs: seq<Job>) {
    forall i :: 0 <= i < |jobs| ==> jobs[i].WellFormed()
  }

  ghost predicate ValidIds(jobs: seq<Job>, ids: seq<nat>) {
    && (forall k :: 0 <= k < |ids| ==> ids[k] < |jobs|)
    && (forall i, k :: 0 <= i < k < |ids| ==> ids[i] != ids[k])
  }

  /* ---------- packing one batch ---------- */

  /** How many of `rest` the inner loop appends to a batch of `n` pairs and `t` tokens. */
  function TakeCount(rest: seq<Pair>, n: nat, t: nat, caps: Caps): (c: nat)
    ensures c <= |rest|
  {
    if rest == [] || n >= caps.pairs || (n > 0 && t + PairTokens(rest[0]) > caps.tokens) then 0
    else if t + PairTokens(rest[0]) >= caps.tokens then 1
    else 1 + TakeCount(rest[1..], n + 1, t + PairTokens(rest[0]), caps)
  }

  /** How many pairs each active job contributes to a batch already holding `n` pairs of `t` tokens. */
  function Counts(jobs: seq<Job>, active: seq<nat>, n: nat, t: nat, caps: Caps): (counts: seq<nat>)
    requires AllWellFormed(jobs) && ValidIds(jobs, active)
    ensures |counts| == |active|
    ensures forall k :: 0 <= k < |active| ==> counts[k] <= |jobs[active[k]].Rest()|
  {
    if active == [] then [] else
    var rest := jobs[active[0]].Rest();
    var c := TakeCount(rest, n, t, caps);
    [c] + Counts(jobs, active[1..], n + c, t + Tokens(rest[..c]), caps)
  }

  ghost predicate ValidCounts(jobs: seq<Job>, active: seq<nat>, counts: seq<nat>) {
    && AllWellFormed(jobs) && ValidIds(jobs, active)
    && |counts| == |active|
    && forall k :: 0 <= k < |active| ==> counts[k] <= |jobs[active[k]].Rest()|
  }

  /** `combined`: the slices of the active jobs, in order. */
  function Batch(jobs: seq<Job>, active: seq<nat>, counts: seq<nat>): seq<Pair>
    requires ValidCounts(jobs, active, counts)
  {
    if active == [] then []
    else jobs[active[0]].Rest()[..counts[0]] + Batch(jobs, active[1..], counts[1..])
  }

  /* ---------- what happens around an await ---------- */

  function Active(jobs: seq<Job>, ids: seq<nat>): (active: seq<nat>)
    requires ValidIds(jobs, ids)
    ensures ValidIds(jobs, active)
    ensures forall id :: id in active <==> id in ids && jobs[id].Live()
    ensures |active| <= |ids|
  {
    if ids == [] then [] else
    var tail := Active(jobs, ids[1..]);
    if jobs[ids[0]].Live() then [ids[0]] + tail else tail
  }

  /** A client times out or disconnects: its future is cancelled unless it is already done. */
  function Cancel(job: Job): Job {
    if job.Live() then job.(future := Cancelled) else job
  }

  function CancelSome(jobs: seq<Job>, cancelled: set<nat>): (r: seq<Job>)
    ensures |r| == |jobs|
    ensures forall i :: 0 <= i < |jobs| ==> r[i] == if i in cancelled then Cancel(jobs[i]) else jobs[i]
    ensures AllWellFormed(jobs) ==> AllWellFormed(r)
  {
    seq(|jobs|, i requires 0 <= i < |jobs| => if i in cancelled then Cancel(jobs[i]) else jobs[i])
  }

  function Fail(job: Job): Job {
    if job.Live() then job.(future := Failed) else job
  }

  function FailAll(jobs: seq<Job>, active: seq<nat>): (r: seq<Job>)
    ensures |r| == |jobs|
    ensures forall i :: 0 <= i < |jobs| ==> r[i] == if i in active then Fail(jobs[i]) else jobs[i]
    ensures AllWellFormed(jobs) ==> AllWellFormed(r)
  {
    seq(|jobs|, i requires 0 <= i < |jobs| => if i in active then Fail(jobs[i]) else jobs[i])
  }

  /** One job takes its slice of the scores; its future resolves when the slice completes it. */
  function Advance(job: Job, chunk: seq<Score>): Job {
    if chunk == [] then job else
    var j := job.(scores := job.scores + chunk, cursor := job.cursor + |chunk|);
    if j.cursor == |j.pairs| && j.Live() then j.(future := Resolved(j.scores)) else j
  }

  lemma MovedStaysValid(jobs: seq<Job>, active: seq<nat>, counts: seq<nat>, chunk: seq<Score>)
    requires ValidCounts(jobs, active, counts) && active != []
    requires |chunk| == counts[0]
    ensures ValidCounts(jobs[active[0] := Advance(jobs[active[0]], chunk)], active[1..], counts[1..])
  {
    var moved := jobs[active[0] := Advance(jobs[active[0]], chunk)];
    assert forall k :: 0 <= k < |active[1..]| ==> active[1..][k] == active[k + 1] && counts[1..][k] == counts[k + 1];
  }

  function Total(counts: seq<nat>): nat {
    if counts == [] then 0 else counts[0] + Total(counts[1..])
  }

  /** What a job becomes when it takes `count` scores: its future changes only when it is live and the
      scores complete it. */
  ghost predicate Moved(before: Job, after: Job, count: nat) {
    && after.pairs == before.pairs
    && after.cursor == before.cursor + count
    && (before.Live() ==>
          if count > 0 && after.cursor == |after.pairs| then after.future == Resolved(after.scores)
          else after.Live())
    && (!before.Live() ==> after.future == before.future)
  }

  /** Each active job has moved by its count and nobody else at all. */
  ghost predicate AllMoved(jobs: seq<Job>, active: seq<nat>, counts: seq<nat>, after: seq<Job>)
    requires ValidCounts(jobs, active, counts)
  {
    && |after| == |jobs| && AllWellFormed(after)
    && (forall i :: 0 <= i < |jobs| && i !in active ==> after[i] == jobs[i])
    && (forall k :: 0 <= k < |active| ==> Moved(jobs[active[k]], after[active[k]], counts[k]))
  }

  lemma AllMovedStep(jobs: seq<Job>, active: seq<nat>, counts: seq<nat>, chunk: seq<Score>, after: seq<Job>)
    requires ValidCounts(jobs, active, counts) && active != [] && |chunk| == counts[0]
    requires var moved := jobs[active[0] := Advance(jobs[active[0]], chunk)];
      ValidCounts(moved, active[1..], counts[1..]) && AllMoved(moved, active[1..], counts[1..], after)
    ensures AllMoved(jobs, active, counts, after)
  {
    var moved := jobs[active[0] := Advance(jobs[active[0]], chunk)];
    assert active[0] !in active[1..];
    assert Moved(jobs[active[0]], moved[active[0]], counts[0]);
    hide AllWellFormed, Moved;
    forall k | 0 <= k < |active| ensures Moved(jobs[active[k]], after[active[k]], counts[k]) {
      if k > 0 {
        assert active[1..][k - 1] == active[k] && counts[1..][k - 1] == counts[k] && moved[active[k]] == jobs[active[k]];
      }
    }
  }

  function Scatter(jobs: seq<Job>, active: seq<nat>, counts: seq<nat>, scores: seq<Score>): (r: seq<Job>)
    requires ValidCounts(jobs, active, counts)
    requires |scores| == Total(counts)
    ensures AllMoved(jobs, active, counts, r)
    decreases |active|
  {
    if active == [] then jobs else
    var moved := jobs[active[0] := Advance(jobs[active[0]], scores[..counts[0]])];
    MovedStaysValid(jobs, active, counts, scores[..counts[0]]);
    var r := Scatter(moved, active[1..], counts[1..], scores[counts[0]..]);
    AllMovedStep(jobs, active, counts, scores[..counts[0]], r);
    r
  }

  /* ---------- the loop ---------- */

  /** Pairs (or any measure of them) that live jobs among `ids` still have to send. */
  function Backlog(m: Pair -> nat, jobs: seq<Job>, ids: seq<nat>): nat
    requires AllWellFormed(jobs) && ValidIds(jobs, ids)
  {
    if ids == [] then 0 else
    (if jobs[ids[0]].Live() then Sum(m, jobs[ids[0]].Rest()) else 0) + Backlog(m, jobs, ids[1..])
  }

  function RoundCounts(jobs: seq<Job>, ids: seq<nat>, w: World, r: nat): seq<nat>
    requires AllWellFormed(jobs) && ValidIds(jobs, ids)
  {
    Counts(jobs, Active(jobs, ids), 0, 0, w.caps(r))
  }

  function RoundBatch(jobs: seq<Job>, ids: seq<nat>, w: World, r: nat): seq<Pair>
    requires AllWellFormed(jobs) && ValidIds(jobs, ids)
  {
    Batch(jobs, Active(jobs, ids), RoundCounts(jobs, ids, w, r))
  }

  function RoundReply(jobs: seq<Job>, ids: seq<nat>, w: World, r: nat): Reply
    requires AllWellFormed(jobs) && ValidIds(jobs, ids)
  {
    w.predict(r, RoundBatch(jobs, ids, w, r))
  }

  /** Round `r` sends a batch and gets one score per pair back. */
  predicate RoundScored(jobs: seq<Job>, ids: seq<nat>, w: World, r: nat)
    requires AllWellFormed(jobs) && ValidIds(jobs, ids)
  {
    var batch, answer := RoundBatch(jobs, ids, w, r), RoundReply(jobs, ids, w, r).answer;
    batch != [] && answer.Scores? && |answer.values| == |batch|
  }

  /** The jobs after a scored round. */
  function RoundJobs(jobs: seq<Job>, ids: seq<nat>, w: World, r: nat): (after: seq<Job>)
    requires AllWellFormed(jobs) && ValidIds(jobs, ids)
    requires RoundScored(jobs, ids, w, r)
    ensures |after| == |jobs| && AllWellFormed(after)
    ensures Advanced(jobs, Active(jobs, ids), RoundCounts(jobs, ids, w, r), after)
    ensures Backlog(Unit, after, Active(jobs, ids)) < Backlog(Unit, jobs, ids)
  {
    var active, counts := Active(jobs, ids), RoundCounts(jobs, ids, w, r);
    var reply := RoundReply(jobs, ids, w, r);
    BatchLength(jobs, active, counts);
    RoundAdvances(jobs, active, counts, reply.cancelled, reply.answer.values);
    RoundShrinks(jobs, ids, counts, reply.cancelled, reply.answer.values);
    Scatter(CancelSome(jobs, reply.cancelled), active, counts, reply.answer.values)
  }

  /** `_process(jobs)` from round `r` on, over the jobs numbered `ids`. */
  function Process(jobs: seq<Job>, ids: seq<nat>, w: World, r: nat): (t: Trace)
    requires AllWellFormed(jobs) && ValidIds(jobs, ids)
    ensures |t.jobs| == |jobs| && AllWellFormed(t.jobs)
    decreases Backlog(Unit, jobs, ids)
  {
    var active := Active(jobs, ids);
    var batch := RoundBatch(jobs, ids, w, r);
    if active == [] then Trace(jobs, [], Finished)
    else if batch == [] then Trace(jobs, [], NothingToSend)
    else if RoundScored(jobs, ids, w, r) then
      var t := Process(RoundJobs(jobs, ids, w, r), active, w, r + 1);
      Trace(t.jobs, [batch] + t.calls, t.exit)
    else
      var reply := RoundReply(jobs, ids, w, r);
      var waited := CancelSome(jobs, reply.cancelled);
      if reply.answer.WorkerCancelled? then Trace(waited, [batch], Interrupted)
      else Trace(FailAll(waited, active), [batch], PredictorFailed)
  }

  /* ---------- lemmas about sums and batches ---------- */

  lemma {:induction false} SumAppend(m: Pair -> nat, a: seq<Pair>, b: seq<Pair>)
    ensures Sum(m, a + b) == Sum(m, a) + Sum(m, b)
  {
    if a == [] {
      assert a + b == b;
    } else {
      assert (a + b)[1..] == a[1..] + b;
      SumAppend(m, a[1..], b);
    }
  }

  lemma SumUnit(ps: seq<Pair>)
    ensures Sum(Unit, ps) == |ps|
  {
  }

  lemma {:induction false} BatchLength(jobs: seq<Job>, active: seq<nat>, counts: seq<nat>)
    requires ValidCounts(jobs, active, counts)
    ensures |Batch(jobs, active, counts)| == Total(counts)
  {
    if active != [] {
      BatchLength(jobs, active[1..], counts[1..]);
    }
  }

  /** Jobs outside the list, and the futures of those in it, do not matter to the batch. */
  lemma {:induction false} BatchFrame(jobs: seq<Job>, jobs': seq<Job>, active: seq<nat>, counts: seq<nat>)
    requires ValidCounts(jobs, active, counts) && ValidCounts(jobs', active, counts)
    requires forall k :: 0 <= k < |active| ==>
      jobs[active[k]].pairs == jobs'[active[k]].pairs && jobs[active[k]].cursor == jobs'[active[k]].cursor
    ensures Batch(jobs, active, counts) == Batch(jobs', active, counts)
  {
    if active != [] {
      BatchFrame(jobs, jobs', active[1..], counts[1..]);
    }
  }

  /** The measure of what was sent plus what is left never exceeds what there was. */
  lemma {:induction false} BacklogSpent(m: Pair -> nat, jobs: seq<Job>, active: seq<nat>, counts: seq<nat>, after: seq<Job>)
    requires ValidCounts(jobs, active, counts)
    requires forall k :: 0 <= k < |active| ==> jobs[active[k]].Live()
    requires |after| == |jobs| && AllWellFormed(after)
    requires forall k :: 0 <= k < |active| ==>
      && after[active[k]].pairs == jobs[active[k]].pairs
      && after[active[k]].cursor == jobs[active[k]].cursor + counts[k]
    ensures Sum(m, Batch(jobs, active, counts)) + Backlog(m, after, active) <= Backlog(m, jobs, active)
  {
    if active != [] {
      var rest, c := jobs[active[0]].Rest(), counts[0];
      assert rest == rest[..c] + rest[c..];
      assert after[active[0]].Rest() == rest[c..];
      SumAppend(m, rest[..c], rest[c..]);
      SumAppend(m, rest[..c], Batch(jobs, active[1..], counts[1..]));
      BacklogSpent(m, jobs, active[1..], counts[1..], after);
    }
  }

  lemma {:induction false} BacklogActive(m: Pair -> nat, jobs: seq<Job>, ids: seq<nat>)
    requires AllWellFormed(jobs) && ValidIds(jobs, ids)
    ensures Backlog(m, jobs, Active(jobs, ids)) == Backlog(m, jobs, ids)
  {
    if ids != [] {
      BacklogActive(m, jobs, ids[1..]);
      var tail := Active(jobs, ids[1..]);
      if jobs[ids[0]].Live() {
        assert ([ids[0]] + tail)[1..] == tail;
      }
    }
  }

  ghost predicate Advanced(jobs: seq<Job>, active: seq<nat>, counts: seq<nat>, after: seq<Job>)
    requires ValidCounts(jobs, active, counts)
  {
    && |after| == |jobs| && AllWellFormed(after)
    && forall k :: 0 <= k < |active| ==>
      && after[active[k]].pairs == jobs[active[k]].pairs
      && after[active[k]].cursor == jobs[active[k]].cursor + counts[k]
  }

  lemma CancelKeepsCounts(jobs: seq<Job>, active: seq<nat>, counts: seq<nat>, cancelled: set<nat>)
    requires ValidCounts(jobs, active, counts)
    ensures ValidCounts(CancelSome(jobs, cancelled), active, counts)
    ensures forall k :: 0 <= k < |active| ==>
      && CancelSome(jobs, cancelled)[active[k]].pairs == jobs[active[k]].pairs
      && CancelSome(jobs, cancelled)[active[k]].cursor == jobs[active[k]].cursor
  {
    var waited := CancelSome(jobs, cancelled);
    assert forall k :: 0 <= k < |active| ==> waited[active[k]].Rest() == jobs[active[k]].Rest();
  }

  lemma RoundAdvances(jobs: seq<Job>, active: seq<nat>, counts: seq<nat>, cancelled: set<nat>, values: seq<Score>)
    requires ValidCounts(jobs, active, counts) && |values| == Total(counts)
    ensures ValidCounts(CancelSome(jobs, cancelled), active, counts)
    ensures Advanced(jobs, active, counts, Scatter(CancelSome(jobs, cancelled), active, counts, values))
  {
    CancelKeepsCounts(jobs, active, counts, cancelled);
    MovedAdvances(jobs, CancelSome(jobs, cancelled), active, counts, Scatter(CancelSome(jobs, cancelled), active, counts, values));
    hide *;
  }

  lemma MovedAdvances(jobs: seq<Job>, waited: seq<Job>, active: seq<nat>, counts: seq<nat>, after: seq<Job>)
    requires ValidCounts(jobs, active, counts) && ValidCounts(waited, active, counts) && |waited| == |jobs|
    requires forall k :: 0 <= k < |active| ==>
      waited[active[k]].pairs == jobs[active[k]].pairs && waited[active[k]].cursor == jobs[active[k]].cursor
    requires AllMoved(waited, active, counts, after)
    ensures Advanced(jobs, active, counts, after)
  {
    hide AllWellFormed;
    forall k | 0 <= k < |active|
      ensures after[active[k]].pairs == jobs[active[k]].pairs && after[active[k]].cursor == jobs[active[k]].cursor + counts[k]
    {
      assert Moved(waited[active[k]], after[active[k]], counts[k]);
    }
  }

  /** What a round sends and what its jobs still have to send afterwards add up to no more than
      the backlog before it, whatever was cancelled meanwhile. */
  lemma RoundSpends(m: Pair -> nat, jobs: seq<Job>, ids: seq<nat>, counts: seq<nat>, after: seq<Job>)
    requires AllWellFormed(jobs) && ValidIds(jobs, ids)
    requires ValidCounts(jobs, Active(jobs, ids), counts)
    requires Advanced(jobs, Active(jobs, ids), counts, after)
    ensures Sum(m, Batch(jobs, Active(jobs, ids), counts)) + Backlog(m, after, Active(jobs, ids))
            <= Backlog(m, jobs, ids)
  {
    var active := Active(jobs, ids);
    assert forall k :: 0 <= k < |active| ==> active[k] in active;
    BacklogSpent(m, jobs, active, counts, after);
    BacklogActive(m, jobs, ids);
  }

  /** A round that sends something makes the backlog strictly smaller. */
  lemma RoundShrinks(jobs: seq<Job>, ids: seq<nat>, counts: seq<nat>, cancelled: set<nat>, values: seq<Score>)
    requires AllWellFormed(jobs) && ValidIds(jobs, ids)
    requires ValidCounts(jobs, Active(jobs, ids), counts)
    requires |values| == Total(counts)
    requires Batch(jobs, Active(jobs, ids), counts) != []
    ensures Backlog(Unit, Scatter(CancelSome(jobs, cancelled), Active(jobs, ids), counts, values), Active(jobs, ids))
            < Backlog(Unit, jobs, ids)
  {
    RoundAdvances(jobs, Active(jobs, ids), counts, cancelled, values);
    RoundSpends(Unit, jobs, ids, counts, Scatter(CancelSome(jobs, cancelled), Active(jobs, ids), counts, values));
    SumUnit(Batch(jobs, Active(jobs, ids), counts));
  }
}
