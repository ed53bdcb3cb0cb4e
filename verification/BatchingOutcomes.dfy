/** What a `_process` run does to its jobs: isolation of results, completion, and progress. */
module BatchingOutcomes {
  import opened Batching
  import opened BatchingProperties

  /* ---------- isolation ---------- */

  /** The job's scores are the predictor's own, in order, for exactly the pairs sent so far. */
  ghost predicate Faithful(job: Job, f: Pair -> Score)
    requires job.WellFormed()
  {
    job.scores == Map(f, job.pairs[..job.cursor])
  }

  ghost predicate AllFaithful(jobs: seq<Job>, f: Pair -> Score)
    requires AllWellFormed(jobs)
  {
    forall i :: 0 <= i < |jobs| ==> Faithful(jobs[i], f)
  }

  /** In every round the run reaches, the scores that come back are those of a per-pair function. */
  ghost predicate HonestRounds(jobs: seq<Job>, ids: seq<nat>, w: World, r: nat, f: Pair -> Score)
    requires AllWellFormed(jobs) && ValidIds(jobs, ids)
    decreases Backlog(Unit, jobs, ids)
  {
    RoundScored(jobs, ids, w, r) ==>
      && HonestRound(jobs, ids, w, r, f)
      && HonestRounds(RoundJobs(jobs, ids, w, r), Active(jobs, ids), w, r + 1, f)
  }

  ghost predicate HonestRound(jobs: seq<Job>, ids: seq<nat>, w: World, r: nat, f: Pair -> Score)
    requires AllWellFormed(jobs) && ValidIds(jobs, ids) && RoundScored(jobs, ids, w, r)
  {
    RoundReply(jobs, ids, w, r).answer.values == Map(f, RoundBatch(jobs, ids, w, r))
  }

  lemma MapAppend(f: Pair -> Score, a: seq<Pair>, b: seq<Pair>)
    ensures Map(f, a + b) == Map(f, a) + Map(f, b)
    ensures Map(f, a + b)[..|a|] == Map(f, a) && Map(f, a + b)[|a|..] == Map(f, b)
  {
  }

  lemma AdvanceFaithful(job: Job, c: nat, f: Pair -> Score)
    requires job.WellFormed() && Faithful(job, f) && c <= |job.Rest()|
    ensures Advance(job, Map(f, job.Rest()[..c])).WellFormed()
    ensures Faithful(Advance(job, Map(f, job.Rest()[..c])), f)
  {
    assert job.pairs[..job.cursor + c] == job.pairs[..job.cursor] + job.Rest()[..c];
    MapAppend(f, job.pairs[..job.cursor], job.Rest()[..c]);
  }

  /** Scattering a batch's scores back gives every job its own, however the batch was mixed. */
  lemma {:induction false} ScatterFaithful(jobs: seq<Job>, active: seq<nat>, counts: seq<nat>, f: Pair -> Score)
    requires ValidCounts(jobs, active, counts)
    requires AllFaithful(jobs, f)
    requires |Batch(jobs, active, counts)| == Total(counts)
    ensures AllFaithful(Scatter(jobs, active, counts, Map(f, Batch(jobs, active, counts))), f)
    decreases |active|
  {
    if active != [] {
      var head := jobs[active[0]].Rest()[..counts[0]];
      var tail := Batch(jobs, active[1..], counts[1..]);
      var moved := jobs[active[0] := Advance(jobs[active[0]], Map(f, head))];
      AdvanceFaithful(jobs[active[0]], counts[0], f);
      MapAppend(f, head, tail);
      BatchFrame(jobs, moved, active[1..], counts[1..]);
      ScatterFaithful(moved, active[1..], counts[1..], f);
    }
  }

  lemma CancelFaithful(jobs: seq<Job>, cancelled: set<nat>, f: Pair -> Score)
    requires AllWellFormed(jobs) && AllFaithful(jobs, f)
    ensures AllFaithful(CancelSome(jobs, cancelled), f)
  {
  }

  lemma FailFaithful(jobs: seq<Job>, active: seq<nat>, f: Pair -> Score)
    requires AllWellFormed(jobs) && AllFaithful(jobs, f)
    ensures AllFaithful(FailAll(jobs, active), f)
  {
  }

  lemma RoundFaithful(jobs: seq<Job>, ids: seq<nat>, w: World, r: nat, f: Pair -> Score)
    requires AllWellFormed(jobs) && ValidIds(jobs, ids)
    requires RoundScored(jobs, ids, w, r)
    requires HonestRound(jobs, ids, w, r, f) && AllFaithful(jobs, f)
    ensures AllFaithful(RoundJobs(jobs, ids, w, r), f)
  {
    hide TakeCount, Counts, Scatter, Backlog;
    var active, counts := Active(jobs, ids), RoundCounts(jobs, ids, w, r);
    var reply := RoundReply(jobs, ids, w, r);
    var waited := CancelSome(jobs, reply.cancelled);
    BatchLength(jobs, active, counts);
    RoundAdvances(jobs, active, counts, reply.cancelled, reply.answer.values);
    BatchFrame(jobs, waited, active, counts);
    CancelFaithful(jobs, reply.cancelled, f);
    ScatterFaithful(waited, active, counts, f);
  }

  /** Isolation: with per-pair scores in the rounds it reaches every job keeps exactly its own scores through any
      run, so a future that resolves does so with the full list for its own pairs, whatever
      jobs shared its batches and whichever were cancelled. */
  lemma {:induction false} ProcessFaithful(jobs: seq<Job>, ids: seq<nat>, w: World, r: nat, f: Pair -> Score)
    requires AllWellFormed(jobs) && ValidIds(jobs, ids)
    requires HonestRounds(jobs, ids, w, r, f) && AllFaithful(jobs, f)
    ensures var after := Process(jobs, ids, w, r).jobs;
      && AllFaithful(after, f)
      && (forall i :: 0 <= i < |after| && after[i].future.Resolved? ==>
            after[i].future.value == Map(f, after[i].pairs))
    decreases Backlog(Unit, jobs, ids)
  {
    hide Process, Counts, RoundCounts, Backlog, Scatter, Active;
    ProcessStep(jobs, ids, w, r);
    if Active(jobs, ids) != [] && RoundScored(jobs, ids, w, r) {
      RoundFaithful(jobs, ids, w, r, f);
      ProcessFaithful(RoundJobs(jobs, ids, w, r), Active(jobs, ids), w, r + 1, f);
    } else {
      var waited := CancelSome(jobs, RoundReply(jobs, ids, w, r).cancelled);
      CancelFaithful(jobs, RoundReply(jobs, ids, w, r).cancelled, f);
      FailFaithful(waited, Active(jobs, ids), f);
    }
    var after := Process(jobs, ids, w, r).jobs;
    forall i | 0 <= i < |after| && after[i].future.Resolved?
      ensures after[i].future.value == Map(f, after[i].pairs)
    {
      assert after[i].WellFormed() && Faithful(after[i], f);
      assert after[i].pairs[..|after[i].pairs|] == after[i].pairs;
    }
  }

  /* ---------- every future is settled once ---------- */

  /** A done future is never touched again, and a job's pairs never change. */
  ghost predicate Settled(before: seq<Job>, after: seq<Job>) {
    && |after| == |before|
    && forall i :: 0 <= i < |before| ==>
      && after[i].pairs == before[i].pairs
      && (!before[i].Live() ==> after[i].future == before[i].future)
  }

  lemma RoundSettles(jobs: seq<Job>, ids: seq<nat>, w: World, r: nat)
    requires AllWellFormed(jobs) && ValidIds(jobs, ids)
    requires RoundScored(jobs, ids, w, r)
    ensures Settled(jobs, RoundJobs(jobs, ids, w, r))
    ensures forall i :: 0 <= i < |jobs| ==> RoundJobs(jobs, ids, w, r)[i].cursor >= jobs[i].cursor
  {
    hide TakeCount, Counts, Batch, Backlog, Active;
    var active, counts := Active(jobs, ids), RoundCounts(jobs, ids, w, r);
    var reply := RoundReply(jobs, ids, w, r);
    BatchLength(jobs, active, counts);
    RoundAdvances(jobs, active, counts, reply.cancelled, reply.answer.values);
    var after := RoundJobs(jobs, ids, w, r);
    forall i | 0 <= i < |jobs|
      ensures after[i].pairs == jobs[i].pairs
      ensures !jobs[i].Live() ==> after[i].future == jobs[i].future
      ensures after[i].cursor >= jobs[i].cursor
    {
      if i in active {
        var k :| 0 <= k < |active| && active[k] == i;
      }
    }
  }

  lemma {:induction false} ProcessSettles(jobs: seq<Job>, ids: seq<nat>, w: World, r: nat)
    requires AllWellFormed(jobs) && ValidIds(jobs, ids)
    ensures Settled(jobs, Process(jobs, ids, w, r).jobs)
    decreases Backlog(Unit, jobs, ids)
  {
    hide Process, RoundCounts, Backlog, Active, RoundJobs;
    ProcessStep(jobs, ids, w, r);
    if Active(jobs, ids) != [] && RoundScored(jobs, ids, w, r) {
      RoundSettles(jobs, ids, w, r);
      ProcessSettles(RoundJobs(jobs, ids, w, r), Active(jobs, ids), w, r + 1);
    }
  }

  /** Whatever is still undone after a scored round was among its jobs. */
  lemma StillActive(jobs: seq<Job>, ids: seq<nat>, w: World, r: nat, last: seq<Job>)
    requires AllWellFormed(jobs) && ValidIds(jobs, ids) && RoundScored(jobs, ids, w, r)
    requires Settled(RoundJobs(jobs, ids, w, r), last)
    ensures forall id :: id in ids && last[id].Live() ==> id in Active(jobs, ids)
  {
    hide RoundScored, RoundJobs, Active;
    RoundSettles(jobs, ids, w, r);
    forall id | id in ids && last[id].Live() ensures id in Active(jobs, ids) {
      assert RoundJobs(jobs, ids, w, r)[id].Live();
      assert jobs[id].Live();
    }
  }

  lemma AllFailed(jobs: seq<Job>, ids: seq<nat>, cancelled: set<nat>)
    requires ValidIds(jobs, ids)
    ensures forall id :: id in ids ==> !FailAll(CancelSome(jobs, cancelled), Active(jobs, ids))[id].Live()
  {
    hide FailAll, CancelSome, Active;
  }

  /** When the predictor raises, or returns a wrong number of scores, each job of the round fails unless
      its client gave up while it waited, in which case it is cancelled; when the worker is cancelled
      the others stay pending; and no other job's future changes. */
  lemma FailedRoundOutcomes(jobs: seq<Job>, ids: seq<nat>, w: World, r: nat)
    requires AllWellFormed(jobs) && ValidIds(jobs, ids)
    requires RoundBatch(jobs, ids, w, r) != [] && !RoundScored(jobs, ids, w, r)
    ensures var t, reply := Process(jobs, ids, w, r), RoundReply(jobs, ids, w, r);
      && t.exit == (if reply.answer.WorkerCancelled? then Interrupted else PredictorFailed)
      && t.calls == [RoundBatch(jobs, ids, w, r)]
      && forall id :: 0 <= id < |jobs| ==>
        && t.jobs[id] == jobs[id].(future := t.jobs[id].future)
        && t.jobs[id].future ==
             if !jobs[id].Live() then jobs[id].future
             else if id in reply.cancelled then Cancelled
             else if id in ids && !reply.answer.WorkerCancelled? then Failed
             else Pending
  {
    ProcessStep(jobs, ids, w, r);
    NoneActiveNoBatch(jobs, ids, w, r);
    hide Process, RoundBatch, RoundReply, RoundJobs, Active, Backlog;
  }

  lemma NoneActiveNoBatch(jobs: seq<Job>, ids: seq<nat>, w: World, r: nat)
    requires AllWellFormed(jobs) && ValidIds(jobs, ids)
    ensures RoundBatch(jobs, ids, w, r) != [] ==> Active(jobs, ids) != []
  {
    hide Active, Counts;
  }

  lemma UnsentWhenNothingToSend(jobs: seq<Job>, ids: seq<nat>, w: World, r: nat, id: nat)
    requires AllWellFormed(jobs) && ValidIds(jobs, ids)
    requires RoundBatch(jobs, ids, w, r) == []
    requires id in Active(jobs, ids)
    ensures jobs[id].pairs == []
  {
    hide TakeCount, Counts, Batch, Active;
    var active := Active(jobs, ids);
    var k := FirstUnsent(jobs, active);
    if k < |active| {
      PackingStartsWithFirst(jobs, active, k, w.caps(r));
    } else {
      var i :| 0 <= i < |active| && active[i] == id;
      assert jobs[active[i]].Rest() == [] && jobs[id].WellFormed();
    }
  }

  lemma NothingUnsent(jobs: seq<Job>, ids: seq<nat>, w: World, r: nat)
    requires AllWellFormed(jobs) && ValidIds(jobs, ids)
    requires RoundBatch(jobs, ids, w, r) == []
    ensures forall id :: id in ids && jobs[id].Live() ==> jobs[id].pairs == []
  {
    forall id | id in ids && jobs[id].Live() ensures jobs[id].pairs == [] {
      hide *;
      UnsentWhenNothingToSend(jobs, ids, w, r, id);
    }
  }

  /** Unless the worker itself is cancelled, a run leaves no future undone, with one exception:
      jobs without pairs are never sent, so nothing ever resolves them. */
  lemma {:induction false} ProcessCompletes(jobs: seq<Job>, ids: seq<nat>, w: World, r: nat)
    requires AllWellFormed(jobs) && ValidIds(jobs, ids)
    ensures var t := Process(jobs, ids, w, r);
      && (t.exit == Finished || t.exit == PredictorFailed ==> forall id :: id in ids ==> !t.jobs[id].Live())
      && (t.exit == NothingToSend ==> forall id :: id in ids && t.jobs[id].Live() ==> t.jobs[id].pairs == [])
    decreases Backlog(Unit, jobs, ids)
  {
    hide Process, RoundCounts, RoundBatch, RoundScored, Backlog, RoundJobs, Active, CancelSome, FailAll, Settled;
    var active := Active(jobs, ids);
    ProcessStep(jobs, ids, w, r);
    if active != [] && RoundScored(jobs, ids, w, r) {
      var next := RoundJobs(jobs, ids, w, r);
      ProcessCompletes(next, active, w, r + 1);
      ProcessSettles(next, active, w, r + 1);
      StillActive(jobs, ids, w, r, Process(next, active, w, r + 1).jobs);
    } else if active != [] && RoundBatch(jobs, ids, w, r) != [] {
      AllFailed(jobs, ids, RoundReply(jobs, ids, w, r).cancelled);
    } else if active != [] {
      NothingUnsent(jobs, ids, w, r);
    }
  }

  /** With non-empty jobs, as the service submits them, every return of `_process` other than the
      worker's own cancellation leaves every future done. */
  lemma EveryFutureDone(jobs: seq<Job>, ids: seq<nat>, w: World)
    requires AllWellFormed(jobs) && ValidIds(jobs, ids)
    requires forall id :: id in ids ==> jobs[id].pairs != []
    ensures Process(jobs, ids, w, 0).exit != Interrupted ==>
      forall id :: id in ids ==> !Process(jobs, ids, w, 0).jobs[id].Live()
  {
    hide Process;
    ProcessCompletes(jobs, ids, w, 0);
    ProcessSettles(jobs, ids, w, 0);
  }

  /* ---------- progress ---------- */

  /** In the first `n` rounds, as far as there is something to send, the predictor gives one score per
      pair. */
  ghost predicate AnsweredRounds(jobs: seq<Job>, ids: seq<nat>, w: World, r: nat, n: nat)
    requires AllWellFormed(jobs) && ValidIds(jobs, ids)
    decreases n
  {
    || n == 0
    || RoundBatch(jobs, ids, w, r) == []
    || (RoundScored(jobs, ids, w, r) && AnsweredRounds(RoundJobs(jobs, ids, w, r), Active(jobs, ids), w, r + 1, n - 1))
  }

  /** In every round the run reaches, the predictor gives one score per pair and no client of an active
      job gives up. */
  ghost predicate Undisturbed(jobs: seq<Job>, ids: seq<nat>, w: World, r: nat)
    requires AllWellFormed(jobs) && ValidIds(jobs, ids)
    decreases Backlog(Unit, jobs, ids)
  {
    || RoundBatch(jobs, ids, w, r) == []
    || (RoundScored(jobs, ids, w, r)
        && NobodyGivesUp(jobs, ids, w, r)
        && Undisturbed(RoundJobs(jobs, ids, w, r), Active(jobs, ids), w, r + 1))
  }

  ghost predicate NobodyGivesUp(jobs: seq<Job>, ids: seq<nat>, w: World, r: nat)
    requires AllWellFormed(jobs) && ValidIds(jobs, ids)
  {
    forall id :: id in Active(jobs, ids) ==> id !in RoundReply(jobs, ids, w, r).cancelled
  }

  /** The jobs after at most `n` predictor calls of a run. */
  function After(jobs: seq<Job>, ids: seq<nat>, w: World, r: nat, n: nat): (after: seq<Job>)
    requires AllWellFormed(jobs) && ValidIds(jobs, ids)
    ensures |after| == |jobs| && AllWellFormed(after)
    decreases n
  {
    if n == 0 || !RoundScored(jobs, ids, w, r) then jobs
    else After(RoundJobs(jobs, ids, w, r), Active(jobs, ids), w, r + 1, n - 1)
  }

  lemma {:induction false} AfterSettles(jobs: seq<Job>, ids: seq<nat>, w: World, r: nat, n: nat)
    requires AllWellFormed(jobs) && ValidIds(jobs, ids)
    ensures Settled(jobs, After(jobs, ids, w, r, n))
    decreases n
  {
    hide RoundJobs, RoundCounts, Active, RoundScored;
    if n > 0 && RoundScored(jobs, ids, w, r) {
      RoundSettles(jobs, ids, w, r);
      AfterSettles(RoundJobs(jobs, ids, w, r), Active(jobs, ids), w, r + 1, n - 1);
    }
  }

  lemma ValidParts(jobs: seq<Job>, a: seq<nat>, b: seq<nat>)
    requires ValidIds(jobs, a + b)
    ensures ValidIds(jobs, a) && ValidIds(jobs, b)
  {
    assert forall k :: 0 <= k < |a| ==> (a + b)[k] == a[k];
    assert forall k :: 0 <= k < |b| ==> (a + b)[|a| + k] == b[k];
  }

  lemma {:induction false} ActiveAppend(jobs: seq<Job>, a: seq<nat>, b: seq<nat>)
    requires ValidIds(jobs, a + b) && ValidIds(jobs, a) && ValidIds(jobs, b)
    ensures Active(jobs, a + b) == Active(jobs, a) + Active(jobs, b)
  {
    var ab := a + b;
    if a == [] {
      assert ab == b;
      assert Active(jobs, a) == [];
      hide Active;
      assert [] + Active(jobs, b) == Active(jobs, b);
    } else {
      hide Active;
      assert ab[0] == a[0] && ab[1..] == a[1..] + b;
      ActiveStep(jobs, ab);
      ActiveStep(jobs, a);
      ActiveAppend(jobs, a[1..], b);
      Regroup(if jobs[a[0]].Live() then [a[0]] else [], Active(jobs, a[1..]), Active(jobs, b));
    }
  }

  lemma Regroup(x: seq<nat>, y: seq<nat>, z: seq<nat>)
    ensures x + (y + z) == x + y + z
  {
  }

  lemma ActiveStep(jobs: seq<Job>, ids: seq<nat>)
    requires ValidIds(jobs, ids) && ids != []
    ensures ValidIds(jobs, ids[1..])
    ensures Active(jobs, ids) == (if jobs[ids[0]].Live() then [ids[0]] else []) + Active(jobs, ids[1..])
  {
    assert [] + Active(jobs, ids[1..]) == Active(jobs, ids[1..]);
  }

  lemma {:induction false} BacklogDrops(jobs: seq<Job>, after: seq<Job>, ids: seq<nat>)
    requires AllWellFormed(jobs) && ValidIds(jobs, ids)
    requires Settled(jobs, after) && AllWellFormed(after)
    requires forall i :: 0 <= i < |jobs| ==> after[i].cursor >= jobs[i].cursor
    ensures Backlog(Unit, after, ids) <= Backlog(Unit, jobs, ids)
    ensures (exists id :: id in ids && jobs[id].Live() && after[id].cursor > jobs[id].cursor) ==>
      Backlog(Unit, after, ids) < Backlog(Unit, jobs, ids)
  {
    if ids != [] {
      BacklogDrops(jobs, after, ids[1..]);
      SumUnit(jobs[ids[0]].Rest());
      SumUnit(after[ids[0]].Rest());
    }
  }

  /** Every call that is answered advances the first active job that has pairs left. */
  lemma FirstJobAdvances(jobs: seq<Job>, ids: seq<nat>, w: World, r: nat)
    requires AllWellFormed(jobs) && ValidIds(jobs, ids)
    requires RoundScored(jobs, ids, w, r)
    ensures var active := Active(jobs, ids);
      var k := FirstUnsent(jobs, active);
      k < |active| && RoundJobs(jobs, ids, w, r)[active[k]].cursor > jobs[active[k]].cursor
  {
    var active, counts := Active(jobs, ids), RoundCounts(jobs, ids, w, r);
    var k := FirstUnsent(jobs, active);
    assert Advanced(jobs, active, counts, RoundJobs(jobs, ids, w, r));
    assert RoundBatch(jobs, ids, w, r) != [];
    hide TakeCount, Counts, Active, Backlog, Scatter, RoundJobs, RoundScored;
    if k == |active| {
      NothingLeftNothingSent(jobs, active, counts);
    } else {
      PackingStartsWithFirst(jobs, active, k, w.caps(r));
    }
  }

  /** A live job with pairs at the head of the list is sent from. */
  lemma HeadIsSent(jobs: seq<Job>, ids: seq<nat>, w: World, r: nat)
    requires AllWellFormed(jobs) && ValidIds(jobs, ids)
    requires Active(jobs, ids) != [] && jobs[Active(jobs, ids)[0]].pairs != []
    ensures RoundBatch(jobs, ids, w, r) != []
    ensures FirstUnsent(jobs, Active(jobs, ids)) == 0
  {
    hide TakeCount, Counts, Active, Backlog, Scatter;
    var active := Active(jobs, ids);
    assert active[0] in active && jobs[active[0]].Live() && jobs[active[0]].WellFormed();
    PackingStartsWithFirst(jobs, active, 0, w.caps(r));
  }

  lemma HeadBacklog(jobs: seq<Job>, ids: seq<nat>)
    requires AllWellFormed(jobs) && ValidIds(jobs, ids)
    requires ids != [] && jobs[ids[0]].Live() && jobs[ids[0]].pairs != []
    ensures Backlog(Unit, jobs, ids) > 0
  {
    assert jobs[ids[0]].WellFormed();
    SumUnit(jobs[ids[0]].Rest());
  }

  /** No starvation: with non-empty jobs and a predictor that answers the calls it gets, the jobs `first`
      at the head of the list are all done after at most as many calls as they have pairs left,
      however many jobs wait behind them and whatever is cancelled. */
  lemma {:induction false} NoStarvation(jobs: seq<Job>, first: seq<nat>, others: seq<nat>, w: World, r: nat, n: nat)
    requires AllWellFormed(jobs) && ValidIds(jobs, first + others)
    requires ValidIds(jobs, first)
    requires AnsweredRounds(jobs, first + others, w, r, n)
    requires forall id :: id in first ==> jobs[id].pairs != []
    requires n >= Backlog(Unit, jobs, first)
    ensures forall id :: id in first ==> !After(jobs, first + others, w, r, n)[id].Live()
    decreases n
  {
    hide RoundScored, RoundJobs, RoundCounts, RoundBatch, Active, Backlog, AnsweredRounds, After, Settled;
    var ids := first + others;
    ValidParts(jobs, first, others);
    ActiveAppend(jobs, first, others);
    var mine, rest := Active(jobs, first), Active(jobs, others);
    AfterSettles(jobs, ids, w, r, n);
    if mine != [] {
      assert Active(jobs, ids)[0] == mine[0] && mine[0] in mine;
      HeadIsSent(jobs, ids, w, r);
      BacklogActive(Unit, jobs, first);
      HeadBacklog(jobs, mine);
      OneAnswer(jobs, ids, w, r, n);
      FirstJobAdvances(jobs, ids, w, r);
      var next := RoundJobs(jobs, ids, w, r);
      RoundSettles(jobs, ids, w, r);
      BacklogDrops(jobs, next, mine);
      SettledPairs(jobs, next);
      NoStarvation(next, mine, rest, w, r + 1, n - 1);
    }
    forall id | id in first ensures !After(jobs, ids, w, r, n)[id].Live() {
      if jobs[id].Live() {
        assert id in mine;
      } else {
        SettledAt(jobs, After(jobs, ids, w, r, n), id);
      }
    }
  }

  lemma OneAnswer(jobs: seq<Job>, ids: seq<nat>, w: World, r: nat, n: nat)
    requires AllWellFormed(jobs) && ValidIds(jobs, ids)
    requires n > 0 && AnsweredRounds(jobs, ids, w, r, n) && RoundBatch(jobs, ids, w, r) != []
    ensures RoundScored(jobs, ids, w, r)
    ensures AnsweredRounds(RoundJobs(jobs, ids, w, r), Active(jobs, ids), w, r + 1, n - 1)
    ensures After(jobs, ids, w, r, n) == After(RoundJobs(jobs, ids, w, r), Active(jobs, ids), w, r + 1, n - 1)
  {
    hide RoundJobs, RoundBatch, Active, RoundScored, Backlog;
  }

  /** `After` counts the calls of the run itself: once as many calls as the run makes have
      returned, its jobs are the final ones. */
  lemma {:induction false} AfterIsProcess(jobs: seq<Job>, ids: seq<nat>, w: World, r: nat)
    requires AllWellFormed(jobs) && ValidIds(jobs, ids)
    requires Process(jobs, ids, w, r).exit in {Finished, NothingToSend}
    ensures After(jobs, ids, w, r, |Process(jobs, ids, w, r).calls|) == Process(jobs, ids, w, r).jobs
    decreases Backlog(Unit, jobs, ids)
  {
    hide Process, RoundJobs, RoundCounts, Backlog, Active, RoundBatch, RoundReply;
    var active := Active(jobs, ids);
    ProcessStep(jobs, ids, w, r);
    if active != [] && RoundScored(jobs, ids, w, r) {
      var next := RoundJobs(jobs, ids, w, r);
      AfterIsProcess(next, active, w, r + 1);
      var k := |Process(next, active, w, r + 1).calls|;
      assert After(jobs, ids, w, r, k + 1) == After(next, active, w, r + 1, k);
    } else {
      assert After(jobs, ids, w, r, 0) == jobs;
    }
  }

  /** What a scored round does to its k-th job. */
  lemma RoundMoves(jobs: seq<Job>, ids: seq<nat>, w: World, r: nat, k: nat)
    requires AllWellFormed(jobs) && ValidIds(jobs, ids)
    requires RoundScored(jobs, ids, w, r) && k < |Active(jobs, ids)|
    ensures |RoundCounts(jobs, ids, w, r)| == |Active(jobs, ids)|
    ensures var id, count := Active(jobs, ids)[k], RoundCounts(jobs, ids, w, r)[k];
      && jobs[id].WellFormed() && jobs[id].Live() && count <= |jobs[id].Rest()|
      && Moved(CancelSome(jobs, RoundReply(jobs, ids, w, r).cancelled)[id], RoundJobs(jobs, ids, w, r)[id], count)
  {
    var active, counts := Active(jobs, ids), RoundCounts(jobs, ids, w, r);
    var reply := RoundReply(jobs, ids, w, r);
    assert active[k] in active;
    assert counts[k] <= |jobs[active[k]].Rest()|;
    hide TakeCount, Counts, Batch, Backlog, Active, Scatter, Moved;
    BatchLength(jobs, active, counts);
    RoundAdvances(jobs, active, counts, reply.cancelled, reply.answer.values);
  }

  lemma MovedOutcome(before: Job, after: Job, count: nat)
    requires before.WellFormed() && before.Live() && count <= |before.Rest()| && Moved(before, after, count)
    ensures after.future.Pending? || after.future.Resolved?
    ensures before.pairs == [] ==> after.future.Pending?
  {
  }

  lemma RoundResolves(jobs: seq<Job>, ids: seq<nat>, w: World, r: nat)
    requires AllWellFormed(jobs) && ValidIds(jobs, ids)
    requires RoundScored(jobs, ids, w, r) && NobodyGivesUp(jobs, ids, w, r)
    ensures var active, after := Active(jobs, ids), RoundJobs(jobs, ids, w, r);
      forall id :: id in active ==>
        && (after[id].future.Pending? || after[id].future.Resolved?)
        && (jobs[id].pairs == [] ==> after[id].future.Pending?)
  {
    hide RoundCounts, RoundJobs, RoundScored, RoundReply, RoundBatch, Active, Moved, AllWellFormed, Advanced, Backlog;
    var active, after := Active(jobs, ids), RoundJobs(jobs, ids, w, r);
    forall id | id in active
      ensures after[id].future.Pending? || after[id].future.Resolved?
      ensures jobs[id].pairs == [] ==> after[id].future.Pending?
    {
      var k :| 0 <= k < |active| && active[k] == id;
      RoundMoves(jobs, ids, w, r, k);
      MovedOutcome(jobs[id], after[id], RoundCounts(jobs, ids, w, r)[k]);
    }
  }

  /** The live jobs that have pairs have resolved with their own scores, the others are pending. */
  ghost predicate AllResolved(jobs: seq<Job>, ids: seq<nat>, after: seq<Job>, f: Pair -> Score)
    requires ValidIds(jobs, ids) && |after| == |jobs|
  {
    forall id :: id in ids && jobs[id].Live() ==>
      after[id].future == if jobs[id].pairs == [] then Pending else Resolved(Map(f, jobs[id].pairs))
  }

  /** Undisturbed, a run resolves exactly the jobs that have pairs, each with its own full score
      list; a job without pairs stays undone forever. */
  lemma {:induction false} UndisturbedRun(jobs: seq<Job>, ids: seq<nat>, w: World, r: nat, f: Pair -> Score)
    requires AllWellFormed(jobs) && ValidIds(jobs, ids) && AllFaithful(jobs, f)
    ensures Undisturbed(jobs, ids, w, r) && HonestRounds(jobs, ids, w, r, f) ==>
      var t := Process(jobs, ids, w, r);
      t.exit in {Finished, NothingToSend} && AllResolved(jobs, ids, t.jobs, f)
    decreases Backlog(Unit, jobs, ids)
  {
    hide Process, RoundJobs, RoundBatch, RoundScored, RoundCounts, Backlog, Active, Undisturbed, HonestRounds, HonestRound,
         NobodyGivesUp, AllFaithful, AllResolved, Settled;
    if Undisturbed(jobs, ids, w, r) && HonestRounds(jobs, ids, w, r, f) {
      var active := Active(jobs, ids);
      ProcessStep(jobs, ids, w, r);
      UndisturbedStep(jobs, ids, w, r, f);
      if active != [] && RoundScored(jobs, ids, w, r) {
        RoundFaithful(jobs, ids, w, r, f);
        UndisturbedRun(RoundJobs(jobs, ids, w, r), active, w, r + 1, f);
        ResolvedOn(jobs, ids, w, r, f);
      } else {
        NobodyLeft(jobs, ids, w, r, f);
      }
    }
  }

  /** What the rest of the run resolves, and what this round did, is what the run resolves. */
  lemma ResolvedOn(jobs: seq<Job>, ids: seq<nat>, w: World, r: nat, f: Pair -> Score)
    requires AllWellFormed(jobs) && ValidIds(jobs, ids) && AllFaithful(jobs, f) && HonestRounds(jobs, ids, w, r, f)
    requires Active(jobs, ids) != [] && RoundScored(jobs, ids, w, r) && NobodyGivesUp(jobs, ids, w, r)
    requires AllResolved(RoundJobs(jobs, ids, w, r), Active(jobs, ids),
                         Process(RoundJobs(jobs, ids, w, r), Active(jobs, ids), w, r + 1).jobs, f)
    ensures AllResolved(jobs, ids, Process(jobs, ids, w, r).jobs, f)
  {
    hide Process, RoundJobs, RoundBatch, RoundScored, RoundCounts, Backlog, Active, HonestRounds, NobodyGivesUp, AllFaithful, Settled;
    var active, next, after := Active(jobs, ids), RoundJobs(jobs, ids, w, r), Process(jobs, ids, w, r).jobs;
    ProcessStep(jobs, ids, w, r);
    ProcessFaithful(jobs, ids, w, r, f);
    ProcessSettles(next, active, w, r + 1);
    RoundResolves(jobs, ids, w, r);
    RoundSettles(jobs, ids, w, r);
    SettledPairs(jobs, next);
    forall id | id in ids && jobs[id].Live()
      ensures after[id].future == if jobs[id].pairs == [] then Pending else Resolved(Map(f, jobs[id].pairs))
    {
      assert id in active;
      SettledAt(next, after, id);
    }
  }

  lemma UndisturbedStep(jobs: seq<Job>, ids: seq<nat>, w: World, r: nat, f: Pair -> Score)
    requires AllWellFormed(jobs) && ValidIds(jobs, ids)
    requires Undisturbed(jobs, ids, w, r) && HonestRounds(jobs, ids, w, r, f)
    ensures RoundBatch(jobs, ids, w, r) == [] || RoundScored(jobs, ids, w, r)
    ensures RoundScored(jobs, ids, w, r) ==>
      var next, active := RoundJobs(jobs, ids, w, r), Active(jobs, ids);
      && NobodyGivesUp(jobs, ids, w, r) && HonestRound(jobs, ids, w, r, f)
      && Undisturbed(next, active, w, r + 1) && HonestRounds(next, active, w, r + 1, f)
  {
    hide RoundJobs, RoundBatch, RoundCounts, Backlog, Active, NobodyGivesUp, HonestRound, AllWellFormed, Advanced;
    assert RoundScored(jobs, ids, w, r) ==> RoundBatch(jobs, ids, w, r) != [];
  }

  lemma SettledPairs(before: seq<Job>, after: seq<Job>)
    requires Settled(before, after)
    ensures |after| == |before| && forall i :: 0 <= i < |before| ==> after[i].pairs == before[i].pairs
  {
  }

  lemma SettledAt(before: seq<Job>, after: seq<Job>, id: nat)
    requires Settled(before, after) && id < |before|
    ensures |after| == |before| && after[id].pairs == before[id].pairs
    ensures !before[id].Live() ==> after[id].future == before[id].future
  {
  }

  /** When nothing is left to send, a live job has no pairs, and is pending. */
  lemma NobodyLeft(jobs: seq<Job>, ids: seq<nat>, w: World, r: nat, f: Pair -> Score)
    requires AllWellFormed(jobs) && ValidIds(jobs, ids) && (Active(jobs, ids) == [] || RoundBatch(jobs, ids, w, r) == [])
    ensures AllResolved(jobs, ids, jobs, f)
  {
    hide RoundBatch, Active;
    forall id | id in ids && jobs[id].Live() ensures jobs[id].pairs == [] {
      assert id in Active(jobs, ids);
      UnsentWhenNothingToSend(jobs, ids, w, r, id);
    }
  }
}
