/** Every stretch of work of the batcher's worker, from a launch to the moment it is no longer awaiting
    a reply, is one run of `Batching.Process`, whatever else happens in between. The call-count bound
    and the absence of starvation carry over to the step system. */
module BatcherRefinement {
  import opened Batching
  import opened BatchingOutcomes
  import opened BatchingProperties
  import opened BatcherRuns

  /* ---------- a stretch of awaiting ---------- */

  /** The state in which the worker first is not awaiting a reply, or the last one. */
  function StretchEnd(s: State, steps: seq<Step>): (t: State)
    requires Inv(s)
    ensures Inv(t)
    decreases |steps|
  {
    if steps == [] || !s.worker.Awaiting? then s else StretchEnd(Next(s, steps[0]), steps[1..])
  }

  predicate IsReply(step: Step) {
    step.Answered? && !step.answer.WorkerCancelled?
  }

  /** The batches sent. */
  function Sent(s: State, steps: seq<Step>): seq<seq<Pair>>
    requires Inv(s)
    decreases |steps|
  {
    if !s.worker.Awaiting? then []
    else if steps == [] then [s.worker.batch]
    else if IsReply(steps[0]) || steps[0].CloseBegin? then [s.worker.batch] + Sent(Next(s, steps[0]), steps[1..])
    else Sent(Next(s, steps[0]), steps[1..])
  }

  /** The jobs accepted meanwhile. */
  function Later(s: State, steps: seq<Step>): seq<Job>
    requires Inv(s)
    decreases |steps|
  {
    if steps == [] || !s.worker.Awaiting? then []
    else
      (if steps[0].Submit? && Accepts(s) then [Job(steps[0].pairs, 0, [], Pending)] else [])
      + Later(Next(s, steps[0]), steps[1..])
  }

  /** The replies, each with the clients that gave up before it; `gone` are those since the last one.
      A close is an await that ends with the worker's cancellation. */
  function Replies(s: State, gone: set<nat>, steps: seq<Step>): seq<Reply>
    requires Inv(s)
    decreases |steps|
  {
    if steps == [] || !s.worker.Awaiting? then []
    else
      var step, next := steps[0], Next(s, steps[0]);
      if IsReply(step) then [Reply(gone, step.answer)] + Replies(next, {}, steps[1..])
      else if step.CloseBegin? then [Reply(gone, WorkerCancelled)]
      else if step.GiveUp? && step.job < |s.jobs| then Replies(next, gone + {step.job}, steps[1..])
      else Replies(next, gone, steps[1..])
  }

  /** The caps of the rounds after the current one. */
  function NextCaps(s: State, steps: seq<Step>): seq<Caps>
    requires Inv(s)
    decreases |steps|
  {
    if steps == [] || !s.worker.Awaiting? then []
    else
      (if IsReply(steps[0]) then [steps[0].next] else []) + NextCaps(Next(s, steps[0]), steps[1..])
  }

  function WorldOf(caps: seq<Caps>, replies: seq<Reply>): World
    requires caps != []
  {
    World((r: nat) => if r < |caps| then caps[r] else caps[|caps| - 1],
          (r: nat, ps: seq<Pair>) => if r < |replies| then replies[r] else Reply({}, Raised))
  }

  /* ---------- jobs at the end of the list do not matter ---------- */

  lemma {:induction false} ActiveFrame(jobs: seq<Job>, more: seq<Job>, ids: seq<nat>)
    requires ValidIds(jobs, ids) && ValidIds(jobs + more, ids)
    ensures Active(jobs + more, ids) == Active(jobs, ids)
  {
    if ids != [] {
      ActiveFrame(jobs, more, ids[1..]);
    }
  }

  ghost predicate SameJobs(jobs: seq<Job>, jobs': seq<Job>, ids: seq<nat>)
    requires ValidIds(jobs, ids) && ValidIds(jobs', ids)
  {
    forall k :: 0 <= k < |ids| ==> jobs[ids[k]] == jobs'[ids[k]]
  }

  lemma SameTail(jobs: seq<Job>, jobs': seq<Job>, ids: seq<nat>)
    requires ValidIds(jobs, ids) && ValidIds(jobs', ids) && SameJobs(jobs, jobs', ids) && ids != []
    ensures jobs[ids[0]] == jobs'[ids[0]]
    ensures ValidIds(jobs, ids[1..]) && ValidIds(jobs', ids[1..]) && SameJobs(jobs, jobs', ids[1..])
  {
  }

  /** What the first job contributes, and the rest of the counts. */
  lemma CountsStep(jobs: seq<Job>, active: seq<nat>, n: nat, t: nat, caps: Caps) returns (job: Job, c: nat, used: nat)
    requires AllWellFormed(jobs) && ValidIds(jobs, active) && active != []
    ensures job == jobs[active[0]] && job.cursor <= |job.pairs|
    ensures c == TakeCount(job.Rest(), n, t, caps) && used == t + Tokens(job.Rest()[..c])
    ensures ValidIds(jobs, active[1..])
    ensures Counts(jobs, active, n, t, caps) == [c] + Counts(jobs, active[1..], n + c, used, caps)
  {
    hide TakeCount, Tokens;
    job := jobs[active[0]];
    c := TakeCount(job.Rest(), n, t, caps);
    used := t + Tokens(job.Rest()[..c]);
  }

  lemma {:induction false} CountsFrame(jobs: seq<Job>, jobs': seq<Job>, active: seq<nat>, n: nat, t: nat, caps: Caps)
    requires AllWellFormed(jobs) && AllWellFormed(jobs') && ValidIds(jobs, active) && ValidIds(jobs', active)
    requires SameJobs(jobs, jobs', active)
    ensures Counts(jobs, active, n, t, caps) == Counts(jobs', active, n, t, caps)
    decreases |active|
  {
    if active != [] {
      hide TakeCount, Tokens, Counts, AllWellFormed, SameJobs;
      SameTail(jobs, jobs', active);
      var job, c, used := CountsStep(jobs, active, n, t, caps);
      var job', c', used' := CountsStep(jobs', active, n, t, caps);
      hide ValidIds;
      CountsFrame(jobs, jobs', active[1..], n + c, used, caps);
    }
  }

  lemma {:induction false} ScatterFrame(jobs: seq<Job>, more: seq<Job>, active: seq<nat>, counts: seq<nat>, scores: seq<Score>)
    requires ValidCounts(jobs, active, counts) && ValidCounts(jobs + more, active, counts)
    requires |scores| == Total(counts)
    ensures Scatter(jobs + more, active, counts, scores) == Scatter(jobs, active, counts, scores) + more
    decreases |active|
  {
    if active != [] {
      var chunk := scores[..counts[0]];
      var moved := jobs[active[0] := Advance(jobs[active[0]], chunk)];
      assert (jobs + more)[active[0] := Advance((jobs + more)[active[0]], chunk)] == moved + more;
      MovedStaysValid(jobs, active, counts, chunk);
      MovedStaysValid(jobs + more, active, counts, chunk);
      hide Advance, ValidCounts;
      ScatterFrame(moved, more, active[1..], counts[1..], scores[counts[0]..]);
    }
  }

  lemma {:induction false} BacklogFrame(m: Pair -> nat, jobs: seq<Job>, more: seq<Job>, ids: seq<nat>)
    requires AllWellFormed(jobs) && AllWellFormed(jobs + more) && ValidIds(jobs, ids) && ValidIds(jobs + more, ids)
    ensures Backlog(m, jobs + more, ids) == Backlog(m, jobs, ids)
  {
    hide Sum;
    if ids != [] {
      BacklogFrame(m, jobs, more, ids[1..]);
    }
  }

  /* ---------- rounds are numbered from anywhere ---------- */

  ghost predicate Shifted(w: World, w': World) {
    && (forall r: nat :: w.caps(r + 1) == w'.caps(r))
    && (forall r: nat, ps: seq<Pair> :: w.predict(r + 1, ps) == w'.predict(r, ps))
  }

  lemma {:induction false} ProcessShift(jobs: seq<Job>, ids: seq<nat>, w: World, w': World, r: nat)
    requires AllWellFormed(jobs) && ValidIds(jobs, ids) && Shifted(w, w')
    ensures Process(jobs, ids, w, r + 1) == Process(jobs, ids, w', r)
    decreases Backlog(Unit, jobs, ids)
  {
    hide Process, Shifted, RoundJobs, RoundBatch, RoundScored, RoundReply, RoundCounts, Active, CancelSome, FailAll, Advanced,
         Backlog, AllWellFormed;
    SameRoundShifted(jobs, ids, w, w', r);
    ProcessStep(jobs, ids, w, r + 1);
    ProcessStep(jobs, ids, w', r);
    if RoundScored(jobs, ids, w', r) {
      ProcessShift(RoundJobs(jobs, ids, w', r), Active(jobs, ids), w, w', r + 1);
    }
  }

  lemma SameRoundShifted(jobs: seq<Job>, ids: seq<nat>, w: World, w': World, r: nat)
    requires AllWellFormed(jobs) && ValidIds(jobs, ids) && Shifted(w, w')
    ensures RoundBatch(jobs, ids, w, r + 1) == RoundBatch(jobs, ids, w', r)
    ensures RoundReply(jobs, ids, w, r + 1) == RoundReply(jobs, ids, w', r)
    ensures RoundScored(jobs, ids, w, r + 1) <==> RoundScored(jobs, ids, w', r)
    ensures RoundScored(jobs, ids, w', r) ==> RoundJobs(jobs, ids, w, r + 1) == RoundJobs(jobs, ids, w', r)
  {
    hide Active, Counts, Batch, Scatter, Backlog, Advanced;
  }

  /* ---------- one step of the system, one piece of a round ---------- */

  /** The batch in flight is that of a round over the jobs as they were when it was sent, with the jobs
      still to come at their end; `gone` are the clients that have given up since. */
  ghost predicate Sending(s: State, jobs: seq<Job>, ids: seq<nat>, gone: set<nat>, steps: seq<Step>) {
    && Inv(s) && s.worker.Awaiting?
    && AllWellFormed(jobs) && ValidIds(jobs, ids)
    && s.jobs + Later(s, steps) == CancelSome(jobs, gone)
    && var w := s.worker;
       && w.active == Active(jobs, ids)
       && w.counts == Counts(jobs, w.active, 0, 0, w.caps)
       && w.batch == Batch(jobs, w.active, w.counts)
       && w.active != [] && w.batch != []
  }

  /** While the worker awaits, all other steps leave it alone. */
  lemma AwaitStep(s: State, step: Step)
    requires Inv(s) && s.worker.Awaiting? && !IsReply(step) && !step.CloseBegin?
    ensures var t := Next(s, step);
      && t.worker == s.worker
      && t.jobs == if step.GiveUp? && step.job < |s.jobs| then s.jobs[step.job := Cancel(s.jobs[step.job])]
                   else if step.Submit? && Accepts(s) then s.jobs + [Job(step.pairs, 0, [], Pending)]
                   else s.jobs
  {
    hide Inv;
  }

  lemma CancelOneMore(jobs: seq<Job>, gone: set<nat>, id: nat, now: seq<Job>, more: seq<Job>)
    requires now + more == CancelSome(jobs, gone) && id < |now|
    ensures now[id := Cancel(now[id])] + more == CancelSome(jobs, gone + {id})
  {
    var after := now[id := Cancel(now[id])] + more;
    forall i | 0 <= i < |jobs| ensures after[i] == CancelSome(jobs, gone + {id})[i] {
      assert (now + more)[i] == CancelSome(jobs, gone)[i];
    }
  }

  function Gone(s: State, gone: set<nat>, step: Step): set<nat> {
    if step.GiveUp? && step.job < |s.jobs| then gone + {step.job} else gone
  }

  function Accepted(s: State, step: Step): seq<Job> {
    if step.Submit? && Accepts(s) then [Job(step.pairs, 0, [], Pending)] else []
  }

  lemma LaterUnfolds(s: State, steps: seq<Step>)
    requires Inv(s) && s.worker.Awaiting? && steps != []
    ensures Later(s, steps) == Accepted(s, steps[0]) + Later(Next(s, steps[0]), steps[1..])
  {
    hide Inv, Next;
  }

  lemma StillSending(s: State, jobs: seq<Job>, ids: seq<nat>, gone: set<nat>, steps: seq<Step>)
    requires Sending(s, jobs, ids, gone, steps) && steps != []
    requires !IsReply(steps[0]) && !steps[0].CloseBegin?
    ensures Sending(Next(s, steps[0]), jobs, ids, Gone(s, gone, steps[0]), steps[1..])
  {
    hide Inv, Later, Next, Active, Counts, Batch, AllWellFormed, ValidIds, Accepts, CancelSome, Cancel;
    var step, next := steps[0], Next(s, steps[0]);
    AwaitStep(s, step);
    LaterUnfolds(s, steps);
    var more := Later(next, steps[1..]);
    if step.GiveUp? && step.job < |s.jobs| {
      assert [] + more == more;
      CancelOneMore(jobs, gone, step.job, s.jobs, more);
    } else if step.Submit? && Accepts(s) {
      var job := Job(step.pairs, 0, [], Pending);
      assert (s.jobs + [job]) + more == s.jobs + ([job] + more);
    } else {
      assert [] + more == more;
    }
  }

  /** The round that `Sending` speaks of, in a world whose first caps and reply are these. */
  lemma SentRound(s: State, jobs: seq<Job>, ids: seq<nat>, gone: set<nat>, steps: seq<Step>, w: World, answer: Answer)
    requires Sending(s, jobs, ids, gone, steps)
    requires w.caps(0) == s.worker.caps && w.predict(0, s.worker.batch) == Reply(gone, answer)
    ensures Active(jobs, ids) == s.worker.active && RoundBatch(jobs, ids, w, 0) == s.worker.batch
    ensures RoundReply(jobs, ids, w, 0) == Reply(gone, answer)
    ensures CancelSome(jobs, gone) == s.jobs + Later(s, steps)
    ensures RoundScored(jobs, ids, w, 0) <==> answer.Scores? && |answer.values| == |s.worker.batch|
  {
    hide Inv, Active, Counts, Batch, CancelSome;
  }

  /** The run leaves the jobs as this state has them, and was interrupted exactly when a close is what
      ended the stretch. */
  predicate EndsAs(t: Trace, end: State) {
    t.jobs == end.jobs && (t.exit == Interrupted <==> end.worker.Stopping?)
  }

  lemma RunEnds(s: State, steps: seq<Step>)
    requires Inv(s) && !s.worker.Awaiting?
    ensures StretchEnd(s, steps) == s && Sent(s, steps) == [] && Later(s, steps) == []
    ensures Replies(s, {}, steps) == [] && NextCaps(s, steps) == []
  {
  }

  lemma SentUnfolds(s: State, steps: seq<Step>)
    requires Inv(s) && s.worker.Awaiting? && steps != []
    ensures var next := Next(s, steps[0]);
      && StretchEnd(s, steps) == StretchEnd(next, steps[1..])
      && Sent(s, steps) == (if IsReply(steps[0]) || steps[0].CloseBegin? then [s.worker.batch] else []) + Sent(next, steps[1..])
  {
    hide Inv, Next;
    assert [] + Sent(Next(s, steps[0]), steps[1..]) == Sent(Next(s, steps[0]), steps[1..]);
  }

  /** What a reply that is no score list, or a close, does. */
  lemma LastStep(s: State, step: Step)
    requires Inv(s) && s.worker.Awaiting?
    requires step.CloseBegin? || (IsReply(step) && !(step.answer.Scores? && |step.answer.values| == |s.worker.batch|))
    ensures var next := Next(s, step);
      && next.jobs == (if step.CloseBegin? then s.jobs else FailAll(s.jobs, s.worker.active))
      && (if step.CloseBegin? then next.worker.Stopping? else next.worker.Idle?)
  {
    hide Inv, Scatter, Send;
  }

  /** A reply that is no score list, or a close, ends the stretch as it ends the run. */
  lemma LastRound(s: State, jobs: seq<Job>, ids: seq<nat>, gone: set<nat>, steps: seq<Step>, w: World)
    requires Sending(s, jobs, ids, gone, steps) && steps != []
    requires w.caps(0) == s.worker.caps
    requires
      || (steps[0].CloseBegin? && w.predict(0, s.worker.batch) == Reply(gone, WorkerCancelled))
      || (IsReply(steps[0]) && w.predict(0, s.worker.batch) == Reply(gone, steps[0].answer)
          && !(steps[0].answer.Scores? && |steps[0].answer.values| == |s.worker.batch|))
    ensures var t := Process(jobs, ids, w, 0);
      t.calls == Sent(s, steps) && EndsAs(t, StretchEnd(s, steps))
  {
    hide Inv, Process, Active, RoundBatch, RoundReply, RoundScored, Next, StretchEnd, Later, Sent, Counts, Batch,
         AllWellFormed, ValidIds, CancelSome, FailAll;
    var step, next := steps[0], Next(s, steps[0]);
    SentRound(s, jobs, ids, gone, steps, w, if step.CloseBegin? then WorkerCancelled else step.answer);
    ProcessStep(jobs, ids, w, 0);
    LastStep(s, step);
    SentUnfolds(s, steps);
    LaterUnfolds(s, steps);
    RunEnds(next, steps[1..]);
    assert Later(s, steps) == [] && s.jobs + [] == s.jobs && [s.worker.batch] + [] == [s.worker.batch];
  }

  /** What a score list does. */
  lemma ScoresStep(s: State, step: Step)
    requires Inv(s) && s.worker.Awaiting? && IsReply(step)
    requires step.answer.Scores? && |step.answer.values| == |s.worker.batch|
    ensures var w := s.worker;
      && ValidCounts(s.jobs, w.active, w.counts) && |step.answer.values| == Total(w.counts)
      && var moved := Scatter(s.jobs, w.active, w.counts, step.answer.values);
         && Next(s, step) == Send(s.(jobs := moved), w.held, w.active, step.next)
         && Next(s, step).jobs == moved
  {
    hide Scatter, Batch;
    BatchLength(s.jobs, s.worker.active, s.worker.counts);
  }

  /** A score list takes the system, as it takes the function, to the next round. */
  lemma NextRound(s: State, jobs: seq<Job>, ids: seq<nat>, gone: set<nat>, steps: seq<Step>, w: World)
    requires Sending(s, jobs, ids, gone, steps) && steps != [] && IsReply(steps[0])
    requires w.caps(0) == s.worker.caps && w.predict(0, s.worker.batch) == Reply(gone, steps[0].answer)
    requires steps[0].answer.Scores? && |steps[0].answer.values| == |s.worker.batch|
    ensures RoundScored(jobs, ids, w, 0)
    ensures RoundJobs(jobs, ids, w, 0) == Next(s, steps[0]).jobs + Later(Next(s, steps[0]), steps[1..])
  {
    hide Inv, Scatter, Next, Later, CancelSome, Send, Active, Counts, Batch, AllWellFormed, ValidIds, ValidCounts, Total;
    var worker, values := s.worker, steps[0].answer.values;
    SentRound(s, jobs, ids, gone, steps, w, steps[0].answer);
    ScoresStep(s, steps[0]);
    LaterUnfolds(s, steps);
    var more := Later(s, steps);
    assert [] + Later(Next(s, steps[0]), steps[1..]) == Later(Next(s, steps[0]), steps[1..]);
    RoundIsScatter(jobs, ids, w, gone, values);
    ScatterFrame(s.jobs, more, worker.active, worker.counts, values);
  }

  lemma RoundIsScatter(jobs: seq<Job>, ids: seq<nat>, w: World, gone: set<nat>, values: seq<Score>)
    requires AllWellFormed(jobs) && ValidIds(jobs, ids) && RoundScored(jobs, ids, w, 0)
    requires RoundReply(jobs, ids, w, 0) == Reply(gone, Scores(values))
    ensures var active, counts := Active(jobs, ids), RoundCounts(jobs, ids, w, 0);
      && ValidCounts(CancelSome(jobs, gone), active, counts) && |values| == Total(counts)
      && RoundJobs(jobs, ids, w, 0) == Scatter(CancelSome(jobs, gone), active, counts, values)
  {
    hide Active, Counts, Batch, Scatter, Backlog;
    var active, counts := Active(jobs, ids), RoundCounts(jobs, ids, w, 0);
    BatchLength(jobs, active, counts);
    RoundAdvances(jobs, active, counts, gone, values);
  }

  /* ---------- whole stretches ---------- */

  /** The batch a worker sends is that of a round over the longer list of jobs; it sends none exactly
      when there is none. */
  lemma SendOver(s: State, held: seq<nat>, candidates: seq<nat>, caps: Caps, more: seq<Job>)
    requires AllWellFormed(s.jobs) && ValidIds(s.jobs, candidates)
    requires AllWellFormed(s.jobs + more) && ValidIds(s.jobs + more, candidates)
    ensures var w := Send(s, held, candidates, caps).worker;
      var active := Active(s.jobs + more, candidates);
      var counts := Counts(s.jobs + more, active, 0, 0, caps);
      var batch := Batch(s.jobs + more, active, counts);
      if active == [] || batch == [] then w.Idle? else w == Awaiting(held, active, counts, batch, caps)
  {
    hide Counts, Batch;
    ActiveFrame(s.jobs, more, candidates);
    var active := Active(s.jobs, candidates);
    CountsFrame(s.jobs, s.jobs + more, active, 0, 0, caps);
    BatchFrame(s.jobs, s.jobs + more, active, Counts(s.jobs, active, 0, 0, caps));
  }

  lemma CancelNone(jobs: seq<Job>)
    ensures CancelSome(jobs, {}) == jobs
  {
  }

  /** A world that answers round by round as the clients and the predictor do in these steps. */
  ghost predicate Follows(w: World, s: State, gone: set<nat>, steps: seq<Step>)
    requires Inv(s) && s.worker.Awaiting?
  {
    && w.caps(0) == s.worker.caps
    && (forall r: nat :: r < |NextCaps(s, steps)| ==> w.caps(r + 1) == NextCaps(s, steps)[r])
    && (forall r: nat, ps: seq<Pair> :: r < |Replies(s, gone, steps)| ==> w.predict(r, ps) == Replies(s, gone, steps)[r])
  }

  function Rest(w: World): World {
    World((r: nat) => w.caps(r + 1), (r: nat, ps: seq<Pair>) => w.predict(r + 1, ps))
  }

  lemma FollowsOn(w: World, s: State, gone: set<nat>, steps: seq<Step>)
    requires Inv(s) && s.worker.Awaiting? && steps != [] && Follows(w, s, gone, steps)
    ensures var step, next := steps[0], Next(s, steps[0]);
      && (!IsReply(step) && !step.CloseBegin? && next.worker == s.worker ==> Follows(w, next, Gone(s, gone, step), steps[1..]))
      && (IsReply(step) ==> w.caps(1) == step.next && forall ps: seq<Pair> :: w.predict(0, ps) == Reply(gone, step.answer))
      && (IsReply(step) && next.worker.Awaiting? && next.worker.caps == step.next ==> Follows(Rest(w), next, {}, steps[1..]))
      && (step.CloseBegin? ==> forall ps: seq<Pair> :: w.predict(0, ps) == Reply(gone, WorkerCancelled))
  {
    hide Inv, Next;
    var step, next := steps[0], Next(s, steps[0]);
    var replies, caps := Replies(s, gone, steps), NextCaps(s, steps);
    if IsReply(step) {
      assert replies == [Reply(gone, step.answer)] + Replies(next, {}, steps[1..]);
      assert caps == [step.next] + NextCaps(next, steps[1..]);
      assert replies[0] == Reply(gone, step.answer) && caps[0] == step.next && w.caps(0 + 1) == caps[0];
      hide Replies, NextCaps;
      forall r: nat | r < |NextCaps(next, steps[1..])| ensures Rest(w).caps(r + 1) == NextCaps(next, steps[1..])[r] {
        assert caps[r + 1] == NextCaps(next, steps[1..])[r];
      }
      forall r: nat, ps: seq<Pair> | r < |Replies(next, {}, steps[1..])|
        ensures Rest(w).predict(r, ps) == Replies(next, {}, steps[1..])[r]
      {
        assert replies[r + 1] == Replies(next, {}, steps[1..])[r];
      }
    } else if step.CloseBegin? {
      assert replies[0] == Reply(gone, WorkerCancelled);
    } else {
      assert replies == Replies(next, Gone(s, gone, step), steps[1..]);
      assert caps == NextCaps(next, steps[1..]) by { assert [] + NextCaps(next, steps[1..]) == NextCaps(next, steps[1..]); }
    }
  }

  /** From a batch in flight to the end of the stretch. */
  lemma {:induction false} AwaitingIsProcess(s: State, jobs: seq<Job>, ids: seq<nat>, gone: set<nat>, steps: seq<Step>, w: World)
    requires Sending(s, jobs, ids, gone, steps) && Follows(w, s, gone, steps)
    requires !StretchEnd(s, steps).worker.Awaiting?
    ensures var t := Process(jobs, ids, w, 0);
      t.calls == Sent(s, steps) && EndsAs(t, StretchEnd(s, steps))
    decreases |steps|
  {
    if steps != [] {
      var step, next := steps[0], Next(s, steps[0]);
      FollowsOn(w, s, gone, steps);
      SentUnfolds(s, steps);
      hide Inv, Process, Next, StretchEnd, Later, Sent, Follows, Active, Counts, Batch, RoundJobs, CancelSome, Rest;
      if !IsReply(step) && !step.CloseBegin? {
        AwaitStep(s, step);
        StillSending(s, jobs, ids, gone, steps);
        AwaitingIsProcess(next, jobs, ids, Gone(s, gone, step), steps[1..], w);
      } else if IsReply(step) && step.answer.Scores? && |step.answer.values| == |s.worker.batch| {
        AfterScores(s, jobs, ids, gone, steps, w);
      } else {
        LastRound(s, jobs, ids, gone, steps, w);
      }
    }
  }

  /** From a reply with scores to the end of the stretch. */
  lemma {:induction false} AfterScores(s: State, jobs: seq<Job>, ids: seq<nat>, gone: set<nat>, steps: seq<Step>, w: World)
    requires Sending(s, jobs, ids, gone, steps) && Follows(w, s, gone, steps) && steps != [] && IsReply(steps[0])
    requires steps[0].answer.Scores? && |steps[0].answer.values| == |s.worker.batch|
    requires !StretchEnd(s, steps).worker.Awaiting?
    ensures var t := Process(jobs, ids, w, 0);
      t.calls == Sent(s, steps) && EndsAs(t, StretchEnd(s, steps))
    decreases |steps|, 0
  {
    hide Inv, Process, Next, StretchEnd, Later, Sent, Follows, Active, Counts, Batch, RoundJobs, RoundBatch, RoundScored,
         CancelSome, Rest;
    var step, next := steps[0], Next(s, steps[0]);
    var active := s.worker.active;
    SentUnfolds(s, steps);
    FollowsAtFirst(s, jobs, ids, gone, steps, w);
    NextRound(s, jobs, ids, gone, steps, w);
    SentRound(s, jobs, ids, gone, steps, w, step.answer);
    OneRoundDown(jobs, ids, w);
    var after := RoundJobs(jobs, ids, w, 0);
    var more := Later(next, steps[1..]);
    NextSending(s, step, next, after, more);
    FollowsOn(w, s, gone, steps);
    if next.worker.Awaiting? {
      CancelNone(after);
      AwaitingIsProcess(next, after, active, {}, steps[1..], Rest(w));
    } else {
      RunEnds(next, steps[1..]);
      RestStarts(w, step.next);
      NothingSent(after, active, Rest(w), step.next);
      assert next.jobs + [] == next.jobs;
    }
  }

  lemma FollowsAtFirst(s: State, jobs: seq<Job>, ids: seq<nat>, gone: set<nat>, steps: seq<Step>, w: World)
    requires Sending(s, jobs, ids, gone, steps) && Follows(w, s, gone, steps) && steps != [] && IsReply(steps[0])
    ensures w.caps(0) == s.worker.caps && w.predict(0, s.worker.batch) == Reply(gone, steps[0].answer)
  {
    FollowsOn(w, s, gone, steps);
  }

  lemma RestStarts(w: World, caps: Caps)
    requires w.caps(1) == caps
    ensures Rest(w).caps(0) == caps
  {
  }

  lemma RestShifts(w: World)
    ensures Shifted(w, Rest(w))
  {
  }

  lemma SomeoneActive(jobs: seq<Job>, ids: seq<nat>, w: World)
    requires AllWellFormed(jobs) && ValidIds(jobs, ids) && RoundScored(jobs, ids, w, 0)
    ensures Active(jobs, ids) != []
  {
    hide Active, Counts, Scatter, Backlog;
  }

  /** After a scored round the run is one of the rest of the world. */
  lemma OneRoundDown(jobs: seq<Job>, ids: seq<nat>, w: World)
    requires AllWellFormed(jobs) && ValidIds(jobs, ids) && RoundScored(jobs, ids, w, 0)
    ensures var rest := Process(RoundJobs(jobs, ids, w, 0), Active(jobs, ids), Rest(w), 0);
      Process(jobs, ids, w, 0) == Trace(rest.jobs, [RoundBatch(jobs, ids, w, 0)] + rest.calls, rest.exit)
  {
    hide Process, Active, RoundBatch, RoundJobs, RoundScored, Rest, Shifted;
    SomeoneActive(jobs, ids, w);
    RestShifts(w);
    ProcessStep(jobs, ids, w, 0);
    ProcessShift(RoundJobs(jobs, ids, w, 0), Active(jobs, ids), w, Rest(w), 0);
  }

  /** Where the next round starts, in terms of the longer list of jobs. */
  lemma NextSending(s: State, step: Step, next: State, after: seq<Job>, more: seq<Job>)
    requires Inv(s) && s.worker.Awaiting? && IsReply(step) && next == Next(s, step)
    requires step.answer.Scores? && |step.answer.values| == |s.worker.batch|
    requires after == next.jobs + more && AllWellFormed(after) && ValidIds(after, s.worker.active)
    ensures var active := Active(after, s.worker.active);
      var counts := Counts(after, active, 0, 0, step.next);
      var batch := Batch(after, active, counts);
      if active == [] || batch == [] then next.worker.Idle?
      else next.worker == Awaiting(s.worker.held, active, counts, batch, step.next)
  {
    ScoresStep(s, step);
    hide Inv, Next, Scatter, Counts, Batch, Send;
    var moved := s.(jobs := next.jobs);
    SendOver(moved, s.worker.held, s.worker.active, step.next, more);
  }

  lemma NothingSent(jobs: seq<Job>, ids: seq<nat>, w: World, caps: Caps)
    requires AllWellFormed(jobs) && ValidIds(jobs, ids) && w.caps(0) == caps
    requires var active := Active(jobs, ids); active == [] || Batch(jobs, active, Counts(jobs, active, 0, 0, caps)) == []
    ensures Process(jobs, ids, w, 0) == Trace(jobs, [], if Active(jobs, ids) == [] then Finished else NothingToSend)
  {
    hide Active, Counts, Backlog, RoundJobs;
    if Active(jobs, ids) == [] {
    } else {
      assert RoundBatch(jobs, ids, w, 0) == [];
    }
  }

  lemma {:induction false} LaterWellFormed(s: State, steps: seq<Step>)
    requires Inv(s)
    ensures AllWellFormed(Later(s, steps))
    decreases |steps|
  {
    hide Inv, Next;
    if steps != [] && s.worker.Awaiting? {
      LaterUnfolds(s, steps);
      LaterWellFormed(Next(s, steps[0]), steps[1..]);
    }
  }

  /** What the launched worker does, as the function sees it. */
  function WorldOfStretch(launched: State, caps: Caps, steps: seq<Step>): World
    requires Inv(launched)
  {
    WorldOf([caps] + NextCaps(launched, steps), Replies(launched, {}, steps))
  }

  lemma StretchFollows(s: State, caps: Caps, steps: seq<Step>)
    requires Inv(s) && s.worker.Awaiting? && s.worker.caps == caps
    ensures Follows(WorldOfStretch(s, caps, steps), s, {}, steps)
  {
    hide Inv, NextCaps, Replies, WorldOf;
    var all := [caps] + NextCaps(s, steps);
    WorldAt(all, Replies(s, {}, steps));
    assert all[0] == caps;
    forall r: nat | r < |NextCaps(s, steps)| ensures WorldOfStretch(s, caps, steps).caps(r + 1) == NextCaps(s, steps)[r] {
      assert all[r + 1] == NextCaps(s, steps)[r];
    }
  }

  lemma WorldAt(caps: seq<Caps>, replies: seq<Reply>)
    requires caps != []
    ensures forall r: nat :: r < |caps| ==> WorldOf(caps, replies).caps(r) == caps[r]
    ensures forall r: nat, ps: seq<Pair> :: r < |replies| ==> WorldOf(caps, replies).predict(r, ps) == replies[r]
  {
  }

  lemma LaunchSends(s: State, caps: Caps)
    requires Inv(s) && s.worker.Collecting?
    ensures var launched := Next(s, Launch(caps));
      && ValidIds(s.jobs, s.worker.held) && AllWellFormed(s.jobs)
      && launched == Send(s, s.worker.held, s.worker.held, caps)
      && launched.jobs == s.jobs && (launched.worker.Awaiting? || launched.worker.Idle?)
  {
    HeldValid(s);
  }

  /** From the launch of a batch to the moment the worker is no longer awaiting a reply, the calls it
      makes, the state in which it leaves all jobs and whether it was interrupted are those of one run
      of `Batching.Process` over the jobs it collected, whatever is submitted, given up, switched or
      closed meanwhile. */
  lemma WorkerRunsProcess(s: State, caps: Caps, steps: seq<Step>)
    requires Inv(s) && s.worker.Collecting?
    ensures var launched := Next(s, Launch(caps));
      var jobs := s.jobs + Later(launched, steps);
      && AllWellFormed(jobs) && ValidIds(jobs, s.worker.held)
      && var t := Process(jobs, s.worker.held, WorldOfStretch(launched, caps, steps), 0);
         !StretchEnd(launched, steps).worker.Awaiting? ==>
           t.calls == Sent(launched, steps) && EndsAs(t, StretchEnd(launched, steps))
  {
    hide Inv, Next, Send, Later, Sent, StretchEnd, Process, Counts, Batch, Active, WorldOfStretch, CancelSome, Follows;
    var launched := Next(s, Launch(caps));
    var more := Later(launched, steps);
    var jobs, held := s.jobs + more, s.worker.held;
    var w := WorldOfStretch(launched, caps, steps);
    LaunchSends(s, caps);
    LaterWellFormed(launched, steps);
    FirstCaps(launched, caps, steps);
    SendOver(s, held, held, caps, more);
    if launched.worker.Awaiting? {
      CancelNone(jobs);
      StretchFollows(launched, caps, steps);
      if !StretchEnd(launched, steps).worker.Awaiting? {
        AwaitingIsProcess(launched, jobs, held, {}, steps, w);
      }
    } else {
      RunEnds(launched, steps);
      NothingSent(jobs, held, w, caps);
      assert s.jobs + [] == s.jobs;
    }
  }

  lemma FirstCaps(s: State, caps: Caps, steps: seq<Step>)
    requires Inv(s)
    ensures WorldOfStretch(s, caps, steps).caps(0) == caps
  {
    hide Inv, NextCaps, Replies;
  }

  lemma {:induction false} SameCaps(s: State, caps: Caps, steps: seq<Step>)
    requires Inv(s) && forall i :: 0 <= i < |steps| && steps[i].Answered? ==> steps[i].next == caps
    ensures forall i :: 0 <= i < |NextCaps(s, steps)| ==> NextCaps(s, steps)[i] == caps
    decreases |steps|
  {
    hide Inv, Next;
    if steps != [] && s.worker.Awaiting? {
      SameCaps(Next(s, steps[0]), caps, steps[1..]);
    }
  }

  /** A close would end a stretch that is still open, and send nothing. */
  lemma {:induction false} CloseAtEnd(s: State, steps: seq<Step>)
    requires Inv(s) && StretchEnd(s, steps).worker.Awaiting?
    ensures Sent(s, steps + [CloseBegin]) == Sent(s, steps)
    ensures !StretchEnd(s, steps + [CloseBegin]).worker.Awaiting?
    decreases |steps|
  {
    hide Inv;
    if steps == [] {
      assert Next(s, CloseBegin).worker.Stopping?;
      assert [] + [CloseBegin] == [CloseBegin] && [CloseBegin][1..] == [];
    } else {
      hide Next;
      assert s.worker.Awaiting?;
      assert (steps + [CloseBegin])[0] == steps[0] && (steps + [CloseBegin])[1..] == steps[1..] + [CloseBegin];
      CloseAtEnd(Next(s, steps[0]), steps[1..]);
    }
  }

  /** `calls` are at most 1 + N/P + 2T/(M+1), where they send N pairs of T tokens in all. */
  ghost predicate FewCalls(calls: seq<seq<Pair>>, caps: Caps) {
    var sent, tokens := SumCalls(Unit, calls), SumCalls(PairTokens, calls);
    |calls| as real <= 1.0 + sent as real / caps.pairs as real + (2 * tokens) as real / (caps.tokens + 1) as real
  }

  ghost predicate SentNoMore(calls: seq<seq<Pair>>, jobs: seq<Job>, ids: seq<nat>)
    requires AllWellFormed(jobs) && ValidIds(jobs, ids)
  {
    SumCalls(Unit, calls) <= Backlog(Unit, jobs, ids) && SumCalls(PairTokens, calls) <= Backlog(PairTokens, jobs, ids)
  }

  /** The call-count bound of the step system: while the caps are P pairs and M tokens, a stretch that
      sends N pairs of T tokens makes at most 1 + N/P + 2T/(M+1) calls, the one still out included, and
      sends no more than the collected jobs had left when it started. */
  lemma StretchCallBound(s: State, caps: Caps, steps: seq<Step>)
    requires Inv(s) && s.worker.Collecting?
    requires forall i :: 0 <= i < |steps| && steps[i].Answered? ==> steps[i].next == caps
    ensures AllWellFormed(s.jobs) && ValidIds(s.jobs, s.worker.held)
    ensures var calls := Sent(Next(s, Launch(caps)), steps);
      FewCalls(calls, caps) && SentNoMore(calls, s.jobs, s.worker.held)
  {
    hide Inv, Next, Sent, StretchEnd, FewCalls, SentNoMore, AllWellFormed, ValidIds, Send;
    LaunchSends(s, caps);
    var launched := Next(s, Launch(caps));
    if StretchEnd(launched, steps).worker.Awaiting? {
      CloseAtEnd(launched, steps);
      EndedCallBound(s, caps, steps + [CloseBegin]);
    } else {
      EndedCallBound(s, caps, steps);
    }
  }

  lemma EndedCallBound(s: State, caps: Caps, steps: seq<Step>)
    requires Inv(s) && s.worker.Collecting?
    requires !StretchEnd(Next(s, Launch(caps)), steps).worker.Awaiting?
    requires forall i :: 0 <= i < |steps| && steps[i].Answered? ==> steps[i].next == caps
    ensures AllWellFormed(s.jobs) && ValidIds(s.jobs, s.worker.held)
    ensures var calls := Sent(Next(s, Launch(caps)), steps);
      FewCalls(calls, caps) && SentNoMore(calls, s.jobs, s.worker.held)
  {
    hide Inv, Next, Process, Sent, StretchEnd, Later, WorldOfStretch, NextCaps, Backlog, SumCalls, PairTokens, AllWellFormed,
         ValidIds, Send, EndsAs;
    var launched := Next(s, Launch(caps));
    var more := Later(launched, steps);
    LaunchSends(s, caps);
    ConstantCaps(launched, caps, steps);
    WorkerRunsProcess(s, caps, steps);
    CallCountBound(s.jobs + more, s.worker.held, WorldOfStretch(launched, caps, steps), caps);
    BacklogFrame(Unit, s.jobs, more, s.worker.held);
    BacklogFrame(PairTokens, s.jobs, more, s.worker.held);
  }

  lemma ConstantCaps(s: State, caps: Caps, steps: seq<Step>)
    requires Inv(s) && forall i :: 0 <= i < |steps| && steps[i].Answered? ==> steps[i].next == caps
    ensures forall r: nat :: WorldOfStretch(s, caps, steps).caps(r) == caps
  {
    hide Inv, NextCaps, Replies;
    SameCaps(s, caps, steps);
  }

  /* ---------- no starvation ---------- */

  /** The replies that come back in a stretch. */
  function ReplyCount(s: State, steps: seq<Step>): nat
    requires Inv(s)
    decreases |steps|
  {
    if steps == [] || !s.worker.Awaiting? then 0
    else (if IsReply(steps[0]) then 1 else 0) + ReplyCount(Next(s, steps[0]), steps[1..])
  }

  /** Each of them has one score per pair, and the stretch is not closed. */
  predicate AllAnswered(s: State, steps: seq<Step>)
    requires Inv(s)
    decreases |steps|
  {
    || steps == []
    || !s.worker.Awaiting?
    || (&& !steps[0].CloseBegin?
        && (IsReply(steps[0]) ==> steps[0].answer.Scores? && |steps[0].answer.values| == |s.worker.batch|)
        && AllAnswered(Next(s, steps[0]), steps[1..]))
  }

  lemma {:induction false} AfterShift(jobs: seq<Job>, ids: seq<nat>, w: World, w': World, r: nat, n: nat)
    requires AllWellFormed(jobs) && ValidIds(jobs, ids) && Shifted(w, w')
    ensures After(jobs, ids, w, r + 1, n) == After(jobs, ids, w', r, n)
    ensures AnsweredRounds(jobs, ids, w, r + 1, n) <==> AnsweredRounds(jobs, ids, w', r, n)
    decreases n
  {
    hide Shifted, RoundJobs, RoundBatch, RoundScored, RoundReply, RoundCounts, Active, Advanced, Backlog, AllWellFormed;
    SameRoundShifted(jobs, ids, w, w', r);
    if n > 0 && RoundScored(jobs, ids, w', r) {
      AfterShift(RoundJobs(jobs, ids, w', r), Active(jobs, ids), w, w', r + 1, n - 1);
    }
  }

  /** What is done in the one list is done in the other. */
  predicate DoneStays(a: seq<Job>, b: seq<Job>) {
    |a| == |b| && forall i :: 0 <= i < |a| && !a[i].Live() ==> !b[i].Live()
  }

  lemma CancelKeepsDone(jobs: seq<Job>, gone: set<nat>)
    ensures DoneStays(jobs, CancelSome(jobs, gone))
  {
  }

  /** Nothing to send means nothing more happens. */
  lemma AfterNothing(jobs: seq<Job>, ids: seq<nat>, w: World, caps: Caps, n: nat)
    requires AllWellFormed(jobs) && ValidIds(jobs, ids) && w.caps(0) == caps
    requires var active := Active(jobs, ids); active == [] || Batch(jobs, active, Counts(jobs, active, 0, 0, caps)) == []
    ensures After(jobs, ids, w, 0, n) == jobs && AnsweredRounds(jobs, ids, w, 0, n)
  {
    hide Active, Counts, Backlog, RoundJobs;
    assert RoundBatch(jobs, ids, w, 0) == [];
  }

  lemma AfterUnfolds(jobs: seq<Job>, ids: seq<nat>, w: World, n: nat)
    requires AllWellFormed(jobs) && ValidIds(jobs, ids) && RoundScored(jobs, ids, w, 0) && n > 0
    ensures var after, active := RoundJobs(jobs, ids, w, 0), Active(jobs, ids);
      && After(jobs, ids, w, 0, n) == After(after, active, w, 1, n - 1)
      && (AnsweredRounds(after, active, w, 1, n - 1) ==> AnsweredRounds(jobs, ids, w, 0, n))
  {
    hide Active, RoundBatch, RoundJobs, RoundScored, RoundCounts, Backlog, Advanced, AllWellFormed;
  }

  lemma OneRoundAfter(jobs: seq<Job>, ids: seq<nat>, w: World, n: nat)
    requires AllWellFormed(jobs) && ValidIds(jobs, ids) && RoundScored(jobs, ids, w, 0) && n > 0
    ensures var after, active := RoundJobs(jobs, ids, w, 0), Active(jobs, ids);
      && After(jobs, ids, w, 0, n) == After(after, active, Rest(w), 0, n - 1)
      && (AnsweredRounds(after, active, Rest(w), 0, n - 1) ==> AnsweredRounds(jobs, ids, w, 0, n))
  {
    hide Active, RoundBatch, RoundJobs, RoundScored, RoundCounts, Rest, Shifted, Backlog, After, AnsweredRounds, Advanced, AllWellFormed;
    RestShifts(w);
    AfterUnfolds(jobs, ids, w, n);
    AfterShift(RoundJobs(jobs, ids, w, 0), Active(jobs, ids), w, Rest(w), 0, n - 1);
  }

  /** How many replies a stretch is followed for: those that come back, or more once it is over. */
  predicate Counted(s: State, steps: seq<Step>, n: nat)
    requires Inv(s)
  {
    n == ReplyCount(s, steps) || (n > ReplyCount(s, steps) && !StretchEnd(s, steps).worker.Awaiting?)
  }

  lemma CountedOn(s: State, steps: seq<Step>, n: nat)
    requires Inv(s) && s.worker.Awaiting? && steps != [] && Counted(s, steps, n) && AllAnswered(s, steps)
    ensures var step, next := steps[0], Next(s, steps[0]);
      && StretchEnd(s, steps) == StretchEnd(next, steps[1..]) && AllAnswered(next, steps[1..])
      && !step.CloseBegin?
      && (IsReply(step) ==> n > 0 && Counted(next, steps[1..], n - 1)
                            && step.answer.Scores? && |step.answer.values| == |s.worker.batch|)
      && (!IsReply(step) ==> Counted(next, steps[1..], n))
  {
    hide Inv, Next;
  }

  /** From a batch in flight through a stretch, ended or not: what the function has done after as many
      rounds is done. */
  lemma {:induction false} AwaitingIsAfter(s: State, jobs: seq<Job>, ids: seq<nat>, gone: set<nat>, steps: seq<Step>, w: World, n: nat)
    requires Sending(s, jobs, ids, gone, steps) && Follows(w, s, gone, steps)
    requires AllAnswered(s, steps) && Counted(s, steps, n)
    ensures AnsweredRounds(jobs, ids, w, 0, n)
    ensures DoneStays(After(jobs, ids, w, 0, n), StretchEnd(s, steps).jobs)
    decreases |steps|
  {
    if steps == [] {
      assert n == 0 && StretchEnd(s, steps) == s && s.jobs + [] == s.jobs;
      hide Inv, CancelSome, DoneStays, Active, Counts, Batch;
      CancelKeepsDone(jobs, gone);
    } else {
      hide Inv, Next, StretchEnd, Follows, Active, Counts, Batch, CancelSome, Rest, After, AnsweredRounds, DoneStays, AllAnswered,
           Counted, Later;
      var step, next := steps[0], Next(s, steps[0]);
      CountedOn(s, steps, n);
      if IsReply(step) {
        AfterReply(s, jobs, ids, gone, steps, w, n);
      } else {
        FollowsOn(w, s, gone, steps);
        AwaitStep(s, step);
        StillSending(s, jobs, ids, gone, steps);
        AwaitingIsAfter(next, jobs, ids, Gone(s, gone, step), steps[1..], w, n);
      }
    }
  }

  lemma {:induction false} AfterReply(s: State, jobs: seq<Job>, ids: seq<nat>, gone: set<nat>, steps: seq<Step>, w: World, n: nat)
    requires Sending(s, jobs, ids, gone, steps) && Follows(w, s, gone, steps) && steps != [] && IsReply(steps[0])
    requires AllAnswered(s, steps) && Counted(s, steps, n)
    ensures AnsweredRounds(jobs, ids, w, 0, n)
    ensures DoneStays(After(jobs, ids, w, 0, n), StretchEnd(s, steps).jobs)
    decreases |steps|, 0
  {
    hide Inv, Next, StretchEnd, Later, Follows, Active, Counts, Batch, RoundJobs, RoundBatch, RoundScored, CancelSome, Rest, After,
         AnsweredRounds, AllAnswered, Counted;
    var step, next := steps[0], Next(s, steps[0]);
    var active := s.worker.active;
    CountedOn(s, steps, n);
    FollowsAtFirst(s, jobs, ids, gone, steps, w);
    NextRound(s, jobs, ids, gone, steps, w);
    SentRound(s, jobs, ids, gone, steps, w, step.answer);
    OneRoundAfter(jobs, ids, w, n);
    var after := RoundJobs(jobs, ids, w, 0);
    var more := Later(next, steps[1..]);
    NextSending(s, step, next, after, more);
    FollowsOn(w, s, gone, steps);
    if next.worker.Awaiting? {
      CancelNone(after);
      AwaitingIsAfter(next, after, active, {}, steps[1..], Rest(w), n - 1);
    } else {
      RunEnds(next, steps[1..]);
      RestStarts(w, step.next);
      AfterNothing(after, active, Rest(w), step.next, n - 1);
      assert next.jobs + [] == next.jobs;
    }
  }

  /** A stretch followed from its launch. */
  lemma StretchIsAfter(s: State, caps: Caps, steps: seq<Step>, n: nat)
    requires Inv(s) && s.worker.Collecting?
    requires AllAnswered(Next(s, Launch(caps)), steps) && Counted(Next(s, Launch(caps)), steps, n)
    ensures var launched := Next(s, Launch(caps));
      var jobs, w := s.jobs + Later(launched, steps), WorldOfStretch(launched, caps, steps);
      && AllWellFormed(jobs) && ValidIds(jobs, s.worker.held)
      && AnsweredRounds(jobs, s.worker.held, w, 0, n)
      && DoneStays(After(jobs, s.worker.held, w, 0, n), StretchEnd(launched, steps).jobs)
  {
    hide Inv, Next, Send, Later, StretchEnd, Counts, Batch, Active, WorldOfStretch, CancelSome, Follows, After, AnsweredRounds,
         AllAnswered, Counted;
    var launched := Next(s, Launch(caps));
    var more := Later(launched, steps);
    var jobs, held := s.jobs + more, s.worker.held;
    var w := WorldOfStretch(launched, caps, steps);
    LaunchSends(s, caps);
    LaterWellFormed(launched, steps);
    FirstCaps(launched, caps, steps);
    SendOver(s, held, held, caps, more);
    if launched.worker.Awaiting? {
      CancelNone(jobs);
      StretchFollows(launched, caps, steps);
      AwaitingIsAfter(launched, jobs, held, {}, steps, w, n);
    } else {
      RunEnds(launched, steps);
      AfterNothing(jobs, held, w, caps, n);
      assert s.jobs + [] == s.jobs;
    }
  }

  /** No starvation in the step system: in a stretch that is not closed and whose replies all fit, the
      first k of the jobs collected, if they have pairs, are done after at most as many replies as they
      had pairs left at its launch, or when it ends, whatever is submitted or given up meanwhile. */
  lemma StretchNoStarvation(s: State, caps: Caps, steps: seq<Step>, k: nat)
    requires Inv(s) && s.worker.Collecting? && k <= |s.worker.held|
    ensures AllWellFormed(s.jobs) && ValidIds(s.jobs, s.worker.held[..k])
    ensures var launched, first := Next(s, Launch(caps)), s.worker.held[..k];
      var end := StretchEnd(launched, steps);
      && AllAnswered(launched, steps) && (forall id :: id in first ==> s.jobs[id].pairs != [])
      && (ReplyCount(launched, steps) >= Backlog(Unit, s.jobs, first) || !end.worker.Awaiting?)
      ==> forall id :: id in first ==> id < |end.jobs| && !end.jobs[id].Live()
  {
    hide Inv, Next, Send, Later, StretchEnd, WorldOfStretch, After, AnsweredRounds, AllAnswered, Backlog;
    LaunchSends(s, caps);
    var launched := Next(s, Launch(caps));
    var held, more := s.worker.held, Later(launched, steps);
    var first, others := held[..k], held[k..];
    assert held == first + others;
    ValidParts(s.jobs, first, others);
    if && AllAnswered(launched, steps) && (forall id :: id in first ==> s.jobs[id].pairs != [])
       && (ReplyCount(launched, steps) >= Backlog(Unit, s.jobs, first) || !StretchEnd(launched, steps).worker.Awaiting?)
    {
      var n := if ReplyCount(launched, steps) >= Backlog(Unit, s.jobs, first) then ReplyCount(launched, steps)
               else Backlog(Unit, s.jobs, first);
      StretchIsAfter(s, caps, steps, n);
      hide ReplyCount;
      var jobs, w := s.jobs + more, WorldOfStretch(launched, caps, steps);
      ValidParts(jobs, first, others);
      BacklogFrame(Unit, s.jobs, more, first);
      NoStarvation(jobs, first, others, w, 0, n);
    }
  }
}
