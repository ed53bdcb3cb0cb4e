/** What the batcher can still do: from every state with a running worker, the worker and a predictor
    that answers bring every pending job to its scores; and exactly which jobs are beyond that. */
module BatcherProgress {
  import Basics
  import opened Batching
  import opened BatchingProperties
  import opened BatchingOutcomes
  import opened BatcherRuns
  import BatcherRefinement

  /** The worker runs and has not been cancelled. */
  predicate Working(s: State) {
    !s.worker.Stopped? && !s.worker.Stopping?
  }

  /* ---------- runs in two parts ---------- */

  lemma {:induction false} RunInParts(s: State, a: seq<Step>, b: seq<Step>, f: Pair -> Score)
    requires Inv(s) && HonestRun(s, a, f) && HonestRun(Run(s, a), b, f)
    ensures Run(s, a + b) == Run(Run(s, a), b) && HonestRun(s, a + b, f)
    decreases |a|
  {
    hide Inv, Next, HonestStep;
    if a == [] {
      assert a + b == b;
    } else {
      assert (a + b)[0] == a[0] && (a + b)[1..] == a[1..] + b;
      RunInParts(Next(s, a[0]), a[1..], b, f);
    }
  }

  lemma OneStepRun(s: State, step: Step, f: Pair -> Score)
    requires Inv(s) && HonestStep(s, step, f)
    ensures Run(s, [step]) == Next(s, step) && HonestRun(s, [step], f)
  {
    hide Inv, Next, HonestStep;
    assert [step][1..] == [];
    assert Run(Next(s, step), []) == Next(s, step);
  }

  /** What only the worker and the predictor do. */
  predicate WorkOnly(steps: seq<Step>) {
    forall i :: 0 <= i < |steps| ==> steps[i].Collect? || steps[i].Launch? || steps[i].Answered?
  }

  /* ---------- how work changes a state ---------- */

  /** The jobs are the same ones, further on, and all that work does not touch is as it was. */
  ghost predicate WorkedOn(s: State, t: State) {
    && Continues(s.jobs, t.jobs) && |t.jobs| == |s.jobs|
    && t.enabled == s.enabled && t.capacity == s.capacity && t.abandoned == s.abandoned
  }

  /** The jobs among `ids` that were pending, if they have pairs, have their scores. */
  ghost predicate Completed(s: State, t: State, ids: seq<nat>) {
    && |t.jobs| == |s.jobs|
    && forall id :: id in ids && id < |s.jobs| && s.jobs[id].Live() && s.jobs[id].pairs != [] ==> t.jobs[id].future.Resolved?
  }

  /** Jobs that are not held stay as they are. */
  ghost predicate OthersUntouched(s: State, t: State, held: seq<nat>) {
    && |t.jobs| == |s.jobs|
    && forall id :: 0 <= id < |s.jobs| && id !in held ==> t.jobs[id] == s.jobs[id]
  }

  lemma WorkedOnFurther(s: State, t: State, u: State)
    requires WorkedOn(s, t) && WorkedOn(t, u)
    ensures WorkedOn(s, u)
  {
  }

  lemma StaysCompleted(s: State, t: State, u: State, ids: seq<nat>)
    requires Completed(s, t, ids) && WorkedOn(t, u)
    ensures Completed(s, u, ids)
  {
  }

  /* ---------- one reply ---------- */

  /** The pairs that jobs, done or not, have left. */
  function Left(jobs: seq<Job>, ids: seq<nat>): nat
    requires AllWellFormed(jobs) && ValidIds(jobs, ids)
  {
    if ids == [] then 0 else |jobs[ids[0]].Rest()| + Left(jobs, ids[1..])
  }

  lemma {:induction false} LeftActive(jobs: seq<Job>, ids: seq<nat>)
    requires AllWellFormed(jobs) && ValidIds(jobs, ids)
    ensures Left(jobs, Active(jobs, ids)) <= Left(jobs, ids)
  {
    if ids != [] {
      LeftActive(jobs, ids[1..]);
      var tail := Active(jobs, ids[1..]);
      if jobs[ids[0]].Live() {
        assert ([ids[0]] + tail)[1..] == tail;
      }
    }
  }

  lemma {:induction false} LeftSpent(jobs: seq<Job>, active: seq<nat>, counts: seq<nat>, after: seq<Job>)
    requires ValidCounts(jobs, active, counts) && |after| == |jobs| && AllWellFormed(after)
    requires forall k :: 0 <= k < |active| ==> Moved(jobs[active[k]], after[active[k]], counts[k])
    ensures Left(after, active) + Total(counts) == Left(jobs, active)
  {
    if active != [] {
      assert Moved(jobs[active[0]], after[active[0]], counts[0]);
      LeftSpent(jobs, active[1..], counts[1..], after);
    }
  }

  function Reply(s: State, caps: Caps, f: Pair -> Score): Step
    requires s.worker.Awaiting?
  {
    Answered(Scores(Map(f, s.worker.batch)), caps)
  }

  /** Nothing held is left to send. */
  ghost predicate NothingHeld(s: State, held: seq<nat>) {
    forall id :: id in held && id < |s.jobs| && s.jobs[id].Live() ==> s.jobs[id].pairs == []
  }

  /** The worker with `held` either has a batch out or is done with them. */
  ghost predicate OutOrDone(s: State, held: seq<nat>) {
    || (s.worker.Awaiting? && s.worker.held == held)
    || (s.worker.Idle? && NothingHeld(s, held))
  }

  /** Sending what is left of what the worker holds. */
  lemma SendsOrDone(s: State, held: seq<nat>, candidates: seq<nat>, caps: Caps)
    requires AllWellFormed(s.jobs) && ValidIds(s.jobs, candidates)
    requires forall id :: id in held && id < |s.jobs| && s.jobs[id].Live() ==> id in candidates
    ensures var t := Send(s, held, candidates, caps);
      && t == s.(worker := t.worker) && OutOrDone(t, held)
      && (t.worker.Awaiting? ==> t.worker.active == Active(s.jobs, candidates))
  {
    hide Counts, Batch, Active;
    var t := Send(s, held, candidates, caps);
    var active := Active(s.jobs, candidates);
    if t.worker.Idle? {
      forall id | id in held && id < |s.jobs| && s.jobs[id].Live() ensures s.jobs[id].pairs == [] {
        assert id in active;
        if s.jobs[id].pairs != [] {
          SomethingToSend(s.jobs, active, id, caps);
        }
      }
    }
  }

  lemma LaunchWorks(s: State, caps: Caps)
    requires Inv(s) && s.worker.Collecting?
    ensures var t := Next(s, Launch(caps));
      && t == s.(worker := t.worker) && OutOrDone(t, s.worker.held)
  {
    hide Awaits, Reachable, OutOrDone, Send;
    HeldValid(s);
    SendsOrDone(s, s.worker.held, s.worker.held, caps);
  }

  lemma AwaitsHeld(s: State)
    requires Inv(s) && s.worker.Awaiting?
    ensures AllWellFormed(s.jobs) && ValidIds(s.jobs, s.worker.held) && ValidCounts(s.jobs, s.worker.active, s.worker.counts)
    ensures s.worker.batch == Batch(s.jobs, s.worker.active, s.worker.counts) && s.worker.batch != []
    ensures forall id :: id in s.worker.active ==> id in s.worker.held
    ensures forall id :: id in s.worker.held && s.jobs[id].Live() ==> id in s.worker.active
  {
    hide Reachable, Batch;
  }

  /** A job that takes scores is pending or has them all. */
  lemma MovedPendingOrResolved(before: Job, after: Job, count: nat)
    requires Moved(before, after, count) && before.Live()
    ensures after.future.Pending? || after.future.Resolved?
  {
  }

  lemma ScatterHeld(jobs: seq<Job>, active: seq<nat>, counts: seq<nat>, scores: seq<Score>)
    requires ValidCounts(jobs, active, counts) && |scores| == Total(counts)
    ensures var after := Scatter(jobs, active, counts, scores);
      forall id :: 0 <= id < |jobs| ==>
        && (after[id].Live() ==> jobs[id].Live())
        && (id in active && jobs[id].Live() ==> after[id].future.Pending? || after[id].future.Resolved?)
        && (id !in active ==> after[id] == jobs[id])
  {
    hide Scatter, AllWellFormed;
    var after := Scatter(jobs, active, counts, scores);
    forall id | 0 <= id < |jobs| && id in active
      ensures after[id].Live() ==> jobs[id].Live()
      ensures jobs[id].Live() ==> after[id].future.Pending? || after[id].future.Resolved?
    {
      var k :| 0 <= k < |active| && active[k] == id;
      assert Moved(jobs[active[k]], after[active[k]], counts[k]);
    }
  }

  /** After a reply a job that was held is pending or resolved, if it was pending, and others are as they were. */
  ghost predicate HeldMoved(before: seq<Job>, after: seq<Job>, held: seq<nat>) {
    && |after| == |before|
    && (forall id :: 0 <= id < |before| && after[id].Live() ==> before[id].Live())
    && (forall id :: id in held && id < |before| && before[id].Live() ==> after[id].future.Pending? || after[id].future.Resolved?)
    && (forall id :: 0 <= id < |before| && id !in held ==> after[id] == before[id])
  }

  lemma ScatterMovesHeld(jobs: seq<Job>, active: seq<nat>, counts: seq<nat>, scores: seq<Score>, held: seq<nat>)
    requires ValidCounts(jobs, active, counts) && |scores| == Total(counts)
    requires forall id :: id in active ==> id in held
    requires forall id :: id in held && id < |jobs| && jobs[id].Live() ==> id in active
    ensures HeldMoved(jobs, Scatter(jobs, active, counts, scores), held)
  {
    ScatterHeld(jobs, active, counts, scores);
    hide Scatter, AllWellFormed, ValidCounts;
  }

  /** A reply that fits moves its jobs on; then the next batch is out, with less left, or all are done. */
  lemma ReplyWorks(s: State, caps: Caps, f: Pair -> Score)
    requires Inv(s) && s.worker.Awaiting?
    ensures var t := Next(s, Reply(s, caps, f));
      && t == s.(jobs := t.jobs, worker := t.worker)
      && OutOrDone(t, s.worker.held) && HeldMoved(s.jobs, t.jobs, s.worker.held)
  {
    AwaitsHeld(s);
    BatcherRefinement.ScoresStep(s, Reply(s, caps, f));
    hide Inv, Next, Scatter, Batch, Send, Moved, OutOrDone, AllWellFormed, HeldMoved, Map, Total;
    var w := s.worker;
    var moved := Scatter(s.jobs, w.active, w.counts, Map(f, w.batch));
    ScatterMovesHeld(s.jobs, w.active, w.counts, Map(f, w.batch), w.held);
    StillActive(s.jobs, moved, w.held, w.active);
    SendsOrDone(s.(jobs := moved), w.held, w.active, caps);
  }

  lemma StillActive(before: seq<Job>, after: seq<Job>, held: seq<nat>, active: seq<nat>)
    requires HeldMoved(before, after, held) && ValidIds(before, active)
    requires forall id :: id in held && id < |before| && before[id].Live() ==> id in active
    ensures ValidIds(after, active)
    ensures forall id :: id in held && id < |after| && after[id].Live() ==> id in active
  {
  }

  lemma ReplyLeavesLess(s: State, caps: Caps, f: Pair -> Score)
    requires Inv(s) && s.worker.Awaiting?
    ensures AllWellFormed(s.jobs) && ValidIds(s.jobs, s.worker.active)
    ensures var t := Next(s, Reply(s, caps, f));
      t.worker.Awaiting? ==>
        && AllWellFormed(t.jobs) && ValidIds(t.jobs, t.worker.active)
        && Left(t.jobs, t.worker.active) < Left(s.jobs, s.worker.active)
  {
    AwaitsHeld(s);
    BatcherRefinement.ScoresStep(s, Reply(s, caps, f));
    var w, t := s.worker, Next(s, Reply(s, caps, f));
    hide Inv, Next, Scatter, Batch, Counts, Active, AllWellFormed, Moved, Left;
    BatchLength(s.jobs, w.active, w.counts);
    LeftSpent(s.jobs, w.active, w.counts, t.jobs);
    LeftActive(t.jobs, w.active);
  }

  /* ---------- from a batch in flight to an idle worker ---------- */

  /** What is left to answer in a state that awaits a reply. */
  ghost function Ahead(s: State): nat
    requires Inv(s) && s.worker.Awaiting?
  {
    AwaitsHeld(s);
    Left(s.jobs, s.worker.active)
  }

  lemma ReplyIsWork(s: State, caps: Caps, f: Pair -> Score)
    requires Inv(s) && s.worker.Awaiting?
    ensures HonestStep(s, Reply(s, caps, f), f)
    ensures WorkedOn(s, Next(s, Reply(s, caps, f)))
  {
    StepResults(s, Reply(s, caps, f), f);
    ReplyWorks(s, caps, f);
    hide Inv, Next, OutOrDone, HeldMoved;
    assert |Next(s, Reply(s, caps, f)).jobs| == |s.jobs| by { SameLength(s, Next(s, Reply(s, caps, f))); }
  }

  lemma SameLength(s: State, t: State)
    requires s.worker.Awaiting? && HeldMoved(s.jobs, t.jobs, s.worker.held)
    ensures |t.jobs| == |s.jobs|
  {
  }

  /** One reply after another, until the worker is idle: every job it held has its scores. */
  lemma {:induction false} AnswerAll(s: State, caps: Caps, f: Pair -> Score) returns (steps: seq<Step>)
    requires Inv(s) && s.worker.Awaiting?
    ensures HonestRun(s, steps, f) && WorkOnly(steps)
    ensures var t := Run(s, steps);
      && t.worker.Idle? && t.queue == s.queue && WorkedOn(s, t)
      && Completed(s, t, s.worker.held) && OthersUntouched(s, t, s.worker.held)
    decreases Ahead(s)
  {
    var step := Reply(s, caps, f);
    var next := Next(s, step);
    var held := s.worker.held;
    ReplyIsWork(s, caps, f);
    ReplyWorks(s, caps, f);
    ReplyLeavesLess(s, caps, f);
    hide Inv, Next, WorkedOn, HonestStep, HonestRun, Run, OthersUntouched, Completed, Left, HeldMoved;
    OneStepRun(s, step, f);
    if next.worker.Awaiting? {
      var rest := AnswerAll(next, caps, f);
      steps := [step] + rest;
      RunInParts(s, [step], rest, f);
      WorkedOnFurther(s, next, Run(s, steps));
      CompletedLater(s, next, Run(s, steps), held);
    } else {
      steps := [step];
      WorkedOnSame(s);
      WorkedOnSame(next);
      CompletedNow(s, next, held);
    }
  }

  lemma WorkedOnSame(s: State)
    ensures WorkedOn(s, s) && OthersUntouched(s, s, s.worker.Held())
  {
  }

  lemma CompletedNow(s: State, t: State, held: seq<nat>)
    requires WorkedOn(s, t) && NothingHeld(t, held)
    requires HeldMoved(s.jobs, t.jobs, held)
    ensures Completed(s, t, held) && OthersUntouched(s, t, held)
  {
  }

  lemma CompletedLater(s: State, t: State, u: State, held: seq<nat>)
    requires WorkedOn(s, t) && Completed(t, u, held) && WorkedOn(t, u)
    requires HeldMoved(s.jobs, t.jobs, held) && OthersUntouched(t, u, held)
    ensures Completed(s, u, held) && OthersUntouched(s, u, held)
  {
  }

  /* ---------- collecting ---------- */

  lemma CollectOne(s: State)
    requires Inv(s) && s.queue != [] && (s.worker.Idle? || s.worker.Collecting?)
    ensures var t := Next(s, Collect);
      && t.jobs == s.jobs && WorkedOn(s, t)
      && t.queue == s.queue[1..] && t.worker == Collecting(s.worker.Held() + [s.queue[0]])
  {
    hide Inv;
  }

  /** The worker takes all that is queued. */
  lemma {:induction false} CollectAll(s: State, f: Pair -> Score) returns (steps: seq<Step>)
    requires Inv(s) && (s.worker.Idle? || s.worker.Collecting?)
    ensures HonestRun(s, steps, f) && WorkOnly(steps)
    ensures var t := Run(s, steps);
      && t.jobs == s.jobs && WorkedOn(s, t) && t.queue == [] && t.worker.Held() == s.worker.Held() + s.queue
      && (t.worker.Collecting? || (t.worker.Idle? && s.worker.Idle? && s.queue == []))
    decreases |s.queue|
  {
    hide Inv, Next, WorkedOn, HonestStep, HonestRun, Run;
    if s.queue == [] {
      steps := [];
      NoSteps(s, f);
      assert s.worker.Held() + s.queue == s.worker.Held();
    } else {
      var next := Next(s, Collect);
      CollectOne(s);
      HonestUnlessReply(s, Collect, f);
      OneStepRun(s, Collect, f);
      var rest := CollectAll(next, f);
      steps := [Collect] + rest;
      RunInParts(s, [Collect], rest, f);
      WorkedOnFurther(s, next, Run(s, steps));
      assert s.queue == [s.queue[0]] + s.queue[1..];
      Basics.Associates(s.worker.Held(), [s.queue[0]], s.queue[1..]);
    }
  }

  lemma NoSteps(s: State, f: Pair -> Score)
    requires Inv(s)
    ensures Run(s, []) == s && HonestRun(s, [], f) && WorkedOn(s, s)
  {
  }

  lemma HonestUnlessReply(s: State, step: Step, f: Pair -> Score)
    requires !step.Answered?
    ensures HonestStep(s, step, f)
  {
  }

  /* ---------- the worker finishes ---------- */

  /** What the worker has collected is sent, answered and done with. */
  lemma FinishHeld(s: State, caps: Caps, f: Pair -> Score) returns (steps: seq<Step>)
    requires Inv(s) && Working(s)
    ensures HonestRun(s, steps, f) && WorkOnly(steps)
    ensures var t := Run(s, steps);
      t.worker.Idle? && t.queue == s.queue && WorkedOn(s, t)
      && Completed(s, t, s.worker.Held()) && OthersUntouched(s, t, s.worker.Held())
  {
    hide Inv, Next, WorkedOn, HonestStep, HonestRun, Run, OthersUntouched, Completed;
    NoSteps(s, f);
    WorkedOnSame(s);
    if s.worker.Awaiting? {
      steps := AnswerAll(s, caps, f);
    } else if s.worker.Collecting? {
      var next := Next(s, Launch(caps));
      LaunchWorks(s, caps);
      LaunchIsWork(s, next, s.worker.held);
      HonestUnlessReply(s, Launch(caps), f);
      OneStepRun(s, Launch(caps), f);
      steps := [Launch(caps)];
      if next.worker.Awaiting? {
        var rest := AnswerAll(next, caps, f);
        steps := steps + rest;
        RunInParts(s, [Launch(caps)], rest, f);
        WorkedOnFurther(s, next, Run(s, steps));
        SameStart(s, next, Run(s, steps), s.worker.held);
      }
    } else {
      steps := [];
      NothingCompleted(s);
    }
  }

  lemma LaunchIsWork(s: State, t: State, held: seq<nat>)
    requires t == s.(worker := t.worker) && OutOrDone(t, held)
    ensures WorkedOn(s, t) && OthersUntouched(s, t, held)
    ensures t.worker.Idle? ==> Completed(s, t, held)
  {
  }

  lemma SameStart(s: State, t: State, u: State, held: seq<nat>)
    requires t.jobs == s.jobs
    ensures Completed(t, u, held) ==> Completed(s, u, held)
    ensures OthersUntouched(t, u, held) ==> OthersUntouched(s, u, held)
  {
  }

  lemma NothingCompleted(s: State)
    ensures Completed(s, s, [])
  {
  }

  /** All that is held, and then all that is queued. */
  lemma Drain(s: State, caps: Caps, f: Pair -> Score) returns (steps: seq<Step>)
    requires Inv(s) && Working(s)
    ensures HonestRun(s, steps, f) && WorkOnly(steps)
    ensures var t := Run(s, steps);
      && t.worker.Idle? && t.queue == [] && WorkedOn(s, t)
      && Completed(s, t, s.worker.Held()) && Completed(s, t, s.queue)
  {
    var first := FinishHeld(s, caps, f);
    var idle := Run(s, first);
    var second := CollectAll(idle, f);
    var full := Run(idle, second);
    var third := FinishHeld(full, caps, f);
    steps := first + (second + third);
    var end := Run(full, third);
    HeldHaveLeft(s);
    hide Inv, WorkedOn, HonestStep, HonestRun, Run, OthersUntouched, Completed, Ids;
    RunInParts(idle, second, third, f);
    RunInParts(s, first, second + third, f);
    WorkedOnFurther(idle, full, end);
    WorkedOnFurther(s, idle, end);
    StaysCompleted(s, idle, end, s.worker.Held());
    assert idle.worker.Held() + idle.queue == s.queue;
    SameStart(idle, full, end, s.queue);
    UntouchedCompleted(s, idle, end, s.queue, s.worker.Held());
  }

  lemma UntouchedCompleted(s: State, t: State, u: State, ids: seq<nat>, held: seq<nat>)
    requires OthersUntouched(s, t, held) && Completed(t, u, ids)
    requires forall id :: id in held ==> id !in ids
    ensures Completed(s, u, ids)
  {
  }

  lemma PendingIsReachable(s: State, id: nat)
    requires Inv(s) && id < |s.jobs| && s.jobs[id].Live() && s.jobs[id].pairs != []
    ensures id in s.queue || id in s.worker.Held() || id in s.abandoned
  {
    assert Reachable(s, id);
  }

  /** From every state with a running worker, the worker and a predictor that answers finish everything:
      the queue is empty, the worker idle, and every pending job with pairs, except those a close took
      from an earlier worker, has the scores of its own pairs. The caps may be any. */
  lemma WorkerFinishesAll(s: State, caps: Caps, f: Pair -> Score) returns (steps: seq<Step>)
    requires Inv(s) && Working(s) && AllFaithful(s.jobs, f)
    ensures HonestRun(s, steps, f) && WorkOnly(steps)
    ensures var t := Run(s, steps);
      && t.worker.Idle? && t.queue == [] && |t.jobs| == |s.jobs| && t.enabled == s.enabled && t.capacity == s.capacity
      && (forall id :: 0 <= id < |s.jobs| && s.jobs[id].Live() && s.jobs[id].pairs != [] && id !in s.abandoned ==>
            t.jobs[id].future == Resolved(Map(f, s.jobs[id].pairs)))
      && (forall id :: 0 <= id < |s.jobs| && !s.jobs[id].Live() ==> t.jobs[id].future == s.jobs[id].future)
  {
    steps := Drain(s, caps, f);
    RunResults(s, steps, f);
    hide Inv, Run, HonestRun, AllFaithful;
    var t := Run(s, steps);
    forall id | 0 <= id < |s.jobs| && s.jobs[id].Live() && s.jobs[id].pairs != [] && id !in s.abandoned
      ensures t.jobs[id].future == Resolved(Map(f, s.jobs[id].pairs))
    {
      PendingIsReachable(s, id);
      assert t.jobs[id].future.Resolved?;
    }
  }

  /* ---------- which jobs are beyond it ---------- */

  /** A job that no run resolves any more: it is cancelled or failed, its worker was cancelled with it
      in hand, or no worker runs that could take it. */
  predicate Stranded(s: State, id: nat) {
    && id < |s.jobs| && s.jobs[id].pairs != [] && !s.jobs[id].future.Resolved?
    && (!s.jobs[id].Live() || id in s.abandoned || !Working(s))
  }

  /** Jobs a close took from a worker have left the queue, and no later worker holds them. */
  ghost predicate AbandonedLeft(s: State) {
    && (forall id :: id in s.abandoned ==> id < |s.departed|)
    && (!s.worker.Stopping? ==> forall id :: id in s.worker.Held() ==> id !in s.abandoned)
  }

  lemma SendHolds(s: State, held: seq<nat>, candidates: seq<nat>, caps: Caps)
    requires AllWellFormed(s.jobs) && ValidIds(s.jobs, candidates)
    ensures var t := Send(s, held, candidates, caps);
      t == s.(worker := t.worker) && (t.worker.Idle? || (t.worker.Awaiting? && t.worker.held == held))
  {
    hide Counts, Batch, Active;
  }

  lemma RepliedHolds(s: State, answer: Answer, next: Caps)
    requires Inv(s)
    ensures var t := Replied(s, answer, next);
      && t == s.(jobs := t.jobs, worker := t.worker)
      && (t == s || t.worker.Idle? || (s.worker.Awaiting? && t.worker.Awaiting? && t.worker.held == s.worker.held))
  {
    if s.worker.Awaiting? && !answer.WorkerCancelled? {
      AwaitsHeld(s);
      var w := s.worker;
      hide Scatter, Send, Batch;
      BatchLength(s.jobs, w.active, w.counts);
      if answer.Scores? && |answer.values| == |w.batch| {
        SendHolds(s.(jobs := Scatter(s.jobs, w.active, w.counts, answer.values)), w.held, w.active, next);
      }
    }
  }

  lemma HeldBounds(s: State)
    requires Inv(s)
    ensures forall id :: id in s.worker.Held() ==> id < |s.departed|
    ensures s.queue != [] ==> s.queue[0] == |s.departed|
  {
    hide Awaits, Reachable, AllWellFormed;
  }

  lemma StepKeepsAbandonedLeft(s: State, step: Step)
    requires Inv(s) && AbandonedLeft(s)
    ensures AbandonedLeft(Next(s, step))
  {
    HeldBounds(s);
    match step
    case Answered(answer, next) =>
      RepliedHolds(s, answer, next);
      hide Replied, Inv;
    case Launch(caps) =>
      if s.worker.Collecting? {
        LaunchWorks(s, caps);
        hide Next, Inv;
      } else {
        hide Inv;
      }
    case _ =>
      hide Inv, Replied, Send;
  }

  /** A reply changes no job that the worker does not hold. */
  lemma ReplyTouchesHeld(s: State, answer: Answer, next: Caps, id: nat)
    requires Inv(s) && s.worker.Awaiting? && id < |s.jobs| && id !in s.worker.held
    ensures |Replied(s, answer, next).jobs| == |s.jobs| && Replied(s, answer, next).jobs[id] == s.jobs[id]
  {
    AwaitsHeld(s);
    var w := s.worker;
    hide Scatter, Send, Batch, Counts, Active;
    BatchLength(s.jobs, w.active, w.counts);
    if !answer.WorkerCancelled? && answer.Scores? && |answer.values| == |w.batch| {
      SendHolds(s.(jobs := Scatter(s.jobs, w.active, w.counts, answer.values)), w.held, w.active, next);
    }
  }

  /** With no worker at all, pending jobs with pairs are those of cancelled workers. */
  lemma StoppedAbandoned(s: State, id: nat)
    requires Inv(s) && s.worker.Stopped? && id < |s.jobs| && s.jobs[id].Live() && s.jobs[id].pairs != []
    ensures id in s.abandoned
  {
    assert Reachable(s, id);
  }

  lemma StrandedStays(s: State, step: Step, id: nat, f: Pair -> Score)
    requires Inv(s) && AbandonedLeft(s) && Stranded(s, id) && HonestStep(s, step, f)
    ensures Stranded(Next(s, step), id)
  {
    StepResults(s, step, f);
    if s.jobs[id].Live() {
      if s.worker.Stopped? {
        StoppedAbandoned(s, id);
      }
      match step
      case Answered(answer, next) =>
        RepliedHolds(s, answer, next);
        if s.worker.Awaiting? {
          ReplyTouchesHeld(s, answer, next, id);
        }
        hide Replied, Inv;
      case Launch(caps) =>
        if s.worker.Collecting? {
          LaunchWorks(s, caps);
          hide Next, Inv;
        } else {
          hide Inv;
        }
      case _ =>
        hide Inv, Replied, Send;
    } else {
      hide Next, Inv, AllFaithful;
    }
  }

  lemma {:induction false} RunKeepsStranded(s: State, steps: seq<Step>, id: nat, f: Pair -> Score)
    requires Inv(s) && AbandonedLeft(s) && Stranded(s, id) && HonestRun(s, steps, f)
    ensures Stranded(Run(s, steps), id)
    decreases |steps|
  {
    hide Inv, Next, AbandonedLeft, Stranded, HonestStep;
    if steps != [] {
      StrandedStays(s, steps[0], id, f);
      StepKeepsAbandonedLeft(s, steps[0]);
      RunKeepsStranded(Next(s, steps[0]), steps[1..], id, f);
    }
  }

  /** Every run from the start keeps the abandoned jobs where they were left. */
  lemma {:induction false} RunKeepsAbandonedLeft(s: State, steps: seq<Step>)
    requires Inv(s) && AbandonedLeft(s)
    ensures AbandonedLeft(Run(s, steps))
    decreases |steps|
  {
    hide Inv, Next, AbandonedLeft;
    if steps != [] {
      StepKeepsAbandonedLeft(s, steps[0]);
      RunKeepsAbandonedLeft(Next(s, steps[0]), steps[1..]);
    }
  }

  ghost predicate CanResolve(s: State, id: nat, f: Pair -> Score)
    requires Inv(s)
  {
    exists steps :: HonestRun(s, steps, f) && id < |Run(s, steps).jobs| && Run(s, steps).jobs[id].future.Resolved?
  }

  /** In whatever state a run from the start ends, a job with pairs can still get its scores if and only
      if it has them, or it is pending, its worker was not cancelled with it in hand, and a worker runs. */
  lemma CanResolveIff(enabled: bool, capacity: Positive, earlier: seq<Step>, id: nat, caps: Caps, f: Pair -> Score)
    requires Inv(Initial(enabled, capacity)) && HonestRun(Initial(enabled, capacity), earlier, f)
    ensures var s := Run(Initial(enabled, capacity), earlier);
      id < |s.jobs| && s.jobs[id].pairs != [] ==> (CanResolve(s, id, f) <==> !Stranded(s, id))
  {
    RunKeepsAbandonedLeft(Initial(enabled, capacity), earlier);
    RunResults(Initial(enabled, capacity), earlier, f);
    hide Inv, AbandonedLeft, Run, HonestRun, Initial;
    var s := Run(Initial(enabled, capacity), earlier);
    if id < |s.jobs| && s.jobs[id].pairs != [] {
      ResolvesUnlessStranded(s, id, caps, f);
    }
  }

  lemma ResolvesUnlessStranded(s: State, id: nat, caps: Caps, f: Pair -> Score)
    requires Inv(s) && AbandonedLeft(s) && AllFaithful(s.jobs, f)
    requires id < |s.jobs| && s.jobs[id].pairs != []
    ensures CanResolve(s, id, f) <==> !Stranded(s, id)
  {
    if Stranded(s, id) {
      forall steps | HonestRun(s, steps, f) ensures Stranded(Run(s, steps), id) {
        RunKeepsStranded(s, steps, id, f);
      }
    } else if s.jobs[id].future.Resolved? {
      NoSteps(s, f);
    } else {
      var steps := WorkerFinishesAll(s, caps, f);
      hide Run, HonestRun;
      assert Run(s, steps).jobs[id].future.Resolved?;
    }
  }
}
