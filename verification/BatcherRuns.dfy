/** The whole batcher as a step system: submissions, the worker collecting and processing jobs,
    clients giving up, settings changes and close, in any order. Every await of the program is a
    point between two steps; what lies between two awaits is one step. */
module BatcherRuns {
  import opened Batching
  import opened BatchingProperties
  import opened BatchingOutcomes

  /** Where the worker task is. `held` are the jobs of its current round of work. */
  datatype Worker =
    | Stopped
    | Idle
    | Collecting(held: seq<nat>)
    | Awaiting(held: seq<nat>, active: seq<nat>, counts: seq<nat>, batch: seq<Pair>, caps: Caps)
    | Stopping(held: seq<nat>)
  {
    function Held(): seq<nat> {
      if Stopped? || Idle? then [] else held
    }
  }

  /** How a job left the queue. */
  datatype Departure = Collected(id: nat) | Drained(id: nat)

  /** Jobs are numbered in the order they were accepted; `abandoned` are those the worker held
      when it was cancelled. */
  datatype State = State(
    jobs: seq<Job>, queue: seq<nat>, worker: Worker, enabled: bool, capacity: Positive,
    departed: seq<Departure>, abandoned: set<nat>)

  datatype Step =
    | Submit(pairs: seq<Pair>)
    | GiveUp(job: nat)
    | Toggle(on: bool)
    | Start
    | Collect
    | Launch(caps: Caps)
    | Answered(answer: Answer, next: Caps)
    | CloseBegin
    | CloseEnd

  function Initial(enabled: bool, capacity: Positive): State {
    State([], [], Stopped, enabled, capacity, [], {})
  }

  function Ids(departed: seq<Departure>): (ids: seq<nat>)
    ensures |ids| == |departed| && forall k :: 0 <= k < |ids| ==> ids[k] == departed[k].id
  {
    seq(|departed|, k requires 0 <= k < |departed| => departed[k].id)
  }

  /** Accepted: batching is on, the worker exists and the queue has room. Otherwise the call goes
      straight to the predictor or raises; either way nothing here changes. */
  predicate Accepts(s: State) {
    s.enabled && !s.worker.Stopped? && |s.queue| < s.capacity
  }

  /** Packs and sends the next batch of the live jobs among `candidates`, or returns to the
      queue when there is none. */
  function Send(s: State, held: seq<nat>, candidates: seq<nat>, caps: Caps): State
    requires AllWellFormed(s.jobs) && ValidIds(s.jobs, candidates)
  {
    var active := Active(s.jobs, candidates);
    var counts := Counts(s.jobs, active, 0, 0, caps);
    var batch := Batch(s.jobs, active, counts);
    s.(worker := if active == [] || batch == [] then Idle else Awaiting(held, active, counts, batch, caps))
  }

  function CancelAll(jobs: seq<Job>, ids: seq<nat>): (r: seq<Job>)
    ensures |r| == |jobs|
    ensures forall i :: 0 <= i < |jobs| ==> r[i] == if i in ids then Cancel(jobs[i]) else jobs[i]
  {
    seq(|jobs|, i requires 0 <= i < |jobs| => if i in ids then Cancel(jobs[i]) else jobs[i])
  }

  /* ---------- what every state satisfies ---------- */

  ghost predicate Awaits(s: State)
    requires s.worker.Awaiting?
  {
    var w := s.worker;
    && ValidIds(s.jobs, w.held)
    && ValidCounts(s.jobs, w.active, w.counts)
    && w.batch == Batch(s.jobs, w.active, w.counts)
    && WithinBudget(w.batch, w.caps)
    && (forall id :: id in w.active ==> id in w.held)
    && (forall id :: id in w.held && s.jobs[id].Live() ==> id in w.active)
  }

  /** A job is wherever it could still be resolved from, or the close that dropped it is on record. */
  predicate Reachable(s: State, id: nat) {
    id in s.queue || id in s.worker.Held() || id in s.abandoned
  }

  ghost predicate Inv(s: State) {
    && AllWellFormed(s.jobs)
    && |s.queue| <= s.capacity
    && (s.worker.Stopped? ==> s.queue == [])
    // every accepted job is in the queue or has left it, exactly once and in acceptance order
    && |s.departed| + |s.queue| == |s.jobs|
    && (forall k :: 0 <= k < |s.departed| ==> s.departed[k].id == k)
    && (forall k :: 0 <= k < |s.queue| ==> s.queue[k] == |s.departed| + k)
    // the worker holds the jobs it collected last, in order
    && |s.worker.Held()| <= |s.departed|
    && (forall k :: 0 <= k < |s.worker.Held()| ==> s.worker.Held()[k] == |s.departed| - |s.worker.Held()| + k)
    && (s.worker.Awaiting? ==> Awaits(s))
    && (s.worker.Stopping? ==> forall id :: id in s.worker.held ==> id in s.abandoned)
    // what close drained is done, and no other live job with pairs is lost
    && (forall k :: 0 <= k < |s.departed| && s.departed[k].Drained? ==> !s.jobs[k].Live())
    && (forall id :: 0 <= id < |s.jobs| && s.jobs[id].Live() && s.jobs[id].pairs != [] ==> Reachable(s, id))
  }

  lemma HeldValid(s: State)
    requires Inv(s)
    ensures ValidIds(s.jobs, s.worker.Held())
  {
  }

  /* ---------- steps ---------- */

  function Submitted(s: State, pairs: seq<Pair>): State {
    if Accepts(s) then s.(jobs := s.jobs + [Job(pairs, 0, [], Pending)], queue := s.queue + [|s.jobs|])
    else s
  }

  function GaveUp(s: State, job: nat): State {
    if job < |s.jobs| then s.(jobs := s.jobs[job := Cancel(s.jobs[job])]) else s
  }

  /** The worker takes the oldest job, to start a round of work or while the window is open. */
  function Taken(s: State): State {
    if s.queue != [] && (s.worker.Idle? || s.worker.Collecting?) then
      s.(queue := s.queue[1..],
         worker := Collecting(s.worker.Held() + [s.queue[0]]),
         departed := s.departed + [Collected(s.queue[0])])
    else s
  }

  /** The predictor's reply: scores go back to their jobs and the next batch goes out, or the
      round fails and the worker returns to the queue. That the worker is cancelled is not a reply:
      only `close` does that. */
  function Replied(s: State, answer: Answer, next: Caps): State
    requires Inv(s)
  {
    if !s.worker.Awaiting? || answer.WorkerCancelled? then s else
    var w := s.worker;
    if answer.Scores? && |answer.values| == |w.batch| then
      BatchLength(s.jobs, w.active, w.counts);
      var moved := s.(jobs := Scatter(s.jobs, w.active, w.counts, answer.values));
      Send(moved, w.held, w.active, next)
    else s.(jobs := FailAll(s.jobs, w.active), worker := Idle)
  }

  /** `close`: the worker is cancelled and awaited; then whatever is queued is cancelled. */
  function CloseBegun(s: State): State {
    if s.worker.Stopped? || s.worker.Stopping? then s
    else s.(worker := Stopping(s.worker.Held()), abandoned := s.abandoned + set id | id in s.worker.Held())
  }

  function CloseEnded(s: State): State {
    if s.worker.Stopping? then
      s.(jobs := CancelAll(s.jobs, s.queue), queue := [], worker := Stopped,
         departed := s.departed + seq(|s.queue|, k requires 0 <= k < |s.queue| => Drained(s.queue[k])))
    else s
  }

  /** One step of the system; a step that is not possible leaves the state as it is. */
  function Apply(s: State, step: Step): State
    requires Inv(s)
  {
    match step
    case Submit(pairs) => Submitted(s, pairs)
    case GiveUp(job) => GaveUp(s, job)
    case Toggle(on) => s.(enabled := on)
    case Start => if s.enabled && s.worker.Stopped? then s.(worker := Idle) else s
    case Collect => Taken(s)
    case Launch(caps) =>
      HeldValid(s);
      if s.worker.Collecting? then Send(s, s.worker.held, s.worker.held, caps) else s
    case Answered(answer, next) => Replied(s, answer, next)
    case CloseBegin => CloseBegun(s)
    case CloseEnd => CloseEnded(s)
  }

  /* ---------- the invariant over one step ---------- */

  /** Both places the worker sends from: after collecting, and after a scored round. */
  lemma SendKeepsInv(s: State, held: seq<nat>, candidates: seq<nat>, caps: Caps)
    requires Inv(s.(worker := Collecting(held)))
    requires ValidIds(s.jobs, candidates)
    requires forall id :: id in candidates ==> id in held
    requires forall id :: id in held && id < |s.jobs| && s.jobs[id].Live() ==> id in candidates
    ensures Inv(Send(s, held, candidates, caps))
  {
    hide TakeCount, Counts, Batch, PairTokens, Sum;
    HeldValid(s.(worker := Collecting(held)));
    var t := Send(s, held, candidates, caps);
    var active := Active(s.jobs, candidates);
    PackingFits(s.jobs, active, 0, 0, caps);
    if t.worker.Idle? {
      forall id | 0 <= id < |s.jobs| && s.jobs[id].Live() && s.jobs[id].pairs != [] ensures Reachable(t, id) {
        assert Reachable(s.(worker := Collecting(held)), id);
        if id in held {
          assert id in active;
          SomethingToSend(s.jobs, active, id, caps);
        }
      }
    }
  }

  lemma SomethingToSend(jobs: seq<Job>, active: seq<nat>, id: nat, caps: Caps)
    requires AllWellFormed(jobs) && ValidIds(jobs, active)
    requires id in active && jobs[id].Live() && jobs[id].pairs != []
    ensures Batch(jobs, active, Counts(jobs, active, 0, 0, caps)) != []
  {
    hide TakeCount, Counts, Batch;
    var k := FirstUnsent(jobs, active);
    var i :| 0 <= i < |active| && active[i] == id;
    assert jobs[id].WellFormed() && jobs[active[i]].Rest() != [];
    PackingStartsWithFirst(jobs, active, k, caps);
  }

  /** Jobs may advance or settle under the invariant, as long as the worker's batch is untouched. */
  ghost predicate Progressed(before: seq<Job>, after: seq<Job>) {
    && |after| == |before| && AllWellFormed(after)
    && forall i :: 0 <= i < |before| ==>
      && after[i].pairs == before[i].pairs
      && (!before[i].Live() ==> !after[i].Live())
  }

  lemma ProgressKeepsInv(s: State, after: seq<Job>)
    requires Inv(s) && Progressed(s.jobs, after)
    requires s.worker.Awaiting? ==> forall i :: 0 <= i < |after| ==> after[i].cursor == s.jobs[i].cursor
    ensures Inv(s.(jobs := after))
  {
    hide Batch;
    var t := s.(jobs := after);
    forall id | 0 <= id < |after| && after[id].Live() && after[id].pairs != [] ensures Reachable(t, id) {
      assert Reachable(s, id);
    }
    if s.worker.Awaiting? {
      var w := s.worker;
      assert forall k :: 0 <= k < |w.active| ==> after[w.active[k]].Rest() == s.jobs[w.active[k]].Rest();
      BatchFrame(s.jobs, after, w.active, w.counts);
    }
  }

  lemma SubmitKeepsInv(s: State, pairs: seq<Pair>)
    requires Inv(s)
    ensures Inv(Submitted(s, pairs))
  {
    hide Batch;
    var t := Submitted(s, pairs);
    if Accepts(s) {
      forall id | 0 <= id < |t.jobs| && t.jobs[id].Live() && t.jobs[id].pairs != [] ensures Reachable(t, id) {
        if id < |s.jobs| {
          assert Reachable(s, id) && t.jobs[id] == s.jobs[id];
        } else {
          assert t.queue[|s.queue|] == id;
        }
      }
      if s.worker.Awaiting? {
        var w := s.worker;
        assert forall k :: 0 <= k < |w.active| ==> t.jobs[w.active[k]] == s.jobs[w.active[k]];
        BatchFrame(s.jobs, t.jobs, w.active, w.counts);
      }
    }
  }

  lemma TakenKeepsInv(s: State)
    requires Inv(s)
    ensures Inv(Taken(s))
  {
    var t := Taken(s);
    if t != s {
      forall id | 0 <= id < |t.jobs| && t.jobs[id].Live() && t.jobs[id].pairs != [] ensures Reachable(t, id) {
        assert Reachable(s, id);
        if id in s.queue && id != s.queue[0] {
          var k :| 0 <= k < |s.queue| && s.queue[k] == id;
          assert t.queue[k - 1] == id;
        } else if id in s.worker.Held() || id == s.queue[0] {
          var held := s.worker.Held();
          if id == s.queue[0] {
            assert t.worker.held[|held|] == id;
          } else {
            var k :| 0 <= k < |held| && held[k] == id;
            assert t.worker.held[k] == id;
          }
        }
      }
    }
  }

  lemma ReplyKeepsInv(s: State, answer: Answer, next: Caps)
    requires Inv(s)
    ensures Inv(Replied(s, answer, next))
  {
    hide Scatter, Batch, Counts, Send, WithinBudget;
    if s.worker.Awaiting? && !answer.WorkerCancelled? {
      var w := s.worker;
      var idle := s.(worker := Collecting(w.held));
      assert Inv(idle) by {
        forall id | 0 <= id < |s.jobs| && s.jobs[id].Live() && s.jobs[id].pairs != [] ensures Reachable(idle, id) {
          assert Reachable(s, id);
        }
      }
      BatchLength(s.jobs, w.active, w.counts);
      if answer.Scores? && |answer.values| == |w.batch| {
        var jobs := Scatter(s.jobs, w.active, w.counts, answer.values);
        ScatterProgresses(s.jobs, w.active, w.counts, answer.values);
        ProgressKeepsInv(idle, jobs);
        assert forall id :: id in w.held && id < |jobs| && jobs[id].Live() ==> s.jobs[id].Live();
        SendKeepsInv(s.(jobs := jobs), w.held, w.active, next);
        assert Send(s.(jobs := jobs), w.held, w.active, next) == Replied(s, answer, next);
      } else {
        FailedRoundKeepsInv(s);
      }
    }
  }

  lemma ScatterProgresses(jobs: seq<Job>, active: seq<nat>, counts: seq<nat>, scores: seq<Score>)
    requires ValidCounts(jobs, active, counts) && |scores| == Total(counts)
    ensures Progressed(jobs, Scatter(jobs, active, counts, scores))
  {
    hide Scatter;
    var after := Scatter(jobs, active, counts, scores);
    forall i | 0 <= i < |jobs|
      ensures after[i].pairs == jobs[i].pairs && (!jobs[i].Live() ==> !after[i].Live())
    {
      if i in active {
        var k :| 0 <= k < |active| && active[k] == i;
      }
    }
  }

  lemma FailedRoundKeepsInv(s: State)
    requires Inv(s) && s.worker.Awaiting?
    ensures Inv(s.(jobs := FailAll(s.jobs, s.worker.active), worker := Idle))
  {
    hide Batch, WithinBudget;
    var w := s.worker;
    var t := s.(jobs := FailAll(s.jobs, w.active), worker := Idle);
    forall id | 0 <= id < |t.jobs| && t.jobs[id].Live() && t.jobs[id].pairs != [] ensures Reachable(t, id) {
      assert s.jobs[id].Live() && Reachable(s, id);
      assert id !in w.active;
    }
  }

  lemma CloseEndKeepsInv(s: State)
    requires Inv(s)
    ensures Inv(CloseEnded(s))
  {
    var t := CloseEnded(s);
    if s.worker.Stopping? {
      assert AllWellFormed(t.jobs);
      forall k | 0 <= k < |t.departed|
        ensures t.departed[k].id == k && (t.departed[k].Drained? ==> !t.jobs[k].Live())
      {
        if k >= |s.departed| {
          assert t.departed[k] == Drained(s.queue[k - |s.departed|]);
          assert s.queue[k - |s.departed|] == k;
        }
      }
      forall id | 0 <= id < |t.jobs| && t.jobs[id].Live() && t.jobs[id].pairs != [] ensures Reachable(t, id) {
        assert s.jobs[id].Live() && Reachable(s, id);
      }
    }
  }

  lemma ApplyKeepsInv(s: State, step: Step)
    requires Inv(s)
    ensures Inv(Apply(s, step))
  {
    hide Awaits, Taken, Send, Replied, Submitted, CloseEnded;
    match step
    case Submit(pairs) => SubmitKeepsInv(s, pairs);
    case GiveUp(job) => GaveUpKeepsInv(s, job);
    case Toggle(on) => WorkerUntouched(s, s.(enabled := on));
    case Start =>
      if s.worker.Stopped? {
        StartKeepsInv(s);
      }
    case Collect => TakenKeepsInv(s);
    case Launch(caps) =>
      if s.worker.Collecting? {
        HeldValid(s);
        assert s.(worker := Collecting(s.worker.held)) == s;
        SendKeepsInv(s, s.worker.held, s.worker.held, caps);
      }
    case Answered(answer, next) => ReplyKeepsInv(s, answer, next);
    case CloseBegin => CloseBeginKeepsInv(s);
    case CloseEnd => CloseEndKeepsInv(s);
  }

  lemma WorkerUntouched(s: State, t: State)
    requires Inv(s) && t == s.(enabled := t.enabled)
    ensures Inv(t)
  {
    hide Batch, WithinBudget;
    forall id | 0 <= id < |t.jobs| && t.jobs[id].Live() && t.jobs[id].pairs != [] ensures Reachable(t, id) {
      assert Reachable(s, id);
    }
  }

  lemma StartKeepsInv(s: State)
    requires Inv(s) && s.worker.Stopped?
    ensures Inv(s.(worker := Idle))
  {
    var t := s.(worker := Idle);
    forall id | 0 <= id < |t.jobs| && t.jobs[id].Live() && t.jobs[id].pairs != [] ensures Reachable(t, id) {
      assert Reachable(s, id);
    }
  }

  lemma GaveUpKeepsInv(s: State, job: nat)
    requires Inv(s)
    ensures Inv(GaveUp(s, job))
  {
    if job < |s.jobs| {
      ProgressKeepsInv(s, s.jobs[job := Cancel(s.jobs[job])]);
    }
  }

  lemma CloseBeginKeepsInv(s: State)
    requires Inv(s)
    ensures Inv(CloseBegun(s))
  {
    hide Awaits;
    var t := CloseBegun(s);
    if t != s {
      forall id | 0 <= id < |t.jobs| && t.jobs[id].Live() && t.jobs[id].pairs != [] ensures Reachable(t, id) {
        assert Reachable(s, id);
      }
    }
  }

  /* ---------- whole runs ---------- */

  function Next(s: State, step: Step): (t: State)
    requires Inv(s)
    ensures Inv(t)
  {
    ApplyKeepsInv(s, step);
    Apply(s, step)
  }

  function Run(s: State, steps: seq<Step>): (t: State)
    requires Inv(s)
    ensures Inv(t)
    decreases |steps|
  {
    if steps == [] then s else Run(Next(s, steps[0]), steps[1..])
  }

  /** Conservation over whole runs: the queue is bounded; every job accepted so far is either queued
      or has left the queue, once, in acceptance order; the worker holds a contiguous stretch of the
      jobs collected; and a live job with pairs is queued, held, or was held by a worker that a
      close cancelled. Every batch in flight is within the caps it was packed under. */
  lemma Conservation(enabled: bool, capacity: Positive, steps: seq<Step>)
    ensures Inv(Initial(enabled, capacity))
    ensures var s := Run(Initial(enabled, capacity), steps);
      && |s.queue| <= s.capacity
      && Ids(s.departed) + s.queue == seq(|s.jobs|, i => i)
      && (forall id :: id in s.worker.Held() ==> id in Ids(s.departed) && id !in s.queue)
      && (forall id :: 0 <= id < |s.jobs| && s.jobs[id].Live() && s.jobs[id].pairs != [] ==> Reachable(s, id))
      && (s.worker.Awaiting? ==> WithinBudget(s.worker.batch, s.worker.caps))
  {
    InitialInv(enabled, capacity);
    hide Run, Initial, Awaits;
    var s := Run(Initial(enabled, capacity), steps);
    InOrder(s);
    HeldHaveLeft(s);
    SentWithinBudget(s);
  }

  lemma InitialInv(enabled: bool, capacity: Positive)
    ensures Inv(Initial(enabled, capacity))
  {
  }

  lemma InOrder(s: State)
    requires Inv(s)
    ensures Ids(s.departed) + s.queue == seq(|s.jobs|, i => i)
  {
    hide Awaits, Reachable, AllWellFormed;
  }

  lemma HeldHaveLeft(s: State)
    requires Inv(s)
    ensures forall id :: id in s.worker.Held() ==> id in Ids(s.departed) && id !in s.queue
  {
    hide Awaits, Reachable, AllWellFormed;
    var held := s.worker.Held();
    forall id | id in held ensures id in Ids(s.departed) && id !in s.queue {
      var k :| 0 <= k < |held| && held[k] == id;
      assert Ids(s.departed)[id] == id;
    }
  }

  lemma SentWithinBudget(s: State)
    requires Inv(s)
    ensures s.worker.Awaiting? ==> WithinBudget(s.worker.batch, s.worker.caps)
  {
    hide Reachable, AllWellFormed, Batch, WithinBudget;
  }

  /** A submission either joins the end of the queue as a fresh job or changes nothing at all. */
  lemma SubmitAllOrNothing(s: State, pairs: seq<Pair>)
    requires Inv(s)
    ensures var t := Apply(s, Submit(pairs));
      if s.enabled && !s.worker.Stopped? && |s.queue| < s.capacity then
        && t.queue == s.queue + [|s.jobs|] && |t.queue| <= s.capacity
        && t.jobs == s.jobs + [Job(pairs, 0, [], Pending)]
        && t.departed == s.departed && t.worker == s.worker && |s.jobs| !in s.queue
      else t == s
  {
  }

  /** With batching switched off nothing is accepted; switched on, a job is accepted exactly when there is a
      worker, which a start provides, and room. Nothing else in the state depends on the switch. */
  lemma SwitchDecides(s: State)
    requires Inv(s)
    ensures !Accepts(Next(s, Toggle(false))) && Next(s, Toggle(false)) == s.(enabled := false)
    ensures var on := Next(s, Toggle(true));
      && on == s.(enabled := true)
      && (Accepts(on) <==> !s.worker.Stopped? && |s.queue| < s.capacity)
      && (s.worker.Stopped? ==> Accepts(Next(on, Start)))
  {
    hide Awaits, Reachable;
  }

  /** While `close` awaits the worker nothing but the queue, the jobs and the switch can change, and
      the queue only grows. */
  lemma {:induction false} StoppingStays(s: State, during: seq<Step>)
    requires Inv(s) && s.worker.Stopping? && CloseEnd !in during
    ensures var t := Run(s, during);
      t.worker == s.worker && t.abandoned == s.abandoned && s.queue <= t.queue && |s.jobs| <= |t.jobs|
    decreases |during|
  {
    hide Inv;
    if during != [] {
      assert during[0] != CloseEnd;
      StoppingStays(Next(s, during[0]), during[1..]);
    }
  }

  /** After `close` the queue is empty and everything queued before it or while it awaited the worker
      is done; the only jobs it can leave undone are those its worker held. Submissions, clients
      giving up and settings changes may come in between. */
  lemma CloseDrains(s: State, during: seq<Step>)
    requires Inv(s) && !s.worker.Stopped? && CloseEnd !in during
    ensures var waited := Run(Next(s, CloseBegin), during);
      var t := Next(waited, CloseEnd);
      && t.queue == [] && t.worker.Stopped? && |t.jobs| == |waited.jobs|
      && s.queue <= waited.queue && (forall id :: id in waited.queue ==> !t.jobs[id].Live())
      && (forall id :: 0 <= id < |t.jobs| && t.jobs[id].Live() && t.jobs[id].pairs != [] ==>
            id in s.abandoned || id in s.worker.Held())
  {
    hide Awaits;
    var begun := Next(s, CloseBegin);
    StoppingStays(begun, during);
    var waited := Run(begun, during);
    hide Run;
    var t := Next(waited, CloseEnd);
    forall id | 0 <= id < |t.jobs| && t.jobs[id].Live() && t.jobs[id].pairs != []
      ensures id in s.abandoned || id in s.worker.Held()
    {
      assert Reachable(t, id);
    }
  }

  /* ---------- results over whole runs ---------- */

  /** The answer is the per-pair predictor's, if it is one score per pair at all. */
  ghost predicate HonestStep(s: State, step: Step, f: Pair -> Score) {
    s.worker.Awaiting? && step.Answered? && step.answer.Scores? && |step.answer.values| == |s.worker.batch|
    ==> step.answer.values == Map(f, s.worker.batch)
  }

  ghost predicate HonestRun(s: State, steps: seq<Step>, f: Pair -> Score)
    requires Inv(s)
    decreases |steps|
  {
    steps == [] || (HonestStep(s, steps[0], f) && HonestRun(Next(s, steps[0]), steps[1..], f))
  }

  /** Pairs never change and a done future keeps its outcome; new jobs only join at the end. */
  ghost predicate Continues(before: seq<Job>, after: seq<Job>) {
    && |before| <= |after|
    && forall i :: 0 <= i < |before| ==>
      && after[i].pairs == before[i].pairs
      && (!before[i].Live() ==> after[i].future == before[i].future)
  }

  /** What one step does to the jobs. */
  ghost predicate GoodStep(before: seq<Job>, after: seq<Job>, f: Pair -> Score)
    requires AllWellFormed(before)
  {
    && Continues(before, after)
    && AllWellFormed(after)
    && (AllFaithful(before, f) ==> AllFaithful(after, f))
  }

  lemma StepResults(s: State, step: Step, f: Pair -> Score)
    requires Inv(s) && HonestStep(s, step, f)
    ensures GoodStep(s.jobs, Next(s, step).jobs, f)
  {
    hide Replied, Send, Awaits, Taken, CloseBegun, Reachable;
    match step
    case Submit(pairs) =>
      var added := Job(pairs, 0, [], Pending);
      assert pairs[..0] == [] && Map(f, []) == [] && Faithful(added, f);
    case Answered(answer, next) => ReplyResults(s, answer, next, f);
    case Collect => TakenResults(s);
    case Launch(caps) => LaunchResults(s, caps);
    case CloseBegin => CloseBegunResults(s);
    case _ =>
  }

  lemma TakenResults(s: State)
    ensures Taken(s).jobs == s.jobs
  {
  }

  lemma CloseBegunResults(s: State)
    ensures CloseBegun(s).jobs == s.jobs
  {
  }

  lemma LaunchResults(s: State, caps: Caps)
    requires Inv(s)
    ensures Apply(s, Launch(caps)).jobs == s.jobs
  {
  }

  lemma ReplyResults(s: State, answer: Answer, next: Caps, f: Pair -> Score)
    requires Inv(s) && HonestStep(s, Answered(answer, next), f)
    ensures GoodStep(s.jobs, Replied(s, answer, next).jobs, f)
  {
    hide Scatter, Counts, Batch, Active, WithinBudget, Reachable;
    if s.worker.Awaiting? {
      var w := s.worker;
      BatchLength(s.jobs, w.active, w.counts);
      if answer.Scores? && |answer.values| == |w.batch| {
        if AllFaithful(s.jobs, f) {
          ScatterFaithful(s.jobs, w.active, w.counts, f);
        }
        ScatterContinues(s.jobs, w.active, w.counts, answer.values);
      } else if AllFaithful(s.jobs, f) {
        FailFaithful(s.jobs, w.active, f);
      }
    }
  }

  lemma ScatterContinues(jobs: seq<Job>, active: seq<nat>, counts: seq<nat>, scores: seq<Score>)
    requires ValidCounts(jobs, active, counts) && |scores| == Total(counts)
    ensures Continues(jobs, Scatter(jobs, active, counts, scores))
  {
    hide Scatter;
    var after := Scatter(jobs, active, counts, scores);
    forall i | 0 <= i < |jobs|
      ensures after[i].pairs == jobs[i].pairs && (!jobs[i].Live() ==> after[i].future == jobs[i].future)
    {
      if i in active {
        var k :| 0 <= k < |active| && active[k] == i;
      }
    }
  }

  lemma InvWellFormed(s: State)
    requires Inv(s)
    ensures AllWellFormed(s.jobs)
  {
  }

  /** Isolation over whole runs: a future that resolves, however its job was split, mixed with
      others, delayed or raced by cancellations and closes, carries exactly its own scores, and
      keeps them. */
  lemma {:induction false} RunResults(s: State, steps: seq<Step>, f: Pair -> Score)
    requires Inv(s) && HonestRun(s, steps, f) && AllFaithful(s.jobs, f)
    ensures var t := Run(s, steps);
      && Continues(s.jobs, t.jobs)
      && AllFaithful(t.jobs, f)
      && (forall id :: 0 <= id < |t.jobs| && t.jobs[id].future.Resolved? ==>
            t.jobs[id].future.value == Map(f, t.jobs[id].pairs))
    decreases |steps|
  {
    hide Next, Inv, HonestStep;
    InvWellFormed(s);
    InvWellFormed(Run(s, steps));
    if steps != [] {
      StepResults(s, steps[0], f);
      RunResults(Next(s, steps[0]), steps[1..], f);
    }
    var t := Run(s, steps);
    forall id | 0 <= id < |t.jobs| && t.jobs[id].future.Resolved?
      ensures t.jobs[id].future.value == Map(f, t.jobs[id].pairs)
    {
      assert t.jobs[id].WellFormed() && Faithful(t.jobs[id], f);
      assert t.jobs[id].pairs[..|t.jobs[id].pairs|] == t.jobs[id].pairs;
    }
  }
}
