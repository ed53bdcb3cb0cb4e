/** What the whole system can still do: every admissible request can be answered from every state, and
    exactly which requests already under way can no longer be. */
module EndToEndProgress {
  import opened Basics
  import opened Batching
  import opened BatchingOutcomes
  import opened Cache
  import opened Service
  import opened EndToEnd
  import B = BatcherRuns
  import P = BatcherProgress

  /* ---------- runs in two parts ---------- */

  lemma {:induction false} RunInParts(x: Fixed, s: System, a: seq<Event>, b: seq<Event>, f: Pair -> Score)
    requires Inv(x, s, f) && Respects(x.keys, f) && HonestEvents(x, s, a, f) && HonestEvents(x, Run(x, s, a, f), b, f)
    ensures HonestEvents(x, s, a + b, f) && Run(x, s, a + b, f) == Run(x, Run(x, s, a, f), b, f)
    decreases |a|
  {
    hide Inv, Next, Respects, HonestEvent;
    if a == [] {
      assert a + b == b;
    } else {
      assert (a + b)[0] == a[0] && (a + b)[1..] == a[1..] + b;
      RunInParts(x, Next(x, s, a[0], f), a[1..], b, f);
    }
  }

  lemma OneEvent(x: Fixed, s: System, e: Event, f: Pair -> Score)
    requires Inv(x, s, f) && Respects(x.keys, f) && HonestEvent(x, s, e, f)
    ensures HonestEvents(x, s, [e], f) && Run(x, s, [e], f) == Apply(x, s, e, f)
  {
    hide Inv, Apply, Respects, HonestEvent;
    assert [e][1..] == [];
    assert Run(x, Next(x, s, e, f), [], f) == Next(x, s, e, f);
  }

  lemma NoEvents(x: Fixed, s: System, f: Pair -> Score)
    requires Inv(x, s, f) && Respects(x.keys, f)
    ensures HonestEvents(x, s, [], f) && Run(x, s, [], f) == s
  {
    hide Inv, Respects;
  }

  lemma OwnEventHonest(x: Fixed, s: System, e: Event, f: Pair -> Score)
    requires Inv(x, s, f) && !e.Batcher? && !e.DirectAnswer?
    ensures HonestEvent(x, s, e, f)
  {
    hide Inv;
  }

  /** Steps of the batcher as events of the system. */
  function Events(steps: seq<B.Step>): (events: seq<Event>)
    ensures |events| == |steps| && forall k :: 0 <= k < |events| ==> events[k] == Batcher(steps[k])
  {
    seq(|steps|, k requires 0 <= k < |steps| => Batcher(steps[k]))
  }

  lemma BatcherEvent(x: Fixed, s: System, step: B.Step, f: Pair -> Score)
    requires Inv(x, s, f) && !step.Submit? && B.HonestStep(s.batcher, step, f)
    ensures HonestEvent(x, s, Batcher(step), f)
    ensures Apply(x, s, Batcher(step), f) == s.(batcher := B.Next(s.batcher, step))
  {
    hide B.Inv, B.Next, B.HonestStep, Coherent, Admissible, ClientInv;
  }

  /** The batcher's steps leave the rest of the system alone. */
  lemma {:induction false} BatcherEvents(x: Fixed, s: System, steps: seq<B.Step>, f: Pair -> Score)
    requires Inv(x, s, f) && Respects(x.keys, f) && B.Inv(s.batcher) && B.HonestRun(s.batcher, steps, f)
    requires forall k :: 0 <= k < |steps| ==> !steps[k].Submit?
    ensures HonestEvents(x, s, Events(steps), f)
    ensures Run(x, s, Events(steps), f) == s.(batcher := B.Run(s.batcher, steps))
    decreases |steps|
  {
    hide Inv, B.Inv, B.Next, Respects, HonestEvent, B.HonestStep, Apply;
    if steps == [] {
      assert s.(batcher := s.batcher) == s;
    } else {
      BatcherEvent(x, s, steps[0], f);
      var next := Next(x, s, Batcher(steps[0]), f);
      BatcherEvents(x, next, steps[1..], f);
      assert Events(steps)[0] == Batcher(steps[0]) && Events(steps)[1..] == Events(steps[1..]);
    }
  }

  lemma BatcherInv(x: Fixed, s: System, f: Pair -> Score)
    requires Inv(x, s, f)
    ensures B.Inv(s.batcher) && AllFaithful(s.batcher.jobs, f)
  {
    hide B.Inv, AllFaithful, Coherent, Admissible, ClientInv;
  }

  /* ---------- events that bring a request forward ---------- */

  /** Nobody's time runs out, nothing is switched, evicted or closed; a close under way may end. */
  predicate Helpful(e: Event) {
    match e
    case Timeout(_) => false
    case Evict(_) => false
    case Batcher(step) => step.Start? || step.Collect? || step.Launch? || step.Answered? || step.CloseEnd?
    case _ => true
  }

  predicate AllHelpful(events: seq<Event>) {
    forall k :: 0 <= k < |events| ==> Helpful(events[k])
  }

  /** Such events, with the predictor's own answers, take the system from `s` to `t`. */
  ghost predicate Leads(x: Fixed, s: System, events: seq<Event>, t: System, f: Pair -> Score) {
    && Inv(x, s, f) && Respects(x.keys, f) && Inv(x, t, f)
    && AllHelpful(events) && HonestEvents(x, s, events, f) && Run(x, s, events, f) == t
  }

  lemma LeadsOn(x: Fixed, s: System, a: seq<Event>, t: System, b: seq<Event>, u: System, f: Pair -> Score)
    requires Leads(x, s, a, t, f) && Leads(x, t, b, u, f)
    ensures Leads(x, s, a + b, u, f)
  {
    hide Inv, Respects, Run, HonestEvents, Helpful;
    RunInParts(x, s, a, b, f);
  }

  lemma LeadsByEvent(x: Fixed, s: System, e: Event, f: Pair -> Score)
    requires Inv(x, s, f) && Respects(x.keys, f) && HonestEvent(x, s, e, f) && Helpful(e)
    ensures Leads(x, s, [e], Apply(x, s, e, f), f)
  {
    ApplyKeepsInv(x, s, e, f);
    OneEvent(x, s, e, f);
    hide Inv, Respects, Run, HonestEvents, Helpful, Apply, HonestEvent;
  }

  lemma LeadsByNothing(x: Fixed, s: System, f: Pair -> Score)
    requires Inv(x, s, f) && Respects(x.keys, f)
    ensures Leads(x, s, [], s, f)
  {
    NoEvents(x, s, f);
    hide Inv, Respects, Run, HonestEvents;
  }

  lemma LeadsByBatcher(x: Fixed, s: System, steps: seq<B.Step>, f: Pair -> Score)
    requires Inv(x, s, f) && Respects(x.keys, f) && B.Inv(s.batcher) && B.HonestRun(s.batcher, steps, f) && P.WorkOnly(steps)
    ensures Leads(x, s, Events(steps), s.(batcher := B.Run(s.batcher, steps)), f)
  {
    BatcherEvents(x, s, steps, f);
    hide Inv, Respects, B.Inv, Run, HonestEvents, B.Run;
  }

  /* ---------- from each phase to an answer ---------- */

  /** Client `i` is answered in `t`, and asked for the same before. */
  predicate AnsweredIn(s: System, t: System, i: nat) {
    && i < |s.clients| && i < |t.clients|
    && t.clients[i].request == s.clients[i].request && t.clients[i].phase.Done?
  }

  lemma FromWriting(x: Fixed, s: System, i: nat, f: Pair -> Score) returns (events: seq<Event>, t: System)
    requires Inv(x, s, f) && Respects(x.keys, f) && i < |s.clients| && s.clients[i].phase.Writing?
    ensures Leads(x, s, events, t, f) && AnsweredIn(s, t, i) && t.batcher == s.batcher
    ensures t.clients[i].phase.response.hits + |s.clients[i].phase.values| == |s.clients[i].request.documents|
  {
    FinishAnswers(x, s, i, f);
    OwnEventHonest(x, s, Finish(i), f);
    LeadsByEvent(x, s, Finish(i), f);
    events, t := [Finish(i)], Apply(x, s, Finish(i), f);
    HitsAddUp(x, s.clients[i].request, s.clients[i].phase.found, s.clients[i].phase.values);
    hide Inv, Respects, Apply, ResponseOf, Leads;
  }

  lemma HitsAddUp(x: Fixed, request: Request, found: seq<Option<Score>>, values: seq<Score>)
    requires |found| == |request.documents| && |values| == |Misses(found)|
    ensures ResponseOf(x, request, found, values).hits + |values| == |request.documents|
  {
  }

  lemma FromDirect(x: Fixed, s: System, i: nat, f: Pair -> Score) returns (events: seq<Event>, t: System)
    requires Inv(x, s, f) && Respects(x.keys, f) && i < |s.clients| && s.clients[i].phase.Direct?
    ensures Leads(x, s, events, t, f) && AnsweredIn(s, t, i)
  {
    var e, next := DirectAnswered(x, s, i, f);
    LeadsByEvent(x, s, e, f);
    hide Inv, Respects, Apply, Leads;
    var rest, end := FromWriting(x, next, i, f);
    LeadsOn(x, s, [e], next, rest, end, f);
    events, t := [e] + rest, end;
  }

  lemma DirectAnswered(x: Fixed, s: System, i: nat, f: Pair -> Score) returns (e: Event, t: System)
    requires Inv(x, s, f) && i < |s.clients| && s.clients[i].phase.Direct?
    ensures HonestEvent(x, s, e, f) && Helpful(e) && t == Apply(x, s, e, f)
    ensures i < |t.clients| && t.clients[i].request == s.clients[i].request && t.clients[i].phase.Writing?
  {
    DirectFound(x, s, i, f);
    hide Inv, PairsFor;
    var c := s.clients[i];
    var pairs := PairsFor(x, c, c.phase.found);
    e := DirectAnswer(i, Scores(Map(f, pairs)));
    t := EndToEnd.Moved(s, i, Writing(c.phase.found, Map(f, pairs)));
    assert t == Apply(x, s, e, f);
  }

  lemma DirectFound(x: Fixed, s: System, i: nat, f: Pair -> Score)
    requires Inv(x, s, f) && i < |s.clients| && s.clients[i].phase.Direct?
    ensures |s.clients[i].phase.found| == |s.clients[i].request.documents|
  {
    assert ClientInv(x, s.batcher.jobs, s.clients[i], f);
  }

  lemma WaitsForPairs(x: Fixed, s: System, i: nat, f: Pair -> Score)
    requires Inv(x, s, f) && i < |s.clients| && s.clients[i].phase.Waiting?
    ensures s.clients[i].phase.job < |s.batcher.jobs| && s.batcher.jobs[s.clients[i].phase.job].pairs != []
  {
    assert ClientInv(x, s.batcher.jobs, s.clients[i], f);
  }

  lemma DeliverTakes(x: Fixed, s: System, i: nat, f: Pair -> Score)
    requires Inv(x, s, f) && i < |s.clients| && s.clients[i].phase.Waiting?
    requires s.clients[i].phase.job < |s.batcher.jobs| && s.batcher.jobs[s.clients[i].phase.job].future.Resolved?
    ensures var c := s.clients[i];
      Apply(x, s, Deliver(i), f) == EndToEnd.Moved(s, i, Writing(c.phase.found, s.batcher.jobs[c.phase.job].future.value))
  {
    hide Inv;
  }

  /** A client whose job has its scores. */
  lemma FromResolved(x: Fixed, s: System, i: nat, f: Pair -> Score) returns (events: seq<Event>, t: System)
    requires Inv(x, s, f) && Respects(x.keys, f) && i < |s.clients| && s.clients[i].phase.Waiting?
    requires s.clients[i].phase.job < |s.batcher.jobs| && s.batcher.jobs[s.clients[i].phase.job].future.Resolved?
    ensures Leads(x, s, events, t, f) && AnsweredIn(s, t, i) && t.batcher == s.batcher
  {
    DeliverTakes(x, s, i, f);
    OwnEventHonest(x, s, Deliver(i), f);
    LeadsByEvent(x, s, Deliver(i), f);
    hide Inv, Respects, Apply, Leads;
    var next := Apply(x, s, Deliver(i), f);
    assert Inv(x, next, f) by { LeadsTo(x, s, [Deliver(i)], next, f); }
    var rest, end := FromWriting(x, next, i, f);
    LeadsOn(x, s, [Deliver(i)], next, rest, end, f);
    events, t := [Deliver(i)] + rest, end;
  }

  lemma LeadsTo(x: Fixed, s: System, events: seq<Event>, t: System, f: Pair -> Score)
    requires Leads(x, s, events, t, f)
    ensures Inv(x, t, f) && Respects(x.keys, f)
  {
  }

  /** A client whose job is not beyond the batcher: the worker finishes it, then it is delivered. */
  lemma FromWaiting(x: Fixed, s: System, i: nat, caps: Caps, f: Pair -> Score) returns (events: seq<Event>, t: System)
    requires Inv(x, s, f) && Respects(x.keys, f) && i < |s.clients| && s.clients[i].phase.Waiting?
    requires !P.Stranded(s.batcher, s.clients[i].phase.job)
    ensures Leads(x, s, events, t, f) && AnsweredIn(s, t, i)
    ensures s.clients[i].phase.job < |s.batcher.jobs| == |t.batcher.jobs|
    ensures t.batcher.jobs[s.clients[i].phase.job].future == Resolved(Map(f, s.batcher.jobs[s.clients[i].phase.job].pairs))
  {
    WaitsForPairs(x, s, i, f);
    BatcherInv(x, s, f);
    var job := s.clients[i].phase.job;
    if s.batcher.jobs[job].future.Resolved? {
      events, t := FromResolved(x, s, i, f);
      ResolvedValue(s.batcher, job, f);
    } else {
      var steps := P.WorkerFinishesAll(s.batcher, caps, f);
      LeadsByBatcher(x, s, steps, f);
      hide Inv, B.Inv, Respects, Leads, B.Run, AllFaithful;
      var next := s.(batcher := B.Run(s.batcher, steps));
      LeadsTo(x, s, Events(steps), next, f);
      var rest, end := FromResolved(x, next, i, f);
      LeadsOn(x, s, Events(steps), next, rest, end, f);
      events, t := Events(steps) + rest, end;
    }
  }

  lemma ResolvedValue(b: B.State, job: nat, f: Pair -> Score)
    requires B.Inv(b) && AllFaithful(b.jobs, f) && job < |b.jobs| && b.jobs[job].future.Resolved?
    ensures b.jobs[job].future == Resolved(Map(f, b.jobs[job].pairs))
  {
    B.InvWellFormed(b);
    assert b.jobs[job].WellFormed() && Faithful(b.jobs[job], f);
    assert b.jobs[job].pairs[..|b.jobs[job].pairs|] == b.jobs[job].pairs;
  }

  /* ---------- room in the queue ---------- */

  /** The system with another batcher. */
  ghost predicate OnlyBatcherMoved(s: System, t: System) {
    t == s.(batcher := t.batcher)
  }

  /** While batching is on, the batcher can be brought to accept another job: a worker that was cancelled
      finishes, one is started if there is none, and it empties the queue. */
  lemma MakeRoom(x: Fixed, s: System, caps: Caps, f: Pair -> Score) returns (events: seq<Event>, t: System)
    requires Inv(x, s, f) && Respects(x.keys, f) && s.batcher.enabled
    ensures Leads(x, s, events, t, f) && OnlyBatcherMoved(s, t)
    ensures t.batcher.enabled && B.Accepts(t.batcher) && P.Working(t.batcher)
  {
    BatcherInv(x, s, f);
    hide Inv, Respects, Leads, AllFaithful, B.Run;
    if P.Working(s.batcher) {
      hide B.Inv;
      var steps := P.WorkerFinishesAll(s.batcher, caps, f);
      LeadsByBatcher(x, s, steps, f);
      events, t := Events(steps), s.(batcher := B.Run(s.batcher, steps));
    } else if s.batcher.worker.Stopped? {
      events, t := StartWorker(x, s, f);
    } else {
      var stopped := s.(batcher := B.Next(s.batcher, B.CloseEnd));
      P.HonestUnlessReply(s.batcher, B.CloseEnd, f);
      BatcherEvent(x, s, B.CloseEnd, f);
      LeadsByEvent(x, s, Batcher(B.CloseEnd), f);
      hide B.Inv;
      LeadsTo(x, s, [Batcher(B.CloseEnd)], stopped, f);
      var rest;
      rest, t := StartWorker(x, stopped, f);
      LeadsOn(x, s, [Batcher(B.CloseEnd)], stopped, rest, t, f);
      events := [Batcher(B.CloseEnd)] + rest;
    }
  }

  lemma StartWorker(x: Fixed, s: System, f: Pair -> Score) returns (events: seq<Event>, t: System)
    requires Inv(x, s, f) && Respects(x.keys, f) && s.batcher.enabled && s.batcher.worker.Stopped?
    ensures Leads(x, s, events, t, f) && OnlyBatcherMoved(s, t)
    ensures t.batcher.enabled && B.Accepts(t.batcher) && P.Working(t.batcher)
  {
    BatcherInv(x, s, f);
    P.HonestUnlessReply(s.batcher, B.Start, f);
    BatcherEvent(x, s, B.Start, f);
    LeadsByEvent(x, s, Batcher(B.Start), f);
    hide Inv, Respects, Leads, AllFaithful, Apply, HonestEvent;
    events, t := [Batcher(B.Start)], s.(batcher := B.Next(s.batcher, B.Start));
  }

  /* ---------- after the lookup ---------- */

  /** The pairs a client that has looked still needs. */
  function Needed(x: Fixed, c: Client): seq<Pair>
    requires c.phase.Looked? && |c.phase.found| == |c.request.documents|
  {
    PairsFor(x, c, c.phase.found)
  }

  lemma LookedWell(x: Fixed, s: System, i: nat, f: Pair -> Score)
    requires Inv(x, s, f) && i < |s.clients| && s.clients[i].phase.Looked?
    ensures |s.clients[i].phase.found| == |s.clients[i].request.documents|
  {
    assert ClientInv(x, s.batcher.jobs, s.clients[i], f);
  }

  lemma EnqueueTakes(x: Fixed, s: System, i: nat, f: Pair -> Score)
    requires Inv(x, s, f) && i < |s.clients| && s.clients[i].phase.Looked?
    ensures |s.clients[i].phase.found| == |s.clients[i].request.documents|
    ensures B.Inv(s.batcher) && Apply(x, s, Enqueue(i), f) == Enqueued(x, s, i)
  {
    LookedWell(x, s, i, f);
    hide Inv, Enqueued;
    BatcherInv(x, s, f);
  }

  /** All documents were found in the cache: the predictor is not needed. */
  lemma FromAllFound(x: Fixed, s: System, i: nat, f: Pair -> Score) returns (events: seq<Event>, t: System)
    requires Inv(x, s, f) && Respects(x.keys, f) && i < |s.clients| && s.clients[i].phase.Looked?
    requires |s.clients[i].phase.found| == |s.clients[i].request.documents| && Needed(x, s.clients[i]) == []
    ensures Leads(x, s, events, t, f) && AnsweredIn(s, t, i) && events == [Enqueue(i), Finish(i)]
    ensures t.clients[i].phase.response.hits == |s.clients[i].request.documents| && t.batcher == s.batcher
  {
    EnqueueTakes(x, s, i, f);
    OwnEventHonest(x, s, Enqueue(i), f);
    LeadsByEvent(x, s, Enqueue(i), f);
    hide Inv, Respects, Apply, Leads, PairsFor;
    var next := Apply(x, s, Enqueue(i), f);
    LeadsTo(x, s, [Enqueue(i)], next, f);
    FinishAnswers(x, next, i, f);
    OwnEventHonest(x, next, Finish(i), f);
    LeadsByEvent(x, next, Finish(i), f);
    LeadsOn(x, s, [Enqueue(i)], next, [Finish(i)], Apply(x, next, Finish(i), f), f);
    events, t := [Enqueue(i)] + [Finish(i)], Apply(x, next, Finish(i), f);
    HitsAddUp(x, next.clients[i].request, next.clients[i].phase.found, next.clients[i].phase.values);
    hide ResponseOf;
  }

  /** Batching is off: the predictor is called directly. */
  lemma FromUnbatched(x: Fixed, s: System, i: nat, f: Pair -> Score) returns (events: seq<Event>, t: System)
    requires Inv(x, s, f) && Respects(x.keys, f) && i < |s.clients| && s.clients[i].phase.Looked?
    requires |s.clients[i].phase.found| == |s.clients[i].request.documents| && Needed(x, s.clients[i]) != []
    requires !s.batcher.enabled
    ensures Leads(x, s, events, t, f) && AnsweredIn(s, t, i)
  {
    EnqueueTakes(x, s, i, f);
    OwnEventHonest(x, s, Enqueue(i), f);
    LeadsByEvent(x, s, Enqueue(i), f);
    hide Inv, Respects, Apply, Leads, PairsFor;
    var next := Apply(x, s, Enqueue(i), f);
    LeadsTo(x, s, [Enqueue(i)], next, f);
    var rest, end := FromDirect(x, next, i, f);
    LeadsOn(x, s, [Enqueue(i)], next, rest, end, f);
    events, t := [Enqueue(i)] + rest, end;
  }

  /** Job `job` has the scores of these pairs. */
  predicate JobScored(t: System, job: nat, pairs: seq<Pair>, f: Pair -> Score) {
    job < |t.batcher.jobs| && t.batcher.jobs[job].pairs == pairs && t.batcher.jobs[job].future == Resolved(Map(f, pairs))
  }

  lemma SubmittedIsFresh(x: Fixed, s: System, i: nat, f: Pair -> Score)
    requires Inv(x, s, f) && i < |s.clients| && s.clients[i].phase.Looked?
    requires |s.clients[i].phase.found| == |s.clients[i].request.documents| && Needed(x, s.clients[i]) != []
    requires s.batcher.enabled && B.Accepts(s.batcher) && P.Working(s.batcher)
    requires P.AbandonedLeft(s.batcher)
    ensures var t, job := Apply(x, s, Enqueue(i), f), |s.batcher.jobs|;
      && |t.batcher.jobs| == job + 1 && t.batcher.jobs[job].pairs == Needed(x, s.clients[i])
      && i < |t.clients| && t.clients[i].request == s.clients[i].request
      && t.clients[i].phase == Waiting(s.clients[i].phase.found, job)
      && !P.Stranded(t.batcher, job)
  {
    EnqueueTakes(x, s, i, f);
    SubmitAdds(s.batcher, Needed(x, s.clients[i]));
    FreshNotAbandoned(s.batcher);
    B.SubmitAllOrNothing(s.batcher, Needed(x, s.clients[i]));
    SubmitKeepsRest(s.batcher, Needed(x, s.clients[i]));
    hide Inv, Apply, PairsFor, B.Inv, B.Next;
  }

  lemma FreshNotAbandoned(b: B.State)
    requires B.Inv(b) && P.AbandonedLeft(b)
    ensures |b.jobs| !in b.abandoned
  {
  }

  lemma SubmitKeepsRest(b: B.State, pairs: seq<Pair>)
    requires B.Inv(b)
    ensures B.Next(b, B.Submit(pairs)).abandoned == b.abandoned && B.Next(b, B.Submit(pairs)).worker == b.worker
  {
    hide B.Inv;
  }

  /** Through the batcher: room is made, the missing pairs are submitted as one job, the worker and the
      predictor finish it, and its scores are delivered. */
  lemma FromBatched(x: Fixed, s: System, i: nat, caps: Caps, f: Pair -> Score) returns (events: seq<Event>, t: System, job: nat)
    requires Inv(x, s, f) && Respects(x.keys, f) && i < |s.clients| && s.clients[i].phase.Looked?
    requires |s.clients[i].phase.found| == |s.clients[i].request.documents| && Needed(x, s.clients[i]) != []
    requires s.batcher.enabled && P.AbandonedLeft(s.batcher)
    ensures Leads(x, s, events, t, f) && AnsweredIn(s, t, i)
    ensures job >= |s.batcher.jobs| && JobScored(t, job, Needed(x, s.clients[i]), f)
  {
    var first, room := MakeRoom(x, s, caps, f);
    LeadsTo(x, s, first, room, f);
    LeadsKeepAbandoned(x, s, first, room, f);
    BatcherGrows(x, s, first, room, f);
    SubmittedIsFresh(x, room, i, f);
    OwnEventHonest(x, room, Enqueue(i), f);
    LeadsByEvent(x, room, Enqueue(i), f);
    hide Inv, Respects, Apply, Leads, PairsFor, P.Stranded, P.AbandonedLeft;
    var next := Apply(x, room, Enqueue(i), f);
    LeadsTo(x, room, [Enqueue(i)], next, f);
    var rest;
    rest, t := FromWaiting(x, next, i, caps, f);
    job := |room.batcher.jobs|;
    LeadsTo(x, next, rest, t, f);
    BatcherContinues(x, next, rest, t, f, job);
    LeadsOn(x, room, [Enqueue(i)], next, rest, t, f);
    LeadsOn(x, s, first, room, [Enqueue(i)] + rest, t, f);
    events := first + ([Enqueue(i)] + rest);
  }

  /* ---------- the batcher over any events ---------- */

  /** What one event does to the batcher: a step of its own, or nothing. */
  lemma EventIsStep(x: Fixed, s: System, e: Event, f: Pair -> Score) returns (steps: seq<B.Step>)
    requires Inv(x, s, f) && HonestEvent(x, s, e, f)
    ensures B.Inv(s.batcher) && |steps| <= 1
    ensures |steps| == 0 ==> Apply(x, s, e, f).batcher == s.batcher
    ensures |steps| == 1 ==> B.HonestStep(s.batcher, steps[0], f) && Apply(x, s, e, f).batcher == B.Next(s.batcher, steps[0])
  {
    BatcherInv(x, s, f);
    steps := [];
    match e
    case Batcher(step) =>
      hide Inv, B.Next, B.HonestStep;
      if !step.Submit? {
        steps := [step];
      }
    case Enqueue(i) =>
      if i < |s.clients| && s.clients[i].phase.Looked? {
        EnqueueTakes(x, s, i, f);
        var pairs := PairsFor(x, s.clients[i], s.clients[i].phase.found);
        hide Inv, Apply, PairsFor, B.Inv, B.Next;
        P.HonestUnlessReply(s.batcher, B.Submit(pairs), f);
        if pairs != [] && s.batcher.enabled && B.Accepts(s.batcher) {
          steps := [B.Submit(pairs)];
        }
      } else {
        hide Inv;
      }
    case Timeout(i) =>
      if i < |s.clients| && s.clients[i].phase.Waiting? {
        hide Inv, B.Next;
        P.HonestUnlessReply(s.batcher, B.GiveUp(s.clients[i].phase.job), f);
        steps := [B.GiveUp(s.clients[i].phase.job)];
      } else {
        hide Inv;
      }
    case _ =>
      hide Inv, B.Inv, B.Next, Merge, Respond, LookUp, PairsFor, Key;
  }

  lemma EventKeepsAbandoned(x: Fixed, s: System, e: Event, f: Pair -> Score)
    requires Inv(x, s, f) && HonestEvent(x, s, e, f) && P.AbandonedLeft(s.batcher)
    ensures P.AbandonedLeft(Apply(x, s, e, f).batcher)
  {
    var steps := EventIsStep(x, s, e, f);
    hide Inv, Apply, B.Inv, B.Next, P.AbandonedLeft, HonestEvent;
    if |steps| == 1 {
      P.StepKeepsAbandonedLeft(s.batcher, steps[0]);
    }
  }

  lemma {:induction false} RunKeepsAbandoned(x: Fixed, s: System, events: seq<Event>, f: Pair -> Score)
    requires Inv(x, s, f) && Respects(x.keys, f) && HonestEvents(x, s, events, f) && P.AbandonedLeft(s.batcher)
    ensures P.AbandonedLeft(Run(x, s, events, f).batcher)
    decreases |events|
  {
    hide Inv, Respects, Apply, P.AbandonedLeft, HonestEvent;
    if events != [] {
      EventKeepsAbandoned(x, s, events[0], f);
      RunKeepsAbandoned(x, Next(x, s, events[0], f), events[1..], f);
    }
  }

  lemma LeadsKeepAbandoned(x: Fixed, s: System, events: seq<Event>, t: System, f: Pair -> Score)
    requires Leads(x, s, events, t, f) && P.AbandonedLeft(s.batcher)
    ensures P.AbandonedLeft(t.batcher)
  {
    hide Inv, Respects, Run, HonestEvents, P.AbandonedLeft, AllHelpful;
    RunKeepsAbandoned(x, s, events, f);
  }

  /** Jobs are only added, and their pairs stay. */
  lemma EventContinues(x: Fixed, s: System, e: Event, f: Pair -> Score)
    requires Inv(x, s, f) && HonestEvent(x, s, e, f)
    ensures B.Continues(s.batcher.jobs, Apply(x, s, e, f).batcher.jobs)
  {
    var steps := EventIsStep(x, s, e, f);
    hide Inv, Apply, B.Inv, B.Next, HonestEvent, AllFaithful;
    if |steps| == 1 {
      B.InvWellFormed(s.batcher);
      B.StepResults(s.batcher, steps[0], f);
    }
  }

  lemma {:induction false} RunContinues(x: Fixed, s: System, events: seq<Event>, f: Pair -> Score)
    requires Inv(x, s, f) && Respects(x.keys, f) && HonestEvents(x, s, events, f)
    ensures B.Continues(s.batcher.jobs, Run(x, s, events, f).batcher.jobs)
    decreases |events|
  {
    hide Inv, Respects, Apply, HonestEvent;
    if events != [] {
      EventContinues(x, s, events[0], f);
      RunContinues(x, Next(x, s, events[0], f), events[1..], f);
    }
  }

  lemma BatcherGrows(x: Fixed, s: System, events: seq<Event>, t: System, f: Pair -> Score)
    requires Leads(x, s, events, t, f)
    ensures |s.batcher.jobs| <= |t.batcher.jobs|
  {
    hide Inv, Respects, Run, HonestEvents, AllHelpful;
    RunContinues(x, s, events, f);
  }

  lemma BatcherContinues(x: Fixed, s: System, events: seq<Event>, t: System, f: Pair -> Score, job: nat)
    requires Leads(x, s, events, t, f) && job < |s.batcher.jobs|
    ensures job < |t.batcher.jobs| && t.batcher.jobs[job].pairs == s.batcher.jobs[job].pairs
  {
    hide Inv, Respects, Run, HonestEvents, AllHelpful;
    RunContinues(x, s, events, f);
  }

  /* ---------- every request can be answered ---------- */

  lemma StartAbandoned(enabled: bool, capacity: Positive)
    ensures P.AbandonedLeft(Start(enabled, capacity).batcher)
  {
  }

  /** From the lookup on, whatever was found and whatever the batcher is doing. */
  lemma FromLooked(x: Fixed, s: System, i: nat, caps: Caps, f: Pair -> Score) returns (events: seq<Event>, t: System, job: nat)
    requires Inv(x, s, f) && Respects(x.keys, f) && i < |s.clients| && s.clients[i].phase.Looked?
    requires P.AbandonedLeft(s.batcher)
    ensures Leads(x, s, events, t, f) && AnsweredIn(s, t, i)
    ensures |s.clients[i].phase.found| == |s.clients[i].request.documents|
    ensures Needed(x, s.clients[i]) != [] && s.batcher.enabled ==>
      job >= |s.batcher.jobs| && JobScored(t, job, Needed(x, s.clients[i]), f)
  {
    LookedWell(x, s, i, f);
    hide Inv, Respects, Leads, PairsFor, P.AbandonedLeft, AnsweredIn, JobScored;
    job := 0;
    if Needed(x, s.clients[i]) == [] {
      events, t := FromAllFound(x, s, i, f);
    } else if s.batcher.enabled {
      events, t, job := FromBatched(x, s, i, caps, f);
    } else {
      events, t := FromUnbatched(x, s, i, f);
    }
  }

  /** A request arrives and is looked up. */
  lemma ArriveAndLook(x: Fixed, s: System, request: Request, f: Pair -> Score) returns (t: System)
    requires Inv(x, s, f) && Respects(x.keys, f) && Admissible(request, x.limits)
    ensures Leads(x, s, [Arrive(request), Look(|s.clients|, false)], t, f)
    ensures var c := Client(request, Looked(LookUp(x, s.store, Client(request, Arrived), false)));
      t == s.(clients := s.clients + [c])
  {
    var arrived := s.(clients := s.clients + [Client(request, Arrived)]);
    OwnEventHonest(x, s, Arrive(request), f);
    LeadsByEvent(x, s, Arrive(request), f);
    LeadsTo(x, s, [Arrive(request)], arrived, f);
    OwnEventHonest(x, arrived, Look(|s.clients|, false), f);
    LeadsByEvent(x, arrived, Look(|s.clients|, false), f);
    hide Inv, Respects, Leads, Admissible, LookUp;
    t := Apply(x, arrived, Look(|s.clients|, false), f);
    LeadsOn(x, s, [Arrive(request)], arrived, [Look(|s.clients|, false)], t, f);
    assert [Arrive(request)] + [Look(|s.clients|, false)] == [Arrive(request), Look(|s.clients|, false)];
  }

  /** The request is the new client's, it is answered, and as it would be alone. */
  ghost predicate RequestAnswered(x: Fixed, t: System, n: nat, request: Request, f: Pair -> Score) {
    && n < |t.clients| && t.clients[n].request == request && t.clients[n].phase.Done?
    && (PlainRequest(x.keys, request, x.limits) ==> Bare(t.clients[n].phase.response) == Bare(Alone(request, x.limits, f)))
  }

  lemma AnsweredRight(x: Fixed, s: System, t: System, n: nat, request: Request, f: Pair -> Score)
    requires Inv(x, t, f) && AnsweredIn(s, t, n) && s.clients[n].request == request
    ensures RequestAnswered(x, t, n, request, f)
  {
    AnsweredClients(x, t, f);
    hide Inv, Bare, Alone, PlainRequest;
    assert AnsweredAsAlone(x, t.clients[n], f);
  }

  /** The pairs of the request whose scores the cache does not have. */
  function Uncached(x: Fixed, store: map<string, Score>, request: Request): seq<Pair> {
    var c := Client(request, Arrived);
    PairsFor(x, c, LookUp(x, store, c, false))
  }

  /** In whatever state a run ends, any admissible request can be answered: there are events, in which
      nothing is switched off, evicted or closed and nobody's time runs out, after which it is, with the
      ids, scores and ranks it would have alone. With batching on, the pairs that are not cached go
      through the batcher as one job, whatever the batcher was doing. */
  lemma EveryRequestCanBeAnswered(x: Fixed, enabled: bool, capacity: Positive, earlier: seq<Event>, request: Request,
                                  caps: Caps, f: Pair -> Score) returns (events: seq<Event>, job: nat)
    requires Respects(x.keys, f) && Admissible(request, x.limits)
    ensures Inv(x, Start(enabled, capacity), f)
    ensures HonestEvents(x, Start(enabled, capacity), earlier, f) ==>
      var s := Run(x, Start(enabled, capacity), earlier, f);
      && HonestEvents(x, s, events, f) && AllHelpful(events)
      && var t := Run(x, s, events, f);
         && RequestAnswered(x, t, |s.clients|, request, f)
         && (s.batcher.enabled && Uncached(x, s.store, request) != [] ==>
               job >= |s.batcher.jobs| && JobScored(t, job, Uncached(x, s.store, request), f))
  {
    StartInv(x, enabled, capacity, f);
    StartAbandoned(enabled, capacity);
    hide Inv, Respects, Run, HonestEvents, Admissible, Start, P.AbandonedLeft, RequestAnswered, JobScored, AllHelpful;
    events, job := [], 0;
    if HonestEvents(x, Start(enabled, capacity), earlier, f) {
      RunKeepsAbandoned(x, Start(enabled, capacity), earlier, f);
      events, job := AnswerFrom(x, Run(x, Start(enabled, capacity), earlier, f), request, caps, f);
    }
  }

  lemma AnswerFrom(x: Fixed, s: System, request: Request, caps: Caps, f: Pair -> Score) returns (events: seq<Event>, job: nat)
    requires Inv(x, s, f) && Respects(x.keys, f) && P.AbandonedLeft(s.batcher) && Admissible(request, x.limits)
    ensures HonestEvents(x, s, events, f) && AllHelpful(events)
    ensures var t := Run(x, s, events, f);
      && RequestAnswered(x, t, |s.clients|, request, f)
      && (s.batcher.enabled && Uncached(x, s.store, request) != [] ==>
            job >= |s.batcher.jobs| && JobScored(t, job, Uncached(x, s.store, request), f))
  {
    var n := |s.clients|;
    var first := [Arrive(request), Look(n, false)];
    var looked := ArriveAndLook(x, s, request, f);
    LeadsTo(x, s, first, looked, f);
    hide Inv, Respects, Leads, Admissible, P.AbandonedLeft, LookUp, PairsFor, RequestAnswered, JobScored, AllHelpful, Run, HonestEvents;
    var rest, t;
    rest, t, job := FromLooked(x, looked, n, caps, f);
    SamePairs(x, looked.clients[n], request);
    LeadsTo(x, looked, rest, t, f);
    AnsweredRight(x, looked, t, n, request, f);
    LeadsOn(x, s, first, looked, rest, t, f);
    events := first + rest;
    LeadsMeans(x, s, events, t, f);
  }

  lemma SamePairs(x: Fixed, c: Client, request: Request)
    requires c.request == request && c.phase.Looked? && |c.phase.found| == |request.documents|
    ensures Needed(x, c) == PairsFor(x, Client(request, Arrived), c.phase.found)
  {
    hide Query, TextsOf, PrepareAll;
  }

  lemma LeadsMeans(x: Fixed, s: System, events: seq<Event>, t: System, f: Pair -> Score)
    requires Leads(x, s, events, t, f)
    ensures Inv(x, s, f) && Respects(x.keys, f) && AllHelpful(events) && HonestEvents(x, s, events, f) && Run(x, s, events, f) == t
  {
  }

  /** The cache has a score for every document. */
  predicate AllCached(x: Fixed, store: map<string, Score>, request: Request) {
    forall k :: 0 <= k < |request.documents| ==>
      Lookup(x.keys, store, (Query(request, x.limits), TextsOf(PrepareAll(request, x.limits))[k])).Some?
  }

  lemma CachedNeedsNothing(x: Fixed, store: map<string, Score>, request: Request)
    requires AllCached(x, store, request)
    ensures Uncached(x, store, request) == []
  {
    var c := Client(request, Arrived);
    NoMissesIff(LookUp(x, store, c, false));
    hide Lookup, Query, TextsOf, PrepareAll, Misses;
  }

  /** A request all of whose scores are cached is answered in four events, without the batcher and the
      predictor, and reports a hit for every document. */
  lemma CachedRequestIsAnswered(x: Fixed, s: System, request: Request, f: Pair -> Score)
    requires Inv(x, s, f) && Respects(x.keys, f) && Admissible(request, x.limits)
    requires AllCached(x, s.store, request)
    ensures var n := |s.clients|;
      var events := [Arrive(request), Look(n, false), Enqueue(n), Finish(n)];
      && HonestEvents(x, s, events, f)
      && var t := Run(x, s, events, f);
         && RequestAnswered(x, t, n, request, f) && t.batcher == s.batcher
         && t.clients[n].phase.response.hits == |request.documents|
  {
    var n := |s.clients|;
    var first := [Arrive(request), Look(n, false)];
    CachedNeedsNothing(x, s.store, request);
    var looked := ArriveAndLook(x, s, request, f);
    hide Inv, Respects, Leads, Admissible, LookUp, PairsFor, RequestAnswered, AllHelpful, Run, HonestEvents, AllCached;
    LeadsTo(x, s, first, looked, f);
    SamePairs(x, looked.clients[n], request);
    var rest, t := FromAllFound(x, looked, n, f);
    LeadsTo(x, looked, rest, t, f);
    AnsweredRight(x, looked, t, n, request, f);
    IsAnswered(x, t, n, request, f);
    LeadsOn(x, s, first, looked, rest, t, f);
    assert first + rest == [Arrive(request), Look(n, false), Enqueue(n), Finish(n)];
    LeadsMeans(x, s, first + rest, t, f);
  }

  lemma IsAnswered(x: Fixed, t: System, n: nat, request: Request, f: Pair -> Score)
    requires RequestAnswered(x, t, n, request, f)
    ensures n < |t.clients| && t.clients[n].phase.Done?
  {
  }

  /* ---------- which clients are beyond help ---------- */

  /** The client gave up, or waits for a job that nothing resolves any more. */
  predicate Beyond(s: System, i: nat)
    requires i < |s.clients|
  {
    s.clients[i].phase.GaveUp? || (s.clients[i].phase.Waiting? && P.Stranded(s.batcher, s.clients[i].phase.job))
  }

  /** While its job has no scores, a waiting client waits on or gives up. */
  lemma UnresolvedWaits(x: Fixed, s: System, e: Event, i: nat, f: Pair -> Score)
    requires Inv(x, s, f) && i < |s.clients| && s.clients[i].phase.Waiting?
    requires s.clients[i].phase.job < |s.batcher.jobs| && !s.batcher.jobs[s.clients[i].phase.job].future.Resolved?
    ensures i < |Apply(x, s, e, f).clients|
    ensures Apply(x, s, e, f).clients[i].phase.GaveUp? || Apply(x, s, e, f).clients[i].phase == s.clients[i].phase
  {
    if Concerns(e, i) {
      hide Inv, B.Next, Respond, Merge, Key, Admissible, PairsFor, LookUp, Misses, Final, Enqueued;
    } else {
      OthersStay(x, s, e, i, f);
    }
  }

  lemma EventKeepsBeyond(x: Fixed, s: System, e: Event, i: nat, f: Pair -> Score)
    requires Inv(x, s, f) && HonestEvent(x, s, e, f) && P.AbandonedLeft(s.batcher) && i < |s.clients| && Beyond(s, i)
    ensures i < |Apply(x, s, e, f).clients| && Beyond(Apply(x, s, e, f), i)
  {
    if s.clients[i].phase.GaveUp? {
      OutcomesExplained(x, s, e, i, f);
      hide Apply, Inv, P.Stranded;
    } else {
      UnresolvedWaits(x, s, e, i, f);
      var steps := EventIsStep(x, s, e, f);
      var job := s.clients[i].phase.job;
      hide Inv, Apply, B.Inv, B.Next, P.AbandonedLeft, P.Stranded, HonestEvent;
      if |steps| == 1 {
        P.StrandedStays(s.batcher, steps[0], job, f);
      }
    }
  }

  lemma {:induction false} RunKeepsBeyond(x: Fixed, s: System, events: seq<Event>, i: nat, f: Pair -> Score)
    requires Inv(x, s, f) && Respects(x.keys, f) && HonestEvents(x, s, events, f)
    requires P.AbandonedLeft(s.batcher) && i < |s.clients| && Beyond(s, i)
    ensures i < |Run(x, s, events, f).clients| && Beyond(Run(x, s, events, f), i)
    decreases |events|
  {
    hide Inv, Respects, Apply, P.AbandonedLeft, HonestEvent, Beyond;
    if events != [] {
      EventKeepsBeyond(x, s, events[0], i, f);
      EventKeepsAbandoned(x, s, events[0], f);
      RunKeepsBeyond(x, Next(x, s, events[0], f), events[1..], i, f);
    }
  }

  ghost predicate CanBeAnswered(x: Fixed, s: System, i: nat, f: Pair -> Score)
    requires Inv(x, s, f) && Respects(x.keys, f) && i < |s.clients|
  {
    exists events :: HonestEvents(x, s, events, f) && AnsweredIn(s, Run(x, s, events, f), i)
  }

  /** In whatever state a run ends, a request under way can still be answered if and only if it has not
      given up and does not wait for a job that was cancelled or failed, was in the hands of a worker
      that a close cancelled, or has no running worker to take it. */
  lemma CanBeAnsweredIff(x: Fixed, enabled: bool, capacity: Positive, earlier: seq<Event>, i: nat, caps: Caps, f: Pair -> Score)
    requires Respects(x.keys, f)
    ensures Inv(x, Start(enabled, capacity), f)
    ensures HonestEvents(x, Start(enabled, capacity), earlier, f) ==>
      var s := Run(x, Start(enabled, capacity), earlier, f);
      i < |s.clients| ==> (CanBeAnswered(x, s, i, f) <==> !Beyond(s, i))
  {
    StartInv(x, enabled, capacity, f);
    StartAbandoned(enabled, capacity);
    hide Inv, Respects, Run, HonestEvents, Start, P.AbandonedLeft, CanBeAnswered, Beyond;
    if HonestEvents(x, Start(enabled, capacity), earlier, f) {
      var s := Run(x, Start(enabled, capacity), earlier, f);
      if i < |s.clients| {
        RunKeepsAbandoned(x, Start(enabled, capacity), earlier, f);
        AnsweredUnlessBeyond(x, s, i, caps, f);
      }
    }
  }

  lemma AnsweredUnlessBeyond(x: Fixed, s: System, i: nat, caps: Caps, f: Pair -> Score)
    requires Inv(x, s, f) && Respects(x.keys, f) && P.AbandonedLeft(s.batcher) && i < |s.clients|
    ensures CanBeAnswered(x, s, i, f) <==> !Beyond(s, i)
  {
    hide Inv, Respects, P.AbandonedLeft, Run, HonestEvents, P.Stranded;
    if Beyond(s, i) {
      forall events | HonestEvents(x, s, events, f) ensures !AnsweredIn(s, Run(x, s, events, f), i) {
        RunKeepsBeyond(x, s, events, i, f);
      }
    } else {
      var events, t := FromAnyPhase(x, s, i, caps, f);
      LeadsMeans(x, s, events, t, f);
      hide AnsweredIn;
      assert AnsweredIn(s, Run(x, s, events, f), i);
    }
  }

  lemma LookLeads(x: Fixed, s: System, i: nat, f: Pair -> Score) returns (t: System)
    requires Inv(x, s, f) && Respects(x.keys, f) && i < |s.clients| && s.clients[i].phase.Arrived?
    ensures Leads(x, s, [Look(i, false)], t, f) && t.batcher == s.batcher
    ensures i < |t.clients| && t.clients[i].phase.Looked? && t.clients[i].request == s.clients[i].request
  {
    OwnEventHonest(x, s, Look(i, false), f);
    LeadsByEvent(x, s, Look(i, false), f);
    hide Inv, Respects, Leads, LookUp;
    t := Apply(x, s, Look(i, false), f);
  }

  lemma FromAnyPhase(x: Fixed, s: System, i: nat, caps: Caps, f: Pair -> Score) returns (events: seq<Event>, t: System)
    requires Inv(x, s, f) && Respects(x.keys, f) && P.AbandonedLeft(s.batcher) && i < |s.clients| && !Beyond(s, i)
    ensures Leads(x, s, events, t, f) && AnsweredIn(s, t, i)
  {
    hide Inv, Respects, P.AbandonedLeft, P.Stranded, Leads;
    match s.clients[i].phase
    case Arrived =>
      var looked := LookLeads(x, s, i, f);
      LeadsTo(x, s, [Look(i, false)], looked, f);
      var rest, job;
      rest, t, job := FromLooked(x, looked, i, caps, f);
      LeadsOn(x, s, [Look(i, false)], looked, rest, t, f);
      events := [Look(i, false)] + rest;
    case Looked(_) =>
      var job;
      events, t, job := FromLooked(x, s, i, caps, f);
    case Waiting(_, _) =>
      events, t := FromWaiting(x, s, i, caps, f);
    case Direct(_) =>
      events, t := FromDirect(x, s, i, f);
    case Writing(_, _) =>
      events, t := FromWriting(x, s, i, f);
    case Done(_) =>
      LeadsByNothing(x, s, f);
      events, t := [], s;
    case GaveUp =>
      assert false;
  }
}
