/** Many requests at once, through one shared batcher and one shared cache: every request's awaits
    are points where any other request, the batcher's worker, a timeout, a settings change, a close
    or a cache eviction may step in. */
module EndToEnd {
  import opened Basics
  import opened Batching
  import opened BatchingOutcomes
  import opened Cache
  import opened Service
  import B = BatcherRuns

  /** Where one request is: between its awaits it holds what it has so far. */
  datatype Phase =
    | Arrived
    | Looked(found: seq<Option<Score>>)
    | Waiting(found: seq<Option<Score>>, job: nat)
    | Direct(found: seq<Option<Score>>)
    | Writing(found: seq<Option<Score>>, values: seq<Score>)
    | Done(response: Response)
    | GaveUp

  datatype Client = Client(request: Request, phase: Phase)

  /** What does not change during the runs considered: the limits, and the model and key settings. */
  datatype Fixed = Fixed(limits: Limits, keys: KeySettings)

  datatype System = System(batcher: B.State, store: map<string, Score>, clients: seq<Client>)

  datatype Event =
    | Arrive(request: Request)
    | Look(client: nat, down: bool)
    | Enqueue(client: nat)
    | Deliver(client: nat)
    | DirectAnswer(client: nat, answer: Answer)
    | Timeout(client: nat)
    | Write(client: nat, k: nat)
    | Finish(client: nat)
    | Batcher(step: B.Step)
    | Evict(keys: set<string>)

  function Start(enabled: bool, capacity: Positive): System {
    System(B.Initial(enabled, capacity), map[], [])
  }

  function QueryOf(x: Fixed, c: Client): string { Query(c.request, x.limits) }

  function TextsFor(x: Fixed, c: Client): (texts: seq<string>)
    ensures |texts| == |c.request.documents|
  {
    TextsOf(PrepareAll(c.request, x.limits))
  }

  function PairsFor(x: Fixed, c: Client, found: seq<Option<Score>>): seq<Pair>
    requires |found| == |c.request.documents|
  {
    MissPairs(QueryOf(x, c), TextsFor(x, c), Misses(found))
  }

  /* ---------- what every state satisfies ---------- */

  /** What a lookup through a coherent cache leaves: the truth, for requests in whose texts
      every key separator has a space beside it. */
  ghost predicate Found(x: Fixed, c: Client, found: seq<Option<Score>>, f: Pair -> Score) {
    && |found| == |c.request.documents|
    && (PlainRequest(x.keys, c.request, x.limits) ==> Truthful(found, QueryOf(x, c), TextsFor(x, c), f))
  }

  ghost predicate ClientInv(x: Fixed, jobs: seq<Job>, c: Client, f: Pair -> Score) {
    match c.phase
    case Arrived => true
    case Looked(found) => Found(x, c, found, f)
    case Waiting(found, job) =>
      Found(x, c, found, f) && job < |jobs| && jobs[job].pairs == PairsFor(x, c, found) && jobs[job].pairs != []
    case Direct(found) => Found(x, c, found, f)
    case Writing(found, values) => Found(x, c, found, f) && values == Map(f, PairsFor(x, c, found))
    case Done(response) =>
      && Admissible(c.request, x.limits)
      && response.received == |c.request.documents|
      && (PlainRequest(x.keys, c.request, x.limits) ==> Bare(response) == Bare(Alone(c.request, x.limits, f)))
    case GaveUp => true
  }

  ghost predicate Inv(x: Fixed, s: System, f: Pair -> Score) {
    && B.Inv(s.batcher)
    && AllFaithful(s.batcher.jobs, f)
    && Coherent(x.keys, s.store, f)
    && (forall i :: 0 <= i < |s.clients| ==>
          Admissible(s.clients[i].request, x.limits) && ClientInv(x, s.batcher.jobs, s.clients[i], f))
  }

  /* ---------- events ---------- */

  function Moved(s: System, i: nat, phase: Phase): System
    requires i < |s.clients|
  {
    s.(clients := s.clients[i := s.clients[i].(phase := phase)])
  }

  function LookUp(x: Fixed, store: map<string, Score>, c: Client, down: bool): (found: seq<Option<Score>>)
    ensures |found| == |c.request.documents|
  {
    var texts := TextsFor(x, c);
    seq(|texts|, k requires 0 <= k < |texts| =>
      if down then None else Lookup(x.keys, store, (QueryOf(x, c), texts[k])))
  }

  /** After the lookup: submit the misses, if any. Rejected submissions end the request; with
      batching off the predictor is called directly. */
  function Enqueued(x: Fixed, s: System, i: nat): System
    requires i < |s.clients| && s.clients[i].phase.Looked?
    requires |s.clients[i].phase.found| == |s.clients[i].request.documents|
    requires B.Inv(s.batcher)
  {
    var c := s.clients[i];
    var found := c.phase.found;
    var pairs := PairsFor(x, c, found);
    if pairs == [] then Moved(s, i, Writing(found, []))
    else if !s.batcher.enabled then Moved(s, i, Direct(found))
    else if B.Accepts(s.batcher) then
      Moved(s.(batcher := B.Next(s.batcher, B.Submit(pairs))), i, Waiting(found, |s.batcher.jobs|))
    else Moved(s, i, GaveUp)
  }

  function Delivered(s: System, i: nat): System
    requires i < |s.clients| && s.clients[i].phase.Waiting? && s.clients[i].phase.job < |s.batcher.jobs|
  {
    var c := s.clients[i];
    match s.batcher.jobs[c.phase.job].future
    case Pending => s
    case Resolved(values) => Moved(s, i, Writing(c.phase.found, values))
    case _ => Moved(s, i, GaveUp)
  }

  function Finished(x: Fixed, s: System, i: nat): System
    requires i < |s.clients| && s.clients[i].phase.Writing?
    requires |s.clients[i].phase.found| == |s.clients[i].request.documents|
    requires |s.clients[i].phase.values| == |Misses(s.clients[i].phase.found)|
  {
    Moved(s, i, Done(ResponseOf(x, s.clients[i].request, s.clients[i].phase.found, s.clients[i].phase.values)))
  }

  /** The response made of the scores found and those that came back for the others. */
  function ResponseOf(x: Fixed, request: Request, found: seq<Option<Score>>, values: seq<Score>): Response
    requires |found| == |request.documents| && |values| == |Misses(found)|
  {
    var misses := Misses(found);
    Respond(request, x.limits, Final(Merge(found, misses, values)), misses)
  }

  /** One event; an event that is not possible leaves the system as it is. */
  function Apply(x: Fixed, s: System, e: Event, ghost f: Pair -> Score): System
    requires Inv(x, s, f)
  {
    match e
    case Arrive(request) =>
      if Admissible(request, x.limits) then s.(clients := s.clients + [Client(request, Arrived)]) else s
    case Look(i, down) =>
      if i < |s.clients| && s.clients[i].phase.Arrived?
      then Moved(s, i, Looked(LookUp(x, s.store, s.clients[i], down))) else s
    case Enqueue(i) =>
      if i < |s.clients| && s.clients[i].phase.Looked? then
        assert ClientInv(x, s.batcher.jobs, s.clients[i], f);
        Enqueued(x, s, i)
      else s
    case Deliver(i) =>
      if i < |s.clients| && s.clients[i].phase.Waiting? then
        assert ClientInv(x, s.batcher.jobs, s.clients[i], f);
        Delivered(s, i)
      else s
    case DirectAnswer(i, answer) =>
      if i < |s.clients| && s.clients[i].phase.Direct? then
        assert ClientInv(x, s.batcher.jobs, s.clients[i], f);
        if answer.Scores? && |answer.values| == |PairsFor(x, s.clients[i], s.clients[i].phase.found)|
        then Moved(s, i, Writing(s.clients[i].phase.found, answer.values))
        else Moved(s, i, GaveUp)
      else s
    case Timeout(i) =>
      if i < |s.clients| && s.clients[i].phase.Waiting?
      then Moved(s.(batcher := B.Next(s.batcher, B.GiveUp(s.clients[i].phase.job))), i, GaveUp)
      else if i < |s.clients| && s.clients[i].phase.Direct? then Moved(s, i, GaveUp)
      else s
    case Write(i, k) =>
      if i < |s.clients| && s.clients[i].phase.Writing? && k < |s.clients[i].phase.values| then
        assert ClientInv(x, s.batcher.jobs, s.clients[i], f);
        s.(store := s.store[Key(x.keys, PairsFor(x, s.clients[i], s.clients[i].phase.found)[k]) := s.clients[i].phase.values[k]])
      else s
    case Finish(i) =>
      if i < |s.clients| && s.clients[i].phase.Writing? then
        assert ClientInv(x, s.batcher.jobs, s.clients[i], f);
        Finished(x, s, i)
      else s
    case Batcher(step) =>
      if step.Submit? then s else s.(batcher := B.Next(s.batcher, step))
    case Evict(keys) => s.(store := s.store - keys)
  }

  /** Whatever scores come back, from the batcher's predictor or directly, are the predictor's. */
  ghost predicate HonestEvent(x: Fixed, s: System, e: Event, f: Pair -> Score)
    requires Inv(x, s, f)
  {
    && (e.Batcher? ==> B.HonestStep(s.batcher, e.step, f))
    && (e.DirectAnswer? && e.answer.Scores? && e.client < |s.clients| && s.clients[e.client].phase.Direct? ==>
          assert ClientInv(x, s.batcher.jobs, s.clients[e.client], f);
          var pairs := PairsFor(x, s.clients[e.client], s.clients[e.client].phase.found);
          |e.answer.values| == |pairs| ==> e.answer.values == Map(f, pairs))
  }

  /* ---------- the invariant over one event ---------- */

  lemma BatcherMoves(x: Fixed, s: System, step: B.Step, f: Pair -> Score)
    requires Inv(x, s, f) && B.HonestStep(s.batcher, step, f)
    ensures Inv(x, s.(batcher := B.Next(s.batcher, step)), f)
  {
    hide B.Inv, B.Next, B.HonestStep, Coherent, Admissible, PairsFor, Found, PlainRequest;
    B.StepResults(s.batcher, step, f);
    var after := B.Next(s.batcher, step).jobs;
    forall i | 0 <= i < |s.clients| ensures ClientInv(x, after, s.clients[i], f) {
      assert ClientInv(x, s.batcher.jobs, s.clients[i], f);
    }
  }

  /** One client moves on; everything else stays. */
  lemma ClientMoves(x: Fixed, s: System, i: nat, phase: Phase, f: Pair -> Score)
    requires Inv(x, s, f) && i < |s.clients|
    requires ClientInv(x, s.batcher.jobs, s.clients[i].(phase := phase), f)
    ensures Inv(x, Moved(s, i, phase), f)
  {
    hide B.Inv, ClientInv, Coherent, Admissible;
  }

  lemma LookIsFound(x: Fixed, store: map<string, Score>, c: Client, down: bool, f: Pair -> Score)
    requires Coherent(x.keys, store, f)
    ensures Found(x, c, LookUp(x, store, c, down), f)
  {
    hide Key, Plain;
    if PlainRequest(x.keys, c.request, x.limits) {
      CoherentLookupTruthful(x.keys, store, f, QueryOf(x, c), TextsFor(x, c), LookUp(x, store, c, down));
    }
  }

  lemma EnqueueKeepsInv(x: Fixed, s: System, i: nat, f: Pair -> Score)
    requires Inv(x, s, f) && i < |s.clients| && s.clients[i].phase.Looked?
    ensures |s.clients[i].phase.found| == |s.clients[i].request.documents|
    ensures Inv(x, Enqueued(x, s, i), f)
  {
    hide Coherent, Admissible, PlainRequest, B.Inv, B.Next;
    var c := s.clients[i];
    assert ClientInv(x, s.batcher.jobs, c, f);
    var found := c.phase.found;
    var pairs := PairsFor(x, c, found);
    if pairs == [] {
      ClientMoves(x, s, i, Writing(found, []), f);
    } else if !s.batcher.enabled {
      ClientMoves(x, s, i, Direct(found), f);
    } else if B.Accepts(s.batcher) {
      var t := s.(batcher := B.Next(s.batcher, B.Submit(pairs)));
      BatcherMoves(x, s, B.Submit(pairs), f);
      SubmitAdds(s.batcher, pairs);
      ClientMoves(x, t, i, Waiting(found, |s.batcher.jobs|), f);
    } else {
      ClientMoves(x, s, i, GaveUp, f);
    }
  }

  lemma SubmitAdds(b: B.State, pairs: seq<Pair>)
    requires B.Inv(b) && B.Accepts(b)
    ensures B.Next(b, B.Submit(pairs)).jobs == b.jobs + [Job(pairs, 0, [], Pending)]
  {
  }

  lemma DeliverKeepsInv(x: Fixed, s: System, i: nat, f: Pair -> Score)
    requires Inv(x, s, f) && i < |s.clients| && s.clients[i].phase.Waiting?
    ensures s.clients[i].phase.job < |s.batcher.jobs|
    ensures Inv(x, Delivered(s, i), f)
  {
    hide Coherent, Admissible, PlainRequest, B.Next;
    var c := s.clients[i];
    assert ClientInv(x, s.batcher.jobs, c, f);
    var job := s.batcher.jobs[c.phase.job];
    if job.future.Resolved? {
      assert job.WellFormed() && Faithful(job, f) && job.pairs[..|job.pairs|] == job.pairs;
      ClientMoves(x, s, i, Writing(c.phase.found, job.future.value), f);
    } else if !job.future.Pending? {
      ClientMoves(x, s, i, GaveUp, f);
    }
  }

  lemma WriteKeepsInv(x: Fixed, s: System, p: Pair, f: Pair -> Score)
    requires Inv(x, s, f) && Respects(x.keys, f)
    ensures Inv(x, s.(store := s.store[Key(x.keys, p) := f(p)]), f)
  {
    hide Coherent, Admissible, B.Inv, ClientInv, Respects, Key;
    StoreKeepsCoherent(x.keys, s.store, f, p);
  }

  lemma WritingMeans(x: Fixed, s: System, i: nat, f: Pair -> Score)
    requires Inv(x, s, f) && i < |s.clients| && s.clients[i].phase.Writing?
    ensures var c := s.clients[i];
      |c.phase.found| == |c.request.documents| && c.phase.values == Map(f, PairsFor(x, c, c.phase.found))
  {
    assert ClientInv(x, s.batcher.jobs, s.clients[i], f);
  }

  lemma FinishKeepsInv(x: Fixed, s: System, i: nat, f: Pair -> Score)
    requires Inv(x, s, f) && i < |s.clients| && s.clients[i].phase.Writing?
    ensures var phase := s.clients[i].phase;
      |phase.found| == |s.clients[i].request.documents| && |phase.values| == |Misses(phase.found)|
    ensures Inv(x, Finished(x, s, i), f)
  {
    hide Coherent, PlainRequest, B.Inv, Bare, Alone, Admissible, Misses;
    var c := s.clients[i];
    assert ClientInv(x, s.batcher.jobs, c, f);
    var found, misses := c.phase.found, Misses(c.phase.found);
    if PlainRequest(x.keys, c.request, x.limits) {
      Transparent(c.request, x.limits, found, f);
    }
    var r := Respond(c.request, x.limits, Final(Merge(found, misses, c.phase.values)), misses);
    ClientMoves(x, s, i, Done(r), f);
  }

  lemma ApplyKeepsInv(x: Fixed, s: System, e: Event, f: Pair -> Score)
    requires Inv(x, s, f) && HonestEvent(x, s, e, f) && Respects(x.keys, f)
    ensures Inv(x, Apply(x, s, e, f), f)
  {
    hide Coherent, Respects, B.Inv, B.Next, Found, Enqueued, Delivered, Finished, PairsFor, Key, Admissible, LookUp, PlainRequest;
    match e
    case Arrive(request) =>
    case Look(i, down) =>
      if i < |s.clients| && s.clients[i].phase.Arrived? {
        LookIsFound(x, s.store, s.clients[i], down, f);
        ClientFound(x, s, i, LookUp(x, s.store, s.clients[i], down), f);
      }
    case Enqueue(i) =>
      if i < |s.clients| && s.clients[i].phase.Looked? {
        EnqueueKeepsInv(x, s, i, f);
      }
    case Deliver(i) =>
      if i < |s.clients| && s.clients[i].phase.Waiting? {
        DeliverKeepsInv(x, s, i, f);
      }
    case DirectAnswer(i, answer) =>
      if i < |s.clients| && s.clients[i].phase.Direct? {
        var c := s.clients[i];
        assert ClientInv(x, s.batcher.jobs, c, f);
        DirectKeepsInv(x, s, i, answer, f);
      }
    case Timeout(i) =>
      if i < |s.clients| && s.clients[i].phase.Waiting? {
        BatcherMoves(x, s, B.GiveUp(s.clients[i].phase.job), f);
        ClientMoves(x, s.(batcher := B.Next(s.batcher, B.GiveUp(s.clients[i].phase.job))), i, GaveUp, f);
      } else if i < |s.clients| && s.clients[i].phase.Direct? {
        ClientMoves(x, s, i, GaveUp, f);
      }
    case Write(i, k) =>
      if i < |s.clients| && s.clients[i].phase.Writing? && k < |s.clients[i].phase.values| {
        WritingMeans(x, s, i, f);
        WriteKeepsInv(x, s, PairsFor(x, s.clients[i], s.clients[i].phase.found)[k], f);
      }
    case Finish(i) =>
      if i < |s.clients| && s.clients[i].phase.Writing? {
        FinishKeepsInv(x, s, i, f);
      }
    case Batcher(step) =>
      if !step.Submit? {
        BatcherMoves(x, s, step, f);
      }
    case Evict(keys) =>
      EvictKeepsCoherent(x.keys, s.store, f, keys);
  }

  lemma ClientFound(x: Fixed, s: System, i: nat, found: seq<Option<Score>>, f: Pair -> Score)
    requires Inv(x, s, f) && i < |s.clients| && Found(x, s.clients[i], found, f)
    ensures Inv(x, Moved(s, i, Looked(found)), f)
  {
    hide Coherent, B.Inv, Admissible, PlainRequest;
    ClientMoves(x, s, i, Looked(found), f);
  }

  lemma DirectKeepsInv(x: Fixed, s: System, i: nat, answer: Answer, f: Pair -> Score)
    requires Inv(x, s, f) && i < |s.clients| && s.clients[i].phase.Direct?
    requires HonestEvent(x, s, DirectAnswer(i, answer), f)
    ensures Inv(x, Apply(x, s, DirectAnswer(i, answer), f), f)
  {
    hide Coherent, B.Inv, Admissible, PlainRequest;
    var c := s.clients[i];
    assert ClientInv(x, s.batcher.jobs, c, f);
    if answer.Scores? && |answer.values| == |PairsFor(x, c, c.phase.found)| {
      ClientMoves(x, s, i, Writing(c.phase.found, answer.values), f);
    } else {
      ClientMoves(x, s, i, GaveUp, f);
    }
  }

  /* ---------- what becomes of a client ---------- */

  /** The events that end a client's request without an answer: its submission is rejected, its job was
      cancelled or failed, its time runs out, or the direct call fails or returns scores that do not fit. */
  predicate GivesUp(s: System, e: Event, i: nat)
    requires i < |s.clients|
    requires s.clients[i].phase.Waiting? ==> s.clients[i].phase.job < |s.batcher.jobs|
  {
    match s.clients[i].phase
    case Looked(found) =>
      && e == Enqueue(i) && (exists k :: 0 <= k < |found| && found[k].None?)
      && s.batcher.enabled && (s.batcher.worker.Stopped? || |s.batcher.queue| >= s.batcher.capacity)
    case Waiting(found, job) =>
      || e == Timeout(i)
      || (e == Deliver(i) && (s.batcher.jobs[job].future.Cancelled? || s.batcher.jobs[job].future.Failed?))
    case Direct(found) =>
      || e == Timeout(i)
      || (e.DirectAnswer? && e.client == i && !(e.answer.Scores? && |e.answer.values| == |Misses(found)|))
    case _ => false
  }

  lemma WaitingJobExists(x: Fixed, s: System, i: nat, f: Pair -> Score)
    requires Inv(x, s, f) && i < |s.clients|
    ensures s.clients[i].phase.Waiting? ==> s.clients[i].phase.job < |s.batcher.jobs|
  {
    assert ClientInv(x, s.batcher.jobs, s.clients[i], f);
  }

  /** An event of the client's own. */
  predicate Concerns(e: Event, i: nat) {
    match e
    case Look(client, _) => client == i
    case Enqueue(client) => client == i
    case Deliver(client) => client == i
    case DirectAnswer(client, _) => client == i
    case Timeout(client) => client == i
    case Write(client, _) => client == i
    case Finish(client) => client == i
    case _ => false
  }

  lemma OthersStay(x: Fixed, s: System, e: Event, i: nat, f: Pair -> Score)
    requires Inv(x, s, f) && i < |s.clients| && !Concerns(e, i)
    ensures i < |Apply(x, s, e, f).clients| && Apply(x, s, e, f).clients[i] == s.clients[i]
  {
    hide Inv, B.Next, Respond, Merge, Key, Admissible, PairsFor, LookUp, Misses, Final;
  }

  /** One of its own events changes the client's phase alone. */
  lemma RequestStays(x: Fixed, s: System, e: Event, i: nat, f: Pair -> Score)
    requires Inv(x, s, f) && i < |s.clients| && Concerns(e, i)
    ensures i < |Apply(x, s, e, f).clients| && Apply(x, s, e, f).clients[i].request == s.clients[i].request
  {
    hide Inv, B.Next, Respond, Merge, Key, Admissible, PairsFor, LookUp, Misses, Final;
  }

  lemma NothingMissing(x: Fixed, s: System, i: nat, f: Pair -> Score)
    requires Inv(x, s, f) && i < |s.clients| && s.clients[i].phase.Looked?
    ensures var c := s.clients[i];
      && |c.phase.found| == |c.request.documents|
      && (PairsFor(x, c, c.phase.found) == [] <==> forall k :: 0 <= k < |c.phase.found| ==> c.phase.found[k].Some?)
  {
    assert ClientInv(x, s.batcher.jobs, s.clients[i], f);
    NoMissesIff(s.clients[i].phase.found);
  }

  lemma EnqueueOutcome(x: Fixed, s: System, i: nat, f: Pair -> Score)
    requires Inv(x, s, f) && i < |s.clients| && s.clients[i].phase.Looked?
    ensures var t := Apply(x, s, Enqueue(i), f);
      !t.clients[i].phase.Done? && (t.clients[i].phase.GaveUp? <==> GivesUp(s, Enqueue(i), i))
  {
    NothingMissing(x, s, i, f);
    hide Inv, B.Next, PairsFor;
  }

  lemma DirectOutcome(x: Fixed, s: System, i: nat, answer: Answer, f: Pair -> Score)
    requires Inv(x, s, f) && i < |s.clients| && s.clients[i].phase.Direct?
    ensures var t := Apply(x, s, DirectAnswer(i, answer), f);
      !t.clients[i].phase.Done? && (t.clients[i].phase.GaveUp? <==> GivesUp(s, DirectAnswer(i, answer), i))
  {
    assert ClientInv(x, s.batcher.jobs, s.clients[i], f);
    hide Inv, Misses;
  }

  lemma DeliverOutcome(x: Fixed, s: System, i: nat, f: Pair -> Score)
    requires Inv(x, s, f) && i < |s.clients| && s.clients[i].phase.Waiting?
    ensures s.clients[i].phase.job < |s.batcher.jobs|
    ensures var t := Apply(x, s, Deliver(i), f);
      !t.clients[i].phase.Done? && (t.clients[i].phase.GaveUp? <==> GivesUp(s, Deliver(i), i))
  {
    WaitingJobExists(x, s, i, f);
    hide Inv;
  }

  /** A client gives up by exactly these events, and is answered by exactly its `Finish`; both outcomes
      are final, and no event changes what a client asked for or removes it. */
  lemma OutcomesExplained(x: Fixed, s: System, e: Event, i: nat, f: Pair -> Score)
    requires Inv(x, s, f) && i < |s.clients|
    ensures s.clients[i].phase.Waiting? ==> s.clients[i].phase.job < |s.batcher.jobs|
    ensures var t := Apply(x, s, e, f);
      var before := s.clients[i].phase;
      && i < |t.clients| && t.clients[i].request == s.clients[i].request
      && (before.Done? || before.GaveUp? ==> t.clients[i].phase == before)
      && (!before.GaveUp? ==> (t.clients[i].phase.GaveUp? <==> GivesUp(s, e, i)))
      && (!before.Done? ==> (t.clients[i].phase.Done? <==> before.Writing? && e == Finish(i)))
  {
    WaitingJobExists(x, s, i, f);
    var before := s.clients[i].phase;
    if !Concerns(e, i) {
      OthersStay(x, s, e, i, f);
      hide Apply;
    } else {
      RequestStays(x, s, e, i, f);
      if before.Looked? && e.Enqueue? {
        EnqueueOutcome(x, s, i, f);
        hide Apply;
      } else if before.Direct? && e.DirectAnswer? {
        DirectOutcome(x, s, i, e.answer, f);
        hide Apply;
      } else if before.Waiting? && e.Deliver? {
        DeliverOutcome(x, s, i, f);
        hide Apply;
      } else {
        hide Inv, B.Next, Respond, Merge, Key, Admissible, PairsFor, LookUp, Misses, Final, Enqueued, Delivered;
      }
    }
  }

  /** `Finish` answers: the client's response is made of its documents' scores, cached or fresh, and
      nothing else in the system moves. */
  lemma FinishAnswers(x: Fixed, s: System, i: nat, f: Pair -> Score)
    requires Inv(x, s, f) && i < |s.clients| && s.clients[i].phase.Writing?
    ensures var phase := s.clients[i].phase;
      |phase.found| == |s.clients[i].request.documents| && |phase.values| == |Misses(phase.found)|
    ensures var c := s.clients[i];
      Apply(x, s, Finish(i), f) == Moved(s, i, Done(ResponseOf(x, c.request, c.phase.found, c.phase.values)))
  {
    FinishKeepsInv(x, s, i, f);
    hide Inv, ResponseOf, Misses;
  }

  /** A write is found by every later lookup with its key, and other lookups are as before. */
  lemma WriteIsFound(x: Fixed, s: System, i: nat, k: nat, f: Pair -> Score)
    requires Inv(x, s, f) && i < |s.clients| && s.clients[i].phase.Writing? && k < |s.clients[i].phase.values|
    ensures var c, t := s.clients[i], Apply(x, s, Write(i, k), f);
      && |c.phase.found| == |c.request.documents| && |PairsFor(x, c, c.phase.found)| == |c.phase.values|
      && var pair := PairsFor(x, c, c.phase.found)[k];
         && Lookup(x.keys, t.store, pair) == Some(f(pair))
         && forall p: Pair :: Key(x.keys, p) != Key(x.keys, pair) ==> Lookup(x.keys, t.store, p) == Lookup(x.keys, s.store, p)
  {
    WritingMeans(x, s, i, f);
    hide Inv, Key;
  }

  /** What is evicted is missed, and nothing else. */
  lemma EvictedIsMissed(x: Fixed, s: System, keys: set<string>, p: Pair, f: Pair -> Score)
    requires Inv(x, s, f)
    ensures var t := Apply(x, s, Evict(keys), f);
      Lookup(x.keys, t.store, p) == if Key(x.keys, p) in keys then None else Lookup(x.keys, s.store, p)
  {
    hide Inv, Key;
  }

  /** A client whose time runs out leaves its job cancelled, if it was pending. */
  lemma TimeoutCancels(x: Fixed, s: System, i: nat, f: Pair -> Score)
    requires Inv(x, s, f) && i < |s.clients| && s.clients[i].phase.Waiting?
    ensures var job := s.clients[i].phase.job;
      && job < |s.batcher.jobs|
      && Apply(x, s, Timeout(i), f).batcher == s.batcher.(jobs := s.batcher.jobs[job := Cancel(s.batcher.jobs[job])])
  {
    WaitingJobExists(x, s, i, f);
    hide Coherent, Respond;
  }

  /* ---------- whole runs ---------- */

  ghost predicate HonestEvents(x: Fixed, s: System, events: seq<Event>, f: Pair -> Score)
    requires Inv(x, s, f) && Respects(x.keys, f)
    decreases |events|
  {
    events == [] ||
    (HonestEvent(x, s, events[0], f) && HonestEvents(x, Next(x, s, events[0], f), events[1..], f))
  }

  function Next(x: Fixed, s: System, e: Event, ghost f: Pair -> Score): (t: System)
    requires Inv(x, s, f) && HonestEvent(x, s, e, f) && Respects(x.keys, f)
    ensures Inv(x, t, f)
  {
    ApplyKeepsInv(x, s, e, f);
    Apply(x, s, e, f)
  }

  function Run(x: Fixed, s: System, events: seq<Event>, ghost f: Pair -> Score): (t: System)
    requires Inv(x, s, f) && Respects(x.keys, f) && HonestEvents(x, s, events, f)
    ensures Inv(x, t, f)
    decreases |events|
  {
    if events == [] then s else Run(x, Next(x, s, events[0], f), events[1..], f)
  }

  lemma StartInv(x: Fixed, enabled: bool, capacity: Positive, f: Pair -> Score)
    ensures Inv(x, Start(enabled, capacity), f)
  {
  }

  /** The request's ids, scores and ranks, if it was answered, are those it would have had alone with
      an empty cache. */
  ghost predicate AnsweredAsAlone(x: Fixed, c: Client, f: Pair -> Score) {
    c.phase.Done? && PlainRequest(x.keys, c.request, x.limits) ==>
      Bare(c.phase.response) == Bare(Alone(c.request, x.limits, f))
  }

  /** Concurrent equals alone: in any run of any number of requests, with any interleaving of cache
      reads, writes and evictions, batches shared and split, timeouts, settings changes and closes,
      every request answered was admissible and has the ids, scores and ranks it would have had alone
      with an empty cache. (In its texts every key separator must
      have a space beside it; others' may be anything.) */
  lemma ConcurrentEqualsAlone(x: Fixed, enabled: bool, capacity: Positive, events: seq<Event>, f: Pair -> Score)
    requires Respects(x.keys, f)
    ensures Inv(x, Start(enabled, capacity), f)
    ensures HonestEvents(x, Start(enabled, capacity), events, f) ==>
      var clients := Run(x, Start(enabled, capacity), events, f).clients;
      forall i :: 0 <= i < |clients| ==>
        Admissible(clients[i].request, x.limits) && AnsweredAsAlone(x, clients[i], f)
  {
    StartInv(x, enabled, capacity, f);
    hide Inv, HonestEvents, Run, Respects, AnsweredAsAlone, Admissible, Start;
    if HonestEvents(x, Start(enabled, capacity), events, f) {
      AnsweredClients(x, Run(x, Start(enabled, capacity), events, f), f);
    }
  }

  lemma AnsweredClients(x: Fixed, s: System, f: Pair -> Score)
    requires Inv(x, s, f)
    ensures forall i :: 0 <= i < |s.clients| ==>
      Admissible(s.clients[i].request, x.limits) && AnsweredAsAlone(x, s.clients[i], f)
  {
    hide Coherent, B.Inv, AllFaithful, Bare, Alone, PlainRequest, Admissible, Found;
    forall i | 0 <= i < |s.clients|
      ensures Admissible(s.clients[i].request, x.limits) && AnsweredAsAlone(x, s.clients[i], f)
    {
      assert ClientInv(x, s.batcher.jobs, s.clients[i], f);
    }
  }
}
