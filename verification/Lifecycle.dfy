/** Candidate load, activation, rollback and close of the model runtime, with predictions in flight. */
module Lifecycle {
  import opened Basics

  datatype Kind = Nothing | InitialLoad | CandidateLoad | CandidateActivate | RollingBack
  datatype Status = Idle | Running | Completed | Failed
  datatype Operation = Operation(kind: Kind, status: Status)

  /** The name and immutable revision a model object was loaded under. */
  datatype Identity = Identity(name: string, revision: string)

  datatype Info = Info(name: string, resolved: string, loadedAt: real)

  datatype Previous<O> = Previous(model: Option<O>, name: string, revision: string, loadedAt: Option<real>)

  /** The runtime's fields and the two settings it changes. */
  datatype Slots<O> = Slots(
    model: Option<O>, name: string, revision: string, loadedAt: Option<real>,
    candidate: Option<O>, info: Option<Info>, previous: Option<Previous<O>>, operation: Operation)

  /* ---------- what each operation does to the fields ---------- */

  function Noted<O>(s: Slots<O>, kind: Kind, status: Status): Slots<O> {
    s.(operation := Operation(kind, status))
  }

  function Published<O>(s: Slots<O>, model: O, info: Info): Slots<O> {
    s.(candidate := Some(model), info := Some(info), operation := Operation(CandidateLoad, Completed))
  }

  function Activated<O>(s: Slots<O>): Slots<O> {
    if s.candidate.None? || s.info.None? then Noted(s, CandidateActivate, Failed)
    else Slots(s.candidate, s.info.value.name, s.info.value.resolved, Some(s.info.value.loadedAt),
               None, None, Some(Previous(s.model, s.name, s.revision, s.loadedAt)),
               Operation(CandidateActivate, Completed))
  }

  function RolledBack<O>(s: Slots<O>): Slots<O> {
    if s.previous.None? then Noted(s, RollingBack, Failed)
    else
      var p := s.previous.value;
      s.(model := p.model, name := p.name, revision := p.revision, loadedAt := p.loadedAt,
         previous := Some(Previous(s.model, s.name, s.revision, s.loadedAt)),
         operation := Operation(RollingBack, Completed))
  }

  /** Everything but the operation record. */
  function Serving<O>(s: Slots<O>): Slots<O> {
    s.(operation := Operation(Nothing, Idle))
  }

  /* ---------- rollback algebra ---------- */

  /** Rolling back twice restores every field. */
  lemma RollbackTwice<O>(s: Slots<O>)
    ensures Serving(RolledBack(RolledBack(s))) == Serving(s)
  {
  }

  /** Rolling back an activation restores the former active model under its former identity, with
      the candidate, under its own identity, as the previous model and no candidate left. */
  lemma ActivateThenRollback<O>(s: Slots<O>)
    requires s.candidate.Some? && s.info.Some?
    ensures var t := RolledBack(Activated(s));
      && t.model == s.model && t.name == s.name && t.revision == s.revision && t.loadedAt == s.loadedAt
      && t.previous == Some(Previous(s.candidate, s.info.value.name, s.info.value.resolved, Some(s.info.value.loadedAt)))
      && t.candidate.None? && t.info.None?
      && Serving(RolledBack(t)) == Serving(Activated(s))
  {
  }

  /** The test rerank of one pair gives one finite score. */
  predicate Passes(test: Option<seq<Float>>) {
    test.Some? && |test.value| == 1 && test.value[0].Finite?
  }

  /* ---------- the objects of the program ---------- */

  class LoadedModel {
    const identity: Identity
    var unloads: nat

    constructor (identity: Identity)
      ensures this.identity == identity && unloads == 0
    {
      this.identity, unloads := identity, 0;
    }

    /** `backend.unload(model)` */
    method Unload()
      modifies this
      ensures unloads == old(unloads) + 1
    {
      unloads := unloads + 1;
    }
  }

  class ModelRuntime {
    var model: Option<LoadedModel>
    var candidate: Option<LoadedModel>
    var candidateInfo: Option<Info>
    var previous: Option<Previous<LoadedModel>>
    var loadedAt: Option<real>
    var settingsModel: string
    var settingsRevision: string
    var operation: Operation

    function Fields(): Slots<LoadedModel>
      reads this
    {
      Slots(model, settingsModel, settingsRevision, loadedAt, candidate, candidateInfo, previous, operation)
    }

    constructor (name: string, revision: string)
      ensures Fields() == Slots(None, name, revision, None, None, None, None, Operation(Nothing, Idle))
    {
      model, candidate, candidateInfo, previous, loadedAt := None, None, None, None, None;
      settingsModel, settingsRevision := name, revision;
      operation := Operation(Nothing, Idle);
    }

    method SetOperation(kind: Kind, status: Status)
      modifies this
      ensures Fields() == Noted(old(Fields()), kind, status)
    {
      operation := Operation(kind, status);
    }

    /** The last part of `load_candidate`, under the lock: the test rerank, which returns scores or
        raises, decides whether the loaded object becomes the candidate or is unloaded, leaving
        everything else as it was. */
    method FinishCandidate(loaded: LoadedModel, info: Info, test: Option<seq<Float>>) returns (ok: bool)
      modifies this, loaded
      ensures ok <==> Passes(test)
      ensures Fields() == if ok then Published(old(Fields()), loaded, info) else Noted(old(Fields()), CandidateLoad, Failed)
      ensures loaded.unloads == old(loaded.unloads) + if ok then 0 else 1
    {
      if test.None? || |test.value| != 1 || test.value[0].NonFinite? {
        loaded.Unload();
        SetOperation(CandidateLoad, Failed);
        return false;
      }
      candidate := Some(loaded);
      candidateInfo := Some(info);
      SetOperation(CandidateLoad, Completed);
      return true;
    }

    method ActivateCandidate() returns (ok: bool)
      modifies this
      ensures ok <==> old(candidate).Some? && old(candidateInfo).Some?
      ensures Fields() == Activated(old(Fields()))
    {
      if candidate.None? || candidateInfo.None? {
        SetOperation(CandidateActivate, Failed);
        return false;
      }
      var oldName, oldRevision := settingsModel, settingsRevision;
      previous := Some(Previous(model, oldName, oldRevision, loadedAt));
      model := candidate;
      settingsModel := candidateInfo.value.name;
      settingsRevision := candidateInfo.value.resolved;
      loadedAt := Some(candidateInfo.value.loadedAt);
      candidate, candidateInfo := None, None;
      SetOperation(CandidateActivate, Completed);
      return true;
    }

    method Rollback() returns (ok: bool)
      modifies this
      ensures ok <==> old(previous).Some?
      ensures Fields() == RolledBack(old(Fields()))
    {
      if previous.None? {
        SetOperation(RollingBack, Failed);
        return false;
      }
      var current := Previous(model, settingsModel, settingsRevision, loadedAt);
      var p := previous.value;
      model, settingsModel, settingsRevision, loadedAt := p.model, p.name, p.revision, p.loadedAt;
      previous := Some(current);
      SetOperation(RollingBack, Completed);
      return true;
    }

    /** The models the runtime holds. */
    function Held(): set<LoadedModel>
      reads this
    {
      (if model.Some? then {model.value} else {})
      + (if candidate.Some? then {candidate.value} else {})
      + (if previous.Some? && previous.value.model.Some? then {previous.value.model.value} else {})
    }

    /** `close` unloads every distinct held model exactly once, however often it is held, no other
        model, and lets go of all of them. */
    method Close()
      modifies this, Held()
      ensures model.None? && candidate.None? && previous.None?
      ensures forall m :: m in old(Held()) ==> m.unloads == old(m.unloads) + 1
    {
      var models := [model, candidate];
      if previous.Some? {
        models := models + [previous.value.model];
      }
      HeldArePresent(models);
      var seen: set<LoadedModel> := {};
      assert Present(models[..0]) == {};
      hide Present;
      for i := 0 to |models|
        invariant seen == Present(models[..i]) && seen <= old(Held())
        invariant forall m :: m in old(Held()) ==> m.unloads == old(m.unloads) + if m in seen then 1 else 0
      {
        OneMorePresent(models, i);
        PresentGrows(models, i + 1);
        if models[i].Some? && models[i].value !in seen {
          seen := seen + {models[i].value};
          models[i].value.Unload();
        }
      }
      assert models[..|models|] == models;
      model, candidate := None, None;
      previous := None;
    }

    lemma HeldArePresent(models: seq<Option<LoadedModel>>)
      requires models == [model, candidate] + if previous.Some? then [previous.value.model] else []
      ensures Present(models) == Held()
    {
      assert Present([model]) == (if model.Some? then {model.value} else {}) by { assert [model][..0] == []; }
      assert Present([model, candidate]) == Present([model]) + if candidate.Some? then {candidate.value} else {} by {
        assert [model, candidate][..1] == [model];
      }
      if previous.Some? {
        assert models[..2] == [model, candidate];
      }
    }
  }

  function Present<T(==)>(models: seq<Option<T>>): set<T> {
    if models == [] then {} else
    var last := models[|models| - 1];
    Present(models[..|models| - 1]) + if last.Some? then {last.value} else {}
  }

  lemma OneMorePresent<T>(models: seq<Option<T>>, i: nat)
    requires i < |models|
    ensures Present(models[..i + 1]) == Present(models[..i]) + if models[i].Some? then {models[i].value} else {}
  {
    assert models[..i + 1][..i] == models[..i];
  }

  lemma {:induction false} PresentGrows<T>(models: seq<Option<T>>, i: nat)
    requires i <= |models|
    ensures Present(models[..i]) <= Present(models)
    decreases |models|
  {
    if i < |models| {
      PresentGrows(models[..|models| - 1], i);
      assert models[..|models| - 1][..i] == models[..i];
    } else {
      assert models[..i] == models;
    }
  }

  /* ---------- all interleavings ---------- */

  /** Who holds the model lock across an await: only a candidate load does. */
  datatype Lock = Free | Loading(target: Identity) | Testing(target: Identity, model: nat)

  /** Model objects are numbered; `loaded` records what each was loaded under. */
  datatype State = State(
    slots: Slots<nat>, lock: Lock, waiting: multiset<Identity>, inFlight: multiset<nat>,
    loaded: map<nat, Identity>, unloaded: set<nat>)

  datatype Step =
    | BeginLoad(target: Identity, valid: bool, parallel: bool)
    | TakeLock(target: Identity)
    | LoadReturns(model: nat)
    | LoadFails
    | TestReturns(test: Option<seq<Float>>, at: real)
    | BeginActivate
    | Activate
    | BeginRollback
    | Rollback
    | PredictStart
    | PredictEnd(model: nat)

  /** The runtime right after a successful initial load. */
  function Ready(model: nat, id: Identity, at: real): State {
    State(Slots(Some(model), id.name, id.revision, Some(at), None, None, None, Operation(InitialLoad, Completed)),
          Free, multiset{}, multiset{}, map[model := id], {})
  }

  /** One step between two awaits; a step that is not possible changes nothing. Activation and
      rollback do not await while they hold the lock. */
  function Apply(s: State, step: Step): State {
    match step
    case BeginLoad(target, valid, parallel) =>
      if !valid then s.(slots := Noted(s.slots, CandidateLoad, Failed))
      else if !parallel then s.(slots := Noted(s.slots, CandidateLoad, Completed))
      else s.(slots := Noted(s.slots, CandidateLoad, Running), waiting := s.waiting + multiset{target})
    case TakeLock(target) =>
      if s.lock.Free? && target in s.waiting
      then s.(lock := Loading(target), waiting := s.waiting - multiset{target}) else s
    case LoadReturns(model) =>
      if s.lock.Loading? && model !in s.loaded
      then s.(lock := Testing(s.lock.target, model), loaded := s.loaded[model := s.lock.target]) else s
    case LoadFails =>
      if s.lock.Loading? then s.(lock := Free, slots := Noted(s.slots, CandidateLoad, Failed)) else s
    case TestReturns(test, at) =>
      if !s.lock.Testing? then s
      else if Passes(test)
      then s.(lock := Free, slots := Published(s.slots, s.lock.model, Info(s.lock.target.name, s.lock.target.revision, at)))
      else s.(lock := Free, unloaded := s.unloaded + {s.lock.model}, slots := Noted(s.slots, CandidateLoad, Failed))
    case BeginActivate => s.(slots := Noted(s.slots, CandidateActivate, Running))
    case Activate => if s.lock.Free? then s.(slots := Activated(s.slots)) else s
    case BeginRollback => s.(slots := Noted(s.slots, RollingBack, Running))
    case Rollback => if s.lock.Free? then s.(slots := RolledBack(s.slots)) else s
    case PredictStart =>
      if s.slots.model.Some? then s.(inFlight := s.inFlight + multiset{s.slots.model.value}) else s
    case PredictEnd(model) => s.(inFlight := s.inFlight - multiset{model})
  }

  /** A model object that was loaded under exactly this identity and never unloaded. */
  predicate Sound(s: State, model: Option<nat>, name: string, revision: string) {
    && model.Some? && model.value in s.loaded
    && s.loaded[model.value] == Identity(name, revision)
    && model.value !in s.unloaded
  }

  predicate Uses(s: State, model: nat) {
    || s.slots.model == Some(model)
    || s.slots.candidate == Some(model)
    || (s.slots.previous.Some? && s.slots.previous.value.model == Some(model))
    || model in s.inFlight
  }

  ghost predicate Inv(s: State) {
    && Sound(s, s.slots.model, s.slots.name, s.slots.revision)
    && (s.slots.candidate.Some? <==> s.slots.info.Some?)
    && (s.slots.info.Some? ==> Sound(s, s.slots.candidate, s.slots.info.value.name, s.slots.info.value.resolved))
    && (s.slots.previous.Some? ==>
          var p := s.slots.previous.value; Sound(s, p.model, p.name, p.revision))
    && (forall m :: m in s.inFlight ==> m in s.loaded && m !in s.unloaded)
    // the object under test is loaded as asked for and nobody uses it yet
    && (s.lock.Testing? ==>
          Sound(s, Some(s.lock.model), s.lock.target.name, s.lock.target.revision) && !Uses(s, s.lock.model))
    && s.unloaded <= s.loaded.Keys
  }

  lemma LoadKeepsInv(s: State, step: Step)
    requires Inv(s) && (step.TakeLock? || step.LoadReturns? || step.LoadFails?)
    ensures Inv(Apply(s, step))
  {
  }

  lemma TestKeepsInv(s: State, step: Step)
    requires Inv(s) && step.TestReturns?
    ensures Inv(Apply(s, step))
  {
  }

  lemma SwapKeepsInv(s: State, step: Step)
    requires Inv(s) && (step.Activate? || step.Rollback?)
    ensures Inv(Apply(s, step))
  {
  }

  lemma PredictKeepsInv(s: State, step: Step)
    requires Inv(s) && (step.PredictStart? || step.PredictEnd?)
    ensures Inv(Apply(s, step))
  {
  }

  lemma BeginKeepsInv(s: State, step: Step)
    requires Inv(s) && (step.BeginLoad? || step.BeginActivate? || step.BeginRollback?)
    ensures Inv(Apply(s, step))
  {
    match step
    case BeginLoad(_, _, _) =>
    case BeginActivate =>
    case BeginRollback =>
  }

  lemma ApplyKeepsInv(s: State, step: Step)
    requires Inv(s)
    ensures Inv(Apply(s, step))
  {
    hide Inv, Apply;
    if step.TakeLock? || step.LoadReturns? || step.LoadFails? {
      LoadKeepsInv(s, step);
    } else if step.TestReturns? {
      TestKeepsInv(s, step);
    } else if step.Activate? || step.Rollback? {
      SwapKeepsInv(s, step);
    } else if step.PredictStart? || step.PredictEnd? {
      PredictKeepsInv(s, step);
    } else {
      BeginKeepsInv(s, step);
    }
  }

  function Run(s: State, steps: seq<Step>): State
    decreases |steps|
  {
    if steps == [] then s else Run(Apply(s, steps[0]), steps[1..])
  }

  lemma {:induction false} RunKeepsInv(s: State, steps: seq<Step>)
    requires Inv(s)
    ensures Inv(Run(s, steps))
    decreases |steps|
  {
    hide Inv, Apply;
    if steps != [] {
      ApplyKeepsInv(s, steps[0]);
      RunKeepsInv(Apply(s, steps[0]), steps[1..]);
    }
  }

  /** Lifecycle safety over every interleaving: the active model was loaded under exactly the
      identity the settings name, the candidate under the identity its information names, the
      previous one under the identity to be restored; and no unloaded model is active, candidate,
      previous or in use by a prediction. */
  lemma LifecycleSafety(model: nat, id: Identity, at: real, steps: seq<Step>)
    ensures Inv(Ready(model, id, at))
    ensures var s := Run(Ready(model, id, at), steps);
      && Sound(s, s.slots.model, s.slots.name, s.slots.revision)
      && s.loaded[s.slots.model.value] == Identity(s.slots.name, s.slots.revision)
      && (s.slots.candidate.Some? ==>
            (s.slots.info.Some? && Sound(s, s.slots.candidate, s.slots.info.value.name, s.slots.info.value.resolved)))
      && (s.slots.previous.Some? ==>
            var p := s.slots.previous.value; Sound(s, p.model, p.name, p.revision))
      && forall m :: m in s.unloaded ==> !Uses(s, m)
  {
    RunKeepsInv(Ready(model, id, at), steps);
  }

  /** The steps that put a model in place: a candidate that passes its test, and an activation or a
      rollback that finds something to put there. */
  predicate Replaces(s: State, step: Step) {
    || (step.TestReturns? && s.lock.Testing? && Passes(step.test))
    || (step.Activate? && s.lock.Free? && s.slots.candidate.Some? && s.slots.info.Some?)
    || (step.Rollback? && s.lock.Free? && s.slots.previous.Some?)
  }

  /** A run in which no step does. */
  predicate NothingReplaced(s: State, steps: seq<Step>)
    decreases |steps|
  {
    steps == [] || (!Replaces(s, steps[0]) && NothingReplaced(Apply(s, steps[0]), steps[1..]))
  }

  lemma StepServes(s: State, step: Step)
    requires !Replaces(s, step)
    ensures Serving(Apply(s, step).slots) == Serving(s.slots)
  {
  }

  lemma InvInFlight(s: State)
    requires Inv(s)
    ensures forall m :: m in s.inFlight ==> m in s.loaded && m !in s.unloaded
  {
  }

  lemma StepKeepsPrediction(s: State, step: Step, model: nat)
    requires model in s.inFlight && model in s.loaded && step != PredictEnd(model)
    ensures var t := Apply(s, step);
      model in t.inFlight && model in t.loaded && t.loaded[model] == s.loaded[model]
  {
  }

  /** Candidate loads that fail, any number of them, at any point and interleaved with anything but a
      successful load, activation or rollback, change nothing but the operation record: the active
      model, the settings, the candidate and the previous model stay as they were. */
  lemma {:induction false} FailedLoadsChangeNothing(s: State, steps: seq<Step>)
    requires Inv(s)
    requires NothingReplaced(s, steps)
    ensures Serving(Run(s, steps).slots) == Serving(s.slots)
    decreases |steps|
  {
    hide Inv, Apply, Serving;
    if steps != [] {
      ApplyKeepsInv(s, steps[0]);
      StepServes(s, steps[0]);
      FailedLoadsChangeNothing(Apply(s, steps[0]), steps[1..]);
    }
  }

  /** A candidate that passes its test takes over: when an activation gets the lock, with anything but
      another replacement in between, the tested model is active under exactly the identity asked for,
      the model that was active is the previous one, and no candidate is left. */
  lemma TestedCandidateTakesOver(s: State, test: Option<seq<Float>>, at: real, meanwhile: seq<Step>)
    requires Inv(s) && s.lock.Testing? && test.Some? && |test.value| == 1 && test.value[0].Finite?
    ensures var tested := Apply(s, TestReturns(test, at));
      && tested.slots.candidate == Some(s.lock.model) && tested.lock.Free? && tested.unloaded == s.unloaded
      && (NothingReplaced(tested, meanwhile) && Run(tested, meanwhile).lock.Free? ==>
            var t := Apply(Run(tested, meanwhile), Activate);
            && t.slots.model == Some(s.lock.model)
            && Identity(t.slots.name, t.slots.revision) == s.lock.target && t.slots.loadedAt == Some(at)
            && t.slots.previous == Some(Previous(s.slots.model, s.slots.name, s.slots.revision, s.slots.loadedAt))
            && t.slots.candidate.None? && t.slots.info.None?)
  {
    var tested := Apply(s, TestReturns(test, at));
    ApplyKeepsInv(s, TestReturns(test, at));
    hide Inv, Run, NothingReplaced;
    if NothingReplaced(tested, meanwhile) {
      FailedLoadsChangeNothing(tested, meanwhile);
      SameServing(tested.slots, Run(tested, meanwhile).slots);
    }
  }

  lemma SameServing<O>(s: Slots<O>, t: Slots<O>)
    requires Serving(s) == Serving(t)
    ensures t == s.(operation := t.operation)
  {
  }

  /** A candidate that fails its test is unloaded and takes nobody's place. */
  lemma FailedCandidateIsUnloaded(s: State, test: Option<seq<Float>>, at: real)
    requires Inv(s) && s.lock.Testing? && !Passes(test)
    ensures var t := Apply(s, TestReturns(test, at));
      && s.lock.model in t.unloaded && !Uses(t, s.lock.model) && t.lock.Free? && Serving(t.slots) == Serving(s.slots)
  {
  }

  /** A valid load that fits in memory waits, gets the lock when it is free, and is tested under its target
      once loaded; nothing it leaves behind keeps others waiting. */
  lemma LoadReachesItsTest(s: State, target: Identity, model: nat)
    requires Inv(s) && s.lock.Free? && model !in s.loaded
    ensures var t := Run(s, [BeginLoad(target, true, true), TakeLock(target), LoadReturns(model)]);
      && t.lock == Testing(target, model) && t.loaded == s.loaded[model := target] && t.waiting == s.waiting
      && t.slots == s.slots.(operation := Operation(CandidateLoad, Running))
  {
    var begin, take, load := BeginLoad(target, true, true), TakeLock(target), LoadReturns(model);
    var begun := Apply(s, begin);
    var locked := Apply(begun, take);
    assert begun.waiting == s.waiting + multiset{target};
    assert locked.waiting == s.waiting;
    assert [begin, take, load][1..] == [take, load] && [take, load][1..] == [load] && [load][1..] == [];
    assert Run(locked, [load]) == Apply(locked, load);
    assert Run(begun, [take, load]) == Apply(locked, load);
  }

  /** Only a load that waits gets the lock, and only when it is free; one that fails gives it back. */
  lemma LockIsForLoads(s: State, target: Identity)
    ensures s.lock.Free? && target in s.waiting ==>
      Apply(s, TakeLock(target)) == s.(lock := Loading(target), waiting := s.waiting[target := s.waiting[target] - 1])
    ensures !s.lock.Free? || target !in s.waiting ==> Apply(s, TakeLock(target)) == s
    ensures s.lock.Loading? ==>
      Apply(s, LoadFails) == s.(lock := Free, slots := s.slots.(operation := Operation(CandidateLoad, Failed)))
    ensures !s.lock.Loading? ==> Apply(s, LoadFails) == s
  {
  }

  /** A prediction runs on the model that is active when it starts, and on that one only until it ends. */
  lemma PredictionUsesActive(s: State)
    requires Inv(s)
    ensures var t := Apply(s, PredictStart);
      && t == s.(inFlight := t.inFlight) && t.inFlight == s.inFlight + multiset{s.slots.model.value}
      && Apply(t, PredictEnd(s.slots.model.value)) == s
  {
  }

  /** A rollback that gets the lock puts the previous model back under its identity, with the active one in
      its place. */
  lemma RollbackSwaps(s: State)
    requires Inv(s) && s.lock.Free? && s.slots.previous.Some?
    ensures var t, p := Apply(s, Rollback), s.slots.previous.value;
      && t.slots.model == p.model && t.slots.name == p.name && t.slots.revision == p.revision && t.slots.loadedAt == p.loadedAt
      && t.slots.previous == Some(Previous(s.slots.model, s.slots.name, s.slots.revision, s.slots.loadedAt))
      && t.slots.candidate == s.slots.candidate && t == s.(slots := t.slots)
  {
  }

  /** A load that is refused, for its target or for want of memory, queues nothing and replaces nothing. */
  lemma RefusedLoads(s: State, target: Identity, valid: bool, parallel: bool)
    requires !valid || !parallel
    ensures var t := Apply(s, BeginLoad(target, valid, parallel));
      t == s.(slots := t.slots) && Serving(t.slots) == Serving(s.slots)
  {
  }

  /** A prediction's model stays loaded under one identity from its start to its end, whatever is
      activated, rolled back or unloaded meanwhile. */
  lemma {:induction false} PredictionKeepsItsModel(s: State, steps: seq<Step>, model: nat)
    requires Inv(s) && model in s.inFlight
    requires forall k :: 0 <= k < |steps| ==> steps[k] != PredictEnd(model)
    ensures var t := Run(s, steps);
      model in t.inFlight && model in t.loaded && t.loaded[model] == s.loaded[model] && model !in t.unloaded
    decreases |steps|
  {
    hide Apply;
    InvInFlight(s);
    hide Inv;
    if steps != [] {
      ApplyKeepsInv(s, steps[0]);
      StepKeepsPrediction(s, steps[0], model);
      PredictionKeepsItsModel(Apply(s, steps[0]), steps[1..], model);
    }
  }
}
